/**
 * The background timer service. It runs either a Pomodoro countdown for a session or a
 * count-up update job for a timer record, rotates the session through its phases when a
 * countdown ends, and reports to the view model by broadcasts, kept here as an outbox.
 * The framework's timers are not run: each countdown tick, countdown end and update-job
 * iteration is a method the environment calls, and the wall clock enters as `now`.
 */
module TimerService {
  import opened Text
  import opened Clock
  import opened TimerData

  /** The service's broadcasts, in the order it sends them. */
  datatype Broadcast =
    | PomodoroTick(timeRemaining: int)
    | RegularTick(elapsedTime: int)
    | TimerFinished
    | PomodoroStateChanged(status: PomodoroStatus)

  /** `"%02d:%02d"` of whole minutes and the seconds within the minute; minutes may exceed 99. */
  function FormatMinutesSeconds(millis: nat): string {
    Pad2(millis / MINUTE) + ":" + Pad2(millis / SECOND % 60)
  }

  /**
   * The text is whole minutes, a colon and two-digit seconds under 60, reading back as the
   * whole seconds of `millis`; below 100 minutes it is exactly five characters.
   */
  lemma FormatMinutesSecondsFields(millis: nat)
    ensures (var r := FormatMinutesSeconds(millis);
             && |r| >= 5 && r[|r| - 3] == ':'
             && AllDigits(r[..|r| - 3]) && AllDigits(r[|r| - 2..])
             && DigitsValue(r[|r| - 2..]) < 60
             && DigitsValue(r[..|r| - 3]) * 60 + DigitsValue(r[|r| - 2..]) == millis / SECOND
             && (millis < 100 * MINUTE ==> |r| == 5))
  {
    MinuteSecondSplit(millis);
    MinutesText(millis / MINUTE, millis / SECOND % 60);
  }

  /** `%02d:%02d` of a minute and a second count reads back as those counts. */
  lemma MinutesText(mm: nat, ss: nat)
    requires ss < 60
    ensures (var r := Pad2(mm) + ":" + Pad2(ss);
             && |r| == |Pad2(mm)| + 3 && r[|r| - 3] == ':'
             && AllDigits(r[..|r| - 3]) && DigitsValue(r[..|r| - 3]) == mm
             && AllDigits(r[|r| - 2..]) && DigitsValue(r[|r| - 2..]) == ss)
  {
    var r := Pad2(mm) + ":" + Pad2(ss);
    assert r[..|r| - 3] == Pad2(mm) && r[|r| - 2..] == Pad2(ss);
  }

  /** Whole minutes and the seconds within the minute make up the whole seconds. */
  lemma MinuteSecondSplit(millis: nat)
    ensures millis / MINUTE * 60 + millis / SECOND % 60 == millis / SECOND
    ensures millis < 100 * MINUTE ==> millis / MINUTE < 100
  {
    var s := millis / SECOND;
    var r := millis % SECOND;
    assert millis == 60000 * (s / 60) + (1000 * (s % 60) + r);
  }

  /** Status name shown in the countdown notification. */
  function NotificationStatus(status: PomodoroStatus): string {
    match status
    case Working => "工作中"
    case ShortBreak => "短休息"
    case LongBreak => "长休息"
    case _ => "番茄钟"
  }

  // The anchor of a resumed count-up timer as `resumeTimer` leaves it: its closing call of
  // `startRegularTimer` replaces the anchor `resumeTimer` has just set by `now - totalPausedTime`.
  function ResumeAnchorAsWritten(totalPausedTime: int, pauseStartTime: Option<int>, now: int): int {
    var pauseDuration := now - (match pauseStartTime case Some(t) => t case None => now);
    now - (totalPausedTime + pauseDuration)
  }

  /**
   * The anchor `resumeTimer` sets before calling `startRegularTimer`: the elapsed time resumes
   * from the duration reached at the pause.
   */
  function ResumeAnchor(duration: int, now: int): int {
    now - duration
  }

  /**
   * A record started at 0, paused at 10 s after 10 s of timing and resumed at 70 s: as written,
   * the timer then reads 60 s, the length of the pause, instead of the 10 s actually timed.
   */
  lemma ResumeAsWrittenReportsPausedTime()
    ensures var anchor := ResumeAnchorAsWritten(0, Some(10_000), 70_000);
            70_000 - anchor == 60_000
    ensures var anchor := ResumeAnchor(10_000, 70_000);
            70_000 - anchor == 10_000
  {
  }

  /**
   * For any pause: as written, the resumed timer reports the pauses accumulated so far plus the
   * one just ended, whatever duration was reached before it; the intended anchor reports that
   * duration. The two agree only when the duration happens to equal the total pause time.
   */
  lemma ResumeAsWrittenReportsPauses(duration: int, totalPausedTime: int, pausedAt: int, now: int)
    ensures now - ResumeAnchorAsWritten(totalPausedTime, Some(pausedAt), now) == totalPausedTime + (now - pausedAt)
    ensures now - ResumeAnchor(duration, now) == duration
    ensures ResumeAnchorAsWritten(totalPausedTime, Some(pausedAt), now) == ResumeAnchor(duration, now)
            <==> duration == totalPausedTime + (now - pausedAt)
  {
  }

  class TimerService {
    var isTimerRunning: bool
    var timeRemainingMillis: int
    /** The length the live countdown was started with; none when it was cancelled or never started. */
    var countdown: Option<int>
    var currentPomodoroSession: PomodoroSession?
    var currentTimerRecord: TimerRecord?
    var regularTimerStartTime: int
    var regularTimerElapsedTime: int
    /** The record the live update job reads; null when the job is cancelled. */
    var updateJob: TimerRecord?
    var outbox: seq<Broadcast>

    /**
     * At most one timer is active, a live countdown belongs to a session, a live update job to
     * the current record, and the session's interval can divide.
     */
    ghost predicate Valid()
      reads this
    {
      && (currentPomodoroSession == null || currentTimerRecord == null)
      && (currentPomodoroSession != null ==> currentPomodoroSession.longBreakInterval > 0)
      && (countdown.Some? ==> currentPomodoroSession != null)
      && (updateJob != null ==> updateJob == currentTimerRecord)
    }

    constructor ()
      ensures Valid()
      ensures !isTimerRunning && timeRemainingMillis == 0 && countdown.None?
      ensures currentPomodoroSession == null && currentTimerRecord == null && updateJob == null
      ensures regularTimerStartTime == 0 && regularTimerElapsedTime == 0 && outbox == []
    {
      isTimerRunning := false;
      timeRemainingMillis := 0;
      countdown := None;
      currentPomodoroSession := null;
      currentTimerRecord := null;
      regularTimerStartTime := 0;
      regularTimerElapsedTime := 0;
      updateJob := null;
      outbox := [];
    }

    /** Cancels both timers and forgets the session and the record. */
    method StopTimer()
      modifies this
      ensures Valid()
      ensures !isTimerRunning && timeRemainingMillis == 0 && countdown.None? && updateJob == null
      ensures currentPomodoroSession == null && currentTimerRecord == null
      ensures regularTimerStartTime == old(regularTimerStartTime)
      ensures regularTimerElapsedTime == old(regularTimerElapsedTime) && outbox == old(outbox)
    {
      countdown := None;
      updateJob := null;
      isTimerRunning := false;
      timeRemainingMillis := 0;
      currentPomodoroSession := null;
      currentTimerRecord := null;
    }

    /** Stops whatever runs, then counts down the session's current phase and announces its status. */
    method StartPomodoroTimer(session: PomodoroSession)
      requires session.longBreakInterval > 0
      modifies this
      ensures Valid()
      ensures currentPomodoroSession == session && currentTimerRecord == null && updateJob == null
      ensures timeRemainingMillis == session.PhaseMillis() && countdown == Some(timeRemainingMillis)
      ensures isTimerRunning
      ensures outbox == old(outbox) + [PomodoroStateChanged(session.currentStatus)]
      ensures regularTimerStartTime == old(regularTimerStartTime)
      ensures regularTimerElapsedTime == old(regularTimerElapsedTime)
    {
      StopTimer();
      currentPomodoroSession := session;
      var durationMillis := session.PhaseMillis();
      timeRemainingMillis := durationMillis;
      StartCountDownTimer(durationMillis);
      outbox := outbox + [PomodoroStateChanged(session.currentStatus)];
    }

    /** Stops whatever runs, anchors the count-up clock so that paused time is excluded, and starts the update job. */
    method StartRegularTimer(record: TimerRecord, now: int)
      modifies this
      ensures Valid()
      ensures currentTimerRecord == record && updateJob == record && currentPomodoroSession == null
      ensures regularTimerStartTime == now - record.totalPausedTime
      ensures isTimerRunning && countdown.None? && timeRemainingMillis == 0
      ensures regularTimerElapsedTime == old(regularTimerElapsedTime) && outbox == old(outbox)
    {
      StopTimer();
      currentTimerRecord := record;
      regularTimerStartTime := now - record.totalPausedTime;
      updateJob := record;
      isTimerRunning := true;
    }

    method StartCountDownTimer(durationMillis: int)
      requires currentPomodoroSession != null
      modifies this
      ensures countdown == Some(durationMillis) && isTimerRunning
      ensures currentPomodoroSession == old(currentPomodoroSession) && currentTimerRecord == old(currentTimerRecord)
      ensures updateJob == old(updateJob) && timeRemainingMillis == old(timeRemainingMillis)
      ensures regularTimerStartTime == old(regularTimerStartTime)
      ensures regularTimerElapsedTime == old(regularTimerElapsedTime) && outbox == old(outbox)
    {
      countdown := Some(durationMillis);
      isTimerRunning := true;
    }

    /** The time the update job reports: frozen at the stored duration while paused, else measured from the anchor. */
    function ElapsedAt(now: int): int
      requires updateJob != null
      reads this, updateJob
    {
      if updateJob.isPaused then updateJob.duration else now - regularTimerStartTime
    }

    /** One iteration of the update job's once-a-second loop. */
    method RegularTimerTick(now: int)
      requires Valid() && updateJob != null
      modifies this
      ensures Valid()
      ensures regularTimerElapsedTime == old(ElapsedAt(now))
      ensures outbox == old(outbox) + [RegularTick(regularTimerElapsedTime)]
      ensures isTimerRunning == old(isTimerRunning) && timeRemainingMillis == old(timeRemainingMillis)
      ensures countdown == old(countdown) && updateJob == old(updateJob)
      ensures currentPomodoroSession == old(currentPomodoroSession) && currentTimerRecord == old(currentTimerRecord)
      ensures regularTimerStartTime == old(regularTimerStartTime)
    {
      var elapsedTime := if updateJob.isPaused then updateJob.duration else now - regularTimerStartTime;
      regularTimerElapsedTime := elapsedTime;
      outbox := outbox + [RegularTick(elapsedTime)];
    }

    /** The countdown's `onTick`. */
    method CountdownTick(millisUntilFinished: int)
      requires Valid() && countdown.Some?
      modifies this
      ensures Valid()
      ensures timeRemainingMillis == millisUntilFinished
      ensures outbox == old(outbox) + [PomodoroTick(millisUntilFinished)]
      ensures isTimerRunning == old(isTimerRunning) && countdown == old(countdown) && updateJob == old(updateJob)
      ensures currentPomodoroSession == old(currentPomodoroSession) && currentTimerRecord == old(currentTimerRecord)
      ensures regularTimerStartTime == old(regularTimerStartTime)
      ensures regularTimerElapsedTime == old(regularTimerElapsedTime)
    {
      timeRemainingMillis := millisUntilFinished;
      outbox := outbox + [PomodoroTick(millisUntilFinished)];
    }

    /**
     * The countdown's `onFinish`: announces the end, moves the session to its next phase and
     * counts that phase down, so the rotation continues without the user.
     */
    method CountdownFinish()
      requires Valid() && countdown.Some?
      modifies this, currentPomodoroSession
      ensures Valid()
      ensures currentPomodoroSession == old(currentPomodoroSession) && currentTimerRecord == null
      ensures currentPomodoroSession.CurrentPhase()
           == NextPhase(old(currentPomodoroSession.CurrentPhase()), currentPomodoroSession.longBreakInterval)
      ensures timeRemainingMillis == currentPomodoroSession.PhaseMillis() && countdown == Some(timeRemainingMillis)
      ensures isTimerRunning && updateJob == null
      ensures outbox == old(outbox) + [TimerFinished, PomodoroStateChanged(currentPomodoroSession.currentStatus)]
      ensures currentPomodoroSession.endTime == old(currentPomodoroSession.endTime)
      ensures regularTimerStartTime == old(regularTimerStartTime)
      ensures regularTimerElapsedTime == old(regularTimerElapsedTime)
    {
      timeRemainingMillis := 0;
      outbox := outbox + [TimerFinished];
      var session := currentPomodoroSession;
      var next := NextPhase(session.CurrentPhase(), session.longBreakInterval);
      session.completedPomodoros := next.completed;
      session.currentStatus := next.status;
      StartPomodoroTimer(session);
    }

    /** Freezes the active timer: a countdown is cancelled, a count-up record is marked paused at `now`. */
    method PauseTimer(now: int)
      requires Valid()
      modifies this, currentPomodoroSession, currentTimerRecord
      ensures Valid() && !isTimerRunning
      ensures currentPomodoroSession == old(currentPomodoroSession) && currentTimerRecord == old(currentTimerRecord)
      ensures currentPomodoroSession != null ==>
                && countdown.None? && currentPomodoroSession.currentStatus == Paused
                && currentPomodoroSession.completedPomodoros == old(currentPomodoroSession.completedPomodoros)
                && outbox == old(outbox) + [PomodoroStateChanged(Paused)]
                && updateJob == old(updateJob)
      ensures currentPomodoroSession == null && currentTimerRecord != null ==>
                && currentTimerRecord.isPaused && currentTimerRecord.pauseStartTime == Some(now)
                && currentTimerRecord.duration == old(currentTimerRecord.duration)
                && currentTimerRecord.totalPausedTime == old(currentTimerRecord.totalPausedTime)
                && updateJob == null && outbox == old(outbox) && countdown == old(countdown)
      ensures currentPomodoroSession == null && currentTimerRecord == null ==>
                outbox == old(outbox) && countdown == old(countdown) && updateJob == old(updateJob)
      ensures timeRemainingMillis == old(timeRemainingMillis)
      ensures regularTimerStartTime == old(regularTimerStartTime)
      ensures regularTimerElapsedTime == old(regularTimerElapsedTime)
    {
      if currentPomodoroSession != null {
        countdown := None;
        currentPomodoroSession.currentStatus := Paused;
        outbox := outbox + [PomodoroStateChanged(Paused)];
      } else if currentTimerRecord != null {
        currentTimerRecord.isPaused := true;
        currentTimerRecord.pauseStartTime := Some(now);
        updateJob := null;
      }
      isTimerRunning := false;
    }

    /**
     * Restarts a paused timer. A paused session resumes as a work phase with the remaining
     * time; a paused record books the pause into its total and restarts the update job with
     * the anchor `resumeTimer` sets (`ResumeAnchor`), so the shown time continues from the duration at the pause.
     */
    method ResumeTimer(now: int)
      requires Valid()
      modifies this, currentPomodoroSession, currentTimerRecord
      ensures Valid() && isTimerRunning
      ensures currentPomodoroSession == old(currentPomodoroSession) && currentTimerRecord == old(currentTimerRecord)
      ensures currentPomodoroSession != null ==> timeRemainingMillis == old(timeRemainingMillis)
      ensures currentPomodoroSession != null && old(currentPomodoroSession.currentStatus) == Paused ==>
                && currentPomodoroSession.currentStatus == Working
                && currentPomodoroSession.completedPomodoros == old(currentPomodoroSession.completedPomodoros)
                && countdown == Some(timeRemainingMillis)
                && outbox == old(outbox) + [PomodoroStateChanged(Working)]
      ensures currentPomodoroSession == null && currentTimerRecord != null && old(currentTimerRecord.isPaused) ==>
                && !currentTimerRecord.isPaused && currentTimerRecord.pauseStartTime.None?
                && currentTimerRecord.totalPausedTime
                   == old(currentTimerRecord.totalPausedTime)
                      + (now - match old(currentTimerRecord.pauseStartTime) case Some(t) => t case None => now)
                && currentTimerRecord.duration == old(currentTimerRecord.duration)
                && updateJob == currentTimerRecord
                && regularTimerStartTime == ResumeAnchor(currentTimerRecord.duration, now)
                && ElapsedAt(now) == old(currentTimerRecord.duration)
                && outbox == old(outbox) && timeRemainingMillis == 0
      ensures !(currentPomodoroSession != null && old(currentPomodoroSession.currentStatus) == Paused)
              && !(currentPomodoroSession == null && currentTimerRecord != null && old(currentTimerRecord.isPaused)) ==>
                outbox == old(outbox) && countdown == old(countdown) && updateJob == old(updateJob)
                && regularTimerStartTime == old(regularTimerStartTime)
                && timeRemainingMillis == old(timeRemainingMillis)
    {
      if currentPomodoroSession != null && currentPomodoroSession.currentStatus == Paused {
        currentPomodoroSession.currentStatus := Working;
        StartCountDownTimer(timeRemainingMillis);
        outbox := outbox + [PomodoroStateChanged(Working)];
      } else if currentTimerRecord != null && currentTimerRecord.isPaused {
        var record := currentTimerRecord;
        var pauseDuration := now - (match record.pauseStartTime case Some(t) => t case None => now);
        record.totalPausedTime := record.totalPausedTime + pauseDuration;
        var anchor := ResumeAnchor(record.duration, now);
        record.isPaused := false;
        record.pauseStartTime := None;
        StartRegularTimer(record, now);
        regularTimerStartTime := anchor;
      }
      isTimerRunning := true;
    }
  }
}
