/**
 * The timer screen's state holder. It owns the mode (Pomodoro or count-up), the screen state,
 * the values last received from the service's broadcasts, and the session or record being
 * timed, which it shares with the service by reference. Database writes are not modelled; the
 * in-place changes to the shared session and record that precede them are.
 */
module TimerViewModel {
  import opened Text
  import opened Clock
  import D = TimerData
  import S = TimerService

  datatype TimerMode = Pomodoro | Regular

  datatype TimerState = Idle | Running | Paused | Finished

  const DEFAULT_WORK_DURATION: int := 25
  const DEFAULT_SHORT_BREAK_DURATION: int := 5
  const DEFAULT_LONG_BREAK_DURATION: int := 15
  const DEFAULT_LONG_BREAK_INTERVAL: int := 4
  const RECORD_TITLE: string := "计时记录"
  const RECORD_DESCRIPTION: string := "正计时记录"

  /** The part of the screen state the broadcast receiver writes. */
  datatype Shown = Shown(timerState: TimerState, timeRemaining: int, elapsedTime: int,
                         pomodoroStatus: D.PomodoroStatus)

  /** The receiver's reaction to one broadcast. */
  function Receive(v: Shown, b: S.Broadcast): (w: Shown)
    ensures b.PomodoroTick? ==> w == v.(timeRemaining := b.timeRemaining)
    ensures b.RegularTick? ==> w == v.(elapsedTime := b.elapsedTime)
    ensures b.TimerFinished? ==> w == v.(timerState := Finished)
    ensures b.PomodoroStateChanged? ==>
              (&& w.pomodoroStatus == b.status
               && w.timeRemaining == v.timeRemaining && w.elapsedTime == v.elapsedTime
               && w.timerState == (if b.status == D.Working then Running
                                   else if b.status == D.Paused then Paused
                                   else v.timerState))
  {
    match b
    case PomodoroTick(ms) => v.(timeRemaining := ms)
    case RegularTick(ms) => v.(elapsedTime := ms)
    case TimerFinished => v.(timerState := Finished)
    case PomodoroStateChanged(status) =>
      var state := if status == D.Working then Running else if status == D.Paused then Paused else v.timerState;
      v.(pomodoroStatus := status, timerState := state)
  }

  /**
   * When a countdown ends, the service sends "finished" and then the next phase's status. After
   * a work phase the next phase is a break, which leaves the screen in the finished state while
   * the service already counts the break down; after a break, work resumes and the screen shows
   * the timer running again.
   */
  lemma PhaseEndAsReceived(v: Shown, next: D.PomodoroStatus)
    requires next != D.Idle && next != D.Paused
    ensures var w := Receive(Receive(v, S.TimerFinished), S.PomodoroStateChanged(next));
            w.pomodoroStatus == next && w.timeRemaining == v.timeRemaining
            && w.timerState == if next == D.Working then Running else Finished
  {
  }

  /** Whole hours, minutes within the hour and seconds within the minute add up to the whole seconds. */
  lemma ClockParts(millis: nat)
    ensures millis / MINUTE == millis / SECOND / 60
    ensures millis / HOUR == millis / SECOND / 3600
    ensures millis / HOUR * 3600 + millis / MINUTE % 60 * 60 + millis / SECOND % 60 == millis / SECOND
    ensures millis < HOUR ==> millis / MINUTE < 60
  {
    var s := millis / SECOND;
    var r := millis % SECOND;
    assert millis == 60000 * (s / 60) + (1000 * (s % 60) + r);
    assert millis == 3600000 * (s / 3600) + (1000 * (s % 3600) + r);
    assert s / 60 == 60 * (s / 3600) + s % 3600 / 60;
  }

  /** `"%02d:%02d"` of a minute and a second count that are both under 60. */
  function MinutesSeconds(minutes: nat, seconds: nat): (r: string)
    requires minutes < 60 && seconds < 60
    ensures |r| == 5 && r[2] == ':' && AllDigits(r[..2]) && AllDigits(r[3..])
    ensures DigitsValue(r[..2]) == minutes && DigitsValue(r[3..]) == seconds
  {
    var r := Pad2(minutes) + ":" + Pad2(seconds);
    assert r[..2] == Pad2(minutes) && r[3..] == Pad2(seconds);
    r
  }

  /**
   * `"%02d:%02d:%02d"` of hours, minutes and seconds when there is at least an hour, else
   * `"%02d:%02d"` of minutes and seconds.
   */
  function FormatTime(millis: nat): string {
    var ms := MinutesSeconds(millis / MINUTE % 60, millis / SECOND % 60);
    if millis / HOUR > 0 then Pad2(millis / HOUR) + ":" + ms else ms
  }

  /** The three fields of `hh + ":" + ms`, when `hh` has at least two digits and `ms` is `mm:ss`. */
  lemma HourFieldSlices(hh: string, ms: string)
    requires |hh| >= 2 && AllDigits(hh)
    requires |ms| == 5 && ms[2] == ':' && AllDigits(ms[..2]) && AllDigits(ms[3..])
    ensures (var r := hh + ":" + ms;
             && |r| >= 8 && r[|r| - 6] == ':' && r[|r| - 3] == ':'
             && AllDigits(r[..|r| - 6]) && DigitsValue(r[..|r| - 6]) == DigitsValue(hh)
             && AllDigits(r[|r| - 5..|r| - 3]) && DigitsValue(r[|r| - 5..|r| - 3]) == DigitsValue(ms[..2])
             && AllDigits(r[|r| - 2..]) && DigitsValue(r[|r| - 2..]) == DigitsValue(ms[3..]))
  {
    var r := hh + ":" + ms;
    assert r[..|r| - 6] == hh && r[|r| - 5..|r| - 3] == ms[..2] && r[|r| - 2..] == ms[3..];
  }

  /** Under an hour the text is `mm:ss`, reading back as the whole seconds of `millis`. */
  lemma FormatTimeUnderHour(millis: nat)
    requires millis < HOUR
    ensures (var r := FormatTime(millis);
             && |r| == 5 && r[2] == ':' && AllDigits(r[..2]) && AllDigits(r[3..])
             && DigitsValue(r[3..]) < 60 && DigitsValue(r[..2]) * 60 + DigitsValue(r[3..]) == millis / SECOND)
  {
    ClockParts(millis);
    assert millis / HOUR == 0;
  }

  /** `hh:mm:ss` of an hour, minute and second count reads back as the count they make up. */
  lemma HourText(h: nat, m: nat, sec: nat)
    requires m < 60 && sec < 60
    ensures (var r := Pad2(h) + ":" + MinutesSeconds(m, sec);
             && |r| >= 8 && r[|r| - 6] == ':' && r[|r| - 3] == ':'
             && AllDigits(r[..|r| - 6]) && AllDigits(r[|r| - 5..|r| - 3]) && AllDigits(r[|r| - 2..])
             && DigitsValue(r[..|r| - 6]) == h && DigitsValue(r[|r| - 5..|r| - 3]) == m
             && DigitsValue(r[|r| - 2..]) == sec)
  {
    HourFieldSlices(Pad2(h), MinutesSeconds(m, sec));
  }

  /**
   * From an hour on the text is `hh:mm:ss` with at least two hour digits, minutes and seconds
   * under 60, reading back as the whole seconds of `millis`.
   */
  lemma FormatTimeFromHour(millis: nat)
    requires millis >= HOUR
    ensures (var r := FormatTime(millis);
             && |r| >= 8 && r[|r| - 6] == ':' && r[|r| - 3] == ':'
             && AllDigits(r[..|r| - 6]) && AllDigits(r[|r| - 5..|r| - 3]) && AllDigits(r[|r| - 2..])
             && DigitsValue(r[|r| - 5..|r| - 3]) < 60 && DigitsValue(r[|r| - 2..]) < 60
             && DigitsValue(r[..|r| - 6]) * 3600 + DigitsValue(r[|r| - 5..|r| - 3]) * 60
                + DigitsValue(r[|r| - 2..]) == millis / SECOND)
  {
    var h, m, sec := millis / HOUR, millis / MINUTE % 60, millis / SECOND % 60;
    ClockParts(millis);
    assert h > 0 by {
      assert millis / HOUR >= HOUR / HOUR;
    }
    assert FormatTime(millis) == Pad2(h) + ":" + MinutesSeconds(m, sec);
    HourText(h, m, sec);
  }

  /** Under an hour the screen and the service's notification render a time identically. */
  lemma FormatTimeAgreesWithNotification(millis: nat)
    requires millis < HOUR
    ensures FormatTime(millis) == S.FormatMinutesSeconds(millis)
  {
    assert millis / MINUTE % 60 == millis / MINUTE;
  }

  class TimerViewModel {
    const service: S.TimerService
    /** Whether the service connection is up (`timerService != null && bound`). */
    var bound: bool
    var timerMode: TimerMode
    var timerState: TimerState
    var timeRemaining: int
    var elapsedTime: int
    var pomodoroStatus: D.PomodoroStatus
    var completedPomodoros: int
    var currentPomodoroSession: D.PomodoroSession?
    var currentTimerRecord: D.TimerRecord?

    ghost predicate Valid()
      reads this, service
    {
      && service.Valid()
      && (currentPomodoroSession != null ==> currentPomodoroSession.longBreakInterval > 0)
    }

    function ShownState(): Shown
      reads this
    {
      Shown(timerState, timeRemaining, elapsedTime, pomodoroStatus)
    }

    constructor (service: S.TimerService)
      requires service.Valid()
      ensures Valid() && this.service == service && !bound
      ensures timerMode == Pomodoro && timerState == Idle && timeRemaining == 0 && elapsedTime == 0
      ensures pomodoroStatus == D.Idle && completedPomodoros == 0
      ensures currentPomodoroSession == null && currentTimerRecord == null
    {
      this.service := service;
      bound := false;
      timerMode := Pomodoro;
      timerState := Idle;
      timeRemaining := 0;
      elapsedTime := 0;
      pomodoroStatus := D.Idle;
      completedPomodoros := 0;
      currentPomodoroSession := null;
      currentTimerRecord := null;
    }

    /**
     * What restoring from the latest stored session (Pomodoro mode) or record (count-up mode)
     * leaves behind. One without an end time is adopted: a session shows its status and count
     * and, unless idle, is counted down again; a record is timed again, or shown paused if it
     * was paused. Anything else leaves the screen, the held objects and the service as they were.
     */
    twostate predicate Restored(latestSession: D.PomodoroSession?, latestRecord: D.TimerRecord?, now: int)
      reads this, service, latestSession, latestRecord
    {
      && timerMode == old(timerMode)
      && timeRemaining == old(timeRemaining) && elapsedTime == old(elapsedTime)
      && (timerMode == Pomodoro && latestSession != null && latestSession.endTime.None? ==>
            && currentPomodoroSession == latestSession && currentTimerRecord == old(currentTimerRecord)
            && pomodoroStatus == latestSession.currentStatus
            && completedPomodoros == latestSession.completedPomodoros
            && (latestSession.currentStatus != D.Idle ==>
                  && timerState == Running
                  && service.currentPomodoroSession == latestSession && service.currentTimerRecord == null
                  && service.timeRemainingMillis == latestSession.PhaseMillis()
                  && service.countdown == Some(service.timeRemainingMillis) && service.isTimerRunning
                  && service.outbox == old(service.outbox) + [S.PomodoroStateChanged(latestSession.currentStatus)])
            && (latestSession.currentStatus == D.Idle ==> timerState == old(timerState) && unchanged(service)))
      && (timerMode == Regular && latestRecord != null && latestRecord.endTime.None? ==>
            && currentTimerRecord == latestRecord && currentPomodoroSession == old(currentPomodoroSession)
            && pomodoroStatus == old(pomodoroStatus) && completedPomodoros == old(completedPomodoros)
            && (!latestRecord.isPaused ==>
                  && timerState == Running
                  && service.currentTimerRecord == latestRecord && service.updateJob == latestRecord
                  && service.currentPomodoroSession == null
                  && service.regularTimerStartTime == now - latestRecord.totalPausedTime
                  && service.isTimerRunning && service.countdown.None? && service.outbox == old(service.outbox))
            && (latestRecord.isPaused ==> timerState == Paused && unchanged(service)))
      && (!(timerMode == Pomodoro && latestSession != null && latestSession.endTime.None?)
          && !(timerMode == Regular && latestRecord != null && latestRecord.endTime.None?) ==>
            && ShownState() == old(ShownState()) && completedPomodoros == old(completedPomodoros)
            && currentPomodoroSession == old(currentPomodoroSession) && currentTimerRecord == old(currentTimerRecord)
            && unchanged(service))
    }

    /** Binding marks the service bound and restores from what the database holds. */
    method OnServiceConnected(latestSession: D.PomodoroSession?, latestRecord: D.TimerRecord?, now: int)
      requires Valid()
      requires latestSession != null ==> latestSession.longBreakInterval > 0
      modifies this, service
      ensures Valid() && bound
      ensures Restored(latestSession, latestRecord, now)
    {
      bound := true;
      RestoreTimerState(latestSession, latestRecord, now);
    }

    /**
     * `restoreTimerState`, given the latest stored session and record (`null` when there is
     * none) instead of reading them from the database.
     */
    method RestoreTimerState(latestSession: D.PomodoroSession?, latestRecord: D.TimerRecord?, now: int)
      requires Valid()
      requires latestSession != null ==> latestSession.longBreakInterval > 0
      modifies this, service
      ensures Valid() && bound == old(bound)
      ensures Restored(latestSession, latestRecord, now)
    {
      if timerMode == Pomodoro {
        if latestSession != null && latestSession.endTime.None? {
          currentPomodoroSession := latestSession;
          pomodoroStatus := latestSession.currentStatus;
          completedPomodoros := latestSession.completedPomodoros;
          if latestSession.currentStatus != D.Idle {
            service.StartPomodoroTimer(latestSession);
            timerState := Running;
          }
        }
      } else {
        if latestRecord != null && latestRecord.endTime.None? {
          currentTimerRecord := latestRecord;
          if !latestRecord.isPaused {
            service.StartRegularTimer(latestRecord, now);
            timerState := Running;
          } else {
            timerState := Paused;
          }
        }
      }
    }

    method OnServiceDisconnected()
      modifies this
      ensures !bound && ShownState() == old(ShownState()) && timerMode == old(timerMode)
      ensures currentPomodoroSession == old(currentPomodoroSession) && currentTimerRecord == old(currentTimerRecord)
      ensures completedPomodoros == old(completedPomodoros)
    {
      bound := false;
    }

    /** The broadcast receiver. */
    method OnReceive(b: S.Broadcast)
      modifies this
      ensures ShownState() == Receive(old(ShownState()), b)
      ensures bound == old(bound) && timerMode == old(timerMode) && completedPomodoros == old(completedPomodoros)
      ensures currentPomodoroSession == old(currentPomodoroSession) && currentTimerRecord == old(currentTimerRecord)
    {
      match b {
        case PomodoroTick(ms) => timeRemaining := ms;
        case RegularTick(ms) => elapsedTime := ms;
        case TimerFinished => timerState := Finished;
        case PomodoroStateChanged(status) =>
          pomodoroStatus := status;
          if status == D.Working {
            timerState := Running;
          } else if status == D.Paused {
            timerState := Paused;
          }
      }
    }

    /** Clears the shown values and forgets the session and the record; the service is not touched. */
    method ResetTimer()
      modifies this
      ensures timeRemaining == 0 && elapsedTime == 0 && pomodoroStatus == D.Idle && completedPomodoros == 0
      ensures currentPomodoroSession == null && currentTimerRecord == null
      ensures bound == old(bound) && timerMode == old(timerMode) && timerState == old(timerState)
    {
      timeRemaining := 0;
      elapsedTime := 0;
      pomodoroStatus := D.Idle;
      completedPomodoros := 0;
      currentPomodoroSession := null;
      currentTimerRecord := null;
    }

    /** Switching to the other mode resets the screen; choosing the current mode changes nothing. */
    method SetTimerMode(mode: TimerMode)
      modifies this
      ensures timerMode == mode && bound == old(bound) && timerState == old(timerState)
      ensures mode == old(timerMode) ==>
                ShownState() == old(ShownState()) && completedPomodoros == old(completedPomodoros)
                && currentPomodoroSession == old(currentPomodoroSession) && currentTimerRecord == old(currentTimerRecord)
      ensures mode != old(timerMode) ==>
                timeRemaining == 0 && elapsedTime == 0 && pomodoroStatus == D.Idle && completedPomodoros == 0
                && currentPomodoroSession == null && currentTimerRecord == null
    {
      if timerMode != mode {
        timerMode := mode;
        ResetTimer();
      }
    }

    /**
     * Starts a Pomodoro countdown: a new session in work with the default lengths unless a
     * session is in progress (the screen neither idle nor finished), then hands it to the service.
     */
    method StartPomodoroTimer(now: int, newId: string)
      requires Valid()
      modifies this, service
      ensures Valid()
      ensures !old(bound) ==> ShownState() == old(ShownState()) && currentPomodoroSession == old(currentPomodoroSession)
                              && unchanged(service)
      ensures old(bound) ==>
                && currentPomodoroSession != null
                && (old(currentPomodoroSession) == null || old(timerState) == Idle || old(timerState) == Finished ==>
                      && fresh(currentPomodoroSession) && currentPomodoroSession.id == newId
                      && currentPomodoroSession.startTime == now
                      && currentPomodoroSession.currentStatus == D.Working
                      && currentPomodoroSession.completedPomodoros == 0
                      && currentPomodoroSession.workDuration == DEFAULT_WORK_DURATION
                      && currentPomodoroSession.shortBreakDuration == DEFAULT_SHORT_BREAK_DURATION
                      && currentPomodoroSession.longBreakDuration == DEFAULT_LONG_BREAK_DURATION
                      && currentPomodoroSession.longBreakInterval == DEFAULT_LONG_BREAK_INTERVAL)
                && (old(currentPomodoroSession) != null && old(timerState) != Idle && old(timerState) != Finished ==>
                      currentPomodoroSession == old(currentPomodoroSession))
                && service.currentPomodoroSession == currentPomodoroSession
                && service.currentTimerRecord == null && service.updateJob == null
                && service.timeRemainingMillis == currentPomodoroSession.PhaseMillis()
                && service.countdown == Some(service.timeRemainingMillis) && service.isTimerRunning
                && service.outbox == old(service.outbox) + [S.PomodoroStateChanged(currentPomodoroSession.currentStatus)]
                && timerState == Running
                && pomodoroStatus == currentPomodoroSession.currentStatus
                && completedPomodoros == currentPomodoroSession.completedPomodoros
      ensures bound == old(bound) && timerMode == old(timerMode) && currentTimerRecord == old(currentTimerRecord)
    {
      if !bound {
        return;
      }
      if currentPomodoroSession == null || timerState == Idle || timerState == Finished {
        currentPomodoroSession := new D.PomodoroSession(newId, now, DEFAULT_WORK_DURATION, DEFAULT_SHORT_BREAK_DURATION,
                                                        DEFAULT_LONG_BREAK_DURATION, DEFAULT_LONG_BREAK_INTERVAL, D.Working);
      }
      var session := currentPomodoroSession;
      service.StartPomodoroTimer(session);
      timerState := Running;
      pomodoroStatus := session.currentStatus;
      completedPomodoros := session.completedPomodoros;
    }

    /** Starts the count-up timer on a new record unless one is in progress. */
    method StartRegularTimer(now: int, newId: string)
      requires Valid()
      modifies this, service
      ensures Valid()
      ensures !old(bound) ==> timerState == old(timerState) && currentTimerRecord == old(currentTimerRecord)
                              && unchanged(service)
      ensures old(bound) ==>
                && currentTimerRecord != null
                && (old(currentTimerRecord) == null || old(timerState) == Idle || old(timerState) == Finished ==>
                      && fresh(currentTimerRecord) && currentTimerRecord.id == newId
                      && currentTimerRecord.title == RECORD_TITLE
                      && currentTimerRecord.description == Some(RECORD_DESCRIPTION)
                      && currentTimerRecord.startTime == now && currentTimerRecord.totalPausedTime == 0)
                && (old(currentTimerRecord) != null && old(timerState) != Idle && old(timerState) != Finished ==>
                      currentTimerRecord == old(currentTimerRecord))
                && service.currentTimerRecord == currentTimerRecord && service.updateJob == currentTimerRecord
                && service.currentPomodoroSession == null
                && service.regularTimerStartTime == now - currentTimerRecord.totalPausedTime
                && service.isTimerRunning && service.countdown.None? && service.outbox == old(service.outbox)
                && timerState == Running
      ensures bound == old(bound) && timerMode == old(timerMode)
      ensures currentPomodoroSession == old(currentPomodoroSession) && pomodoroStatus == old(pomodoroStatus)
      ensures timeRemaining == old(timeRemaining) && elapsedTime == old(elapsedTime)
    {
      if !bound {
        return;
      }
      if currentTimerRecord == null || timerState == Idle || timerState == Finished {
        currentTimerRecord := new D.TimerRecord(newId, RECORD_TITLE, Some(RECORD_DESCRIPTION), now);
      }
      service.StartRegularTimer(currentTimerRecord, now);
      timerState := Running;
    }

    /** `startTimer`: dispatches on the mode. */
    method StartTimer(now: int, newId: string)
      requires Valid()
      modifies this, service
      ensures Valid()
      ensures old(bound) ==> timerState == Running && service.isTimerRunning
      ensures old(bound) && timerMode == Pomodoro ==>
                && service.currentPomodoroSession == currentPomodoroSession != null
                && service.currentTimerRecord == null
                && service.timeRemainingMillis == currentPomodoroSession.PhaseMillis()
                && service.countdown == Some(service.timeRemainingMillis)
                && service.outbox == old(service.outbox) + [S.PomodoroStateChanged(currentPomodoroSession.currentStatus)]
                && pomodoroStatus == currentPomodoroSession.currentStatus
                && completedPomodoros == currentPomodoroSession.completedPomodoros
      ensures old(bound) && timerMode == Regular ==>
                && service.currentTimerRecord == currentTimerRecord != null
                && service.currentPomodoroSession == null && service.updateJob == currentTimerRecord
                && service.regularTimerStartTime == now - currentTimerRecord.totalPausedTime
                && service.countdown.None? && service.outbox == old(service.outbox)
      ensures !old(bound) ==> timerState == old(timerState) && unchanged(service)
      ensures bound == old(bound) && timerMode == old(timerMode)
    {
      if timerMode == Pomodoro {
        StartPomodoroTimer(now, newId);
      } else {
        StartRegularTimer(now, newId);
      }
    }

    /**
     * The record bookkeeping done after a pause or a resume: a paused screen marks the record
     * paused at `now`; otherwise a pending pause is booked into the total. Either way the
     * record's duration becomes the elapsed time last shown.
     */
    method UpdateTimerRecord(now: int)
      modifies currentTimerRecord
      ensures currentTimerRecord != null ==>
                && currentTimerRecord.duration == elapsedTime
                && (timerState == Paused ==>
                      currentTimerRecord.isPaused && currentTimerRecord.pauseStartTime == Some(now)
                      && currentTimerRecord.totalPausedTime == old(currentTimerRecord.totalPausedTime))
                && (timerState != Paused ==>
                      !currentTimerRecord.isPaused && currentTimerRecord.pauseStartTime.None?
                      && currentTimerRecord.totalPausedTime
                         == old(currentTimerRecord.totalPausedTime)
                            + match old(currentTimerRecord.pauseStartTime) case Some(p) => now - p case None => 0)
    {
      var record := currentTimerRecord;
      if record != null {
        if timerState == Paused {
          record.isPaused := true;
          record.pauseStartTime := Some(now);
        } else {
          record.isPaused := false;
          match record.pauseStartTime {
            case Some(pauseTime) => record.totalPausedTime := record.totalPausedTime + (now - pauseTime);
            case None =>
          }
          record.pauseStartTime := None;
        }
        record.duration := elapsedTime;
      }
    }

    /** Closes the session and the record at `now`; the record keeps the elapsed time last shown. */
    method FinishTimerRecord(now: int)
      modifies currentPomodoroSession, currentTimerRecord
      ensures currentPomodoroSession != null ==> currentPomodoroSession.endTime == Some(now)
      ensures currentTimerRecord != null ==>
                currentTimerRecord.endTime == Some(now) && currentTimerRecord.duration == elapsedTime
    {
      if currentPomodoroSession != null {
        currentPomodoroSession.endTime := Some(now);
      }
      if currentTimerRecord != null {
        currentTimerRecord.endTime := Some(now);
        currentTimerRecord.duration := elapsedTime;
      }
    }

    /**
     * Pauses the service, then records the pause. A session is PAUSED with its remaining time
     * kept; a count-up record is marked paused at `now` with its pause total unchanged.
     */
    method PauseTimer(now: int)
      requires Valid()
      modifies this, service, service.currentPomodoroSession, service.currentTimerRecord, currentTimerRecord
      ensures Valid()
      ensures old(bound) ==> timerState == Paused && !service.isTimerRunning
      ensures old(bound) ==>
                && service.currentPomodoroSession == old(service.currentPomodoroSession)
                && service.currentTimerRecord == old(service.currentTimerRecord)
                && service.timeRemainingMillis == old(service.timeRemainingMillis)
      ensures old(bound) && service.currentPomodoroSession != null ==>
                && service.currentPomodoroSession.currentStatus == D.Paused
                && service.currentPomodoroSession.completedPomodoros
                   == old(service.currentPomodoroSession.completedPomodoros)
                && service.countdown.None?
                && service.outbox == old(service.outbox) + [S.PomodoroStateChanged(D.Paused)]
      ensures old(bound) && service.currentPomodoroSession == null && service.currentTimerRecord != null ==>
                && service.currentTimerRecord.isPaused && service.currentTimerRecord.pauseStartTime == Some(now)
                && service.currentTimerRecord.totalPausedTime == old(service.currentTimerRecord.totalPausedTime)
                && service.updateJob == null && service.outbox == old(service.outbox)
      ensures old(bound) && currentTimerRecord != null ==>
                currentTimerRecord.isPaused && currentTimerRecord.pauseStartTime == Some(now)
                && currentTimerRecord.duration == elapsedTime
      ensures !old(bound) ==> timerState == old(timerState) && service.outbox == old(service.outbox)
      ensures bound == old(bound) && timerMode == old(timerMode) && elapsedTime == old(elapsedTime)
      ensures currentPomodoroSession == old(currentPomodoroSession) && currentTimerRecord == old(currentTimerRecord)
    {
      if !bound {
        return;
      }
      service.PauseTimer(now);
      timerState := Paused;
      UpdateTimerRecord(now);
    }

    /**
     * Resumes the service, then records the resumption. A paused session returns to WORKING and
     * counts down its remaining time again; a paused count-up record books the pause into its
     * total and the service's anchor continues from the duration held at the pause.
     */
    method ResumeTimer(now: int)
      requires Valid()
      modifies this, service, service.currentPomodoroSession, service.currentTimerRecord, currentTimerRecord
      ensures Valid()
      ensures old(bound) ==> timerState == Running && service.isTimerRunning
      ensures old(bound) ==>
                && service.currentPomodoroSession == old(service.currentPomodoroSession)
                && service.currentTimerRecord == old(service.currentTimerRecord)
      ensures old(bound) && service.currentPomodoroSession != null ==>
                service.timeRemainingMillis == old(service.timeRemainingMillis)
      ensures old(bound) && service.currentPomodoroSession != null
              && old(service.currentPomodoroSession.currentStatus) == D.Paused ==>
                && service.currentPomodoroSession.currentStatus == D.Working
                && service.currentPomodoroSession.completedPomodoros
                   == old(service.currentPomodoroSession.completedPomodoros)
                && service.countdown == Some(service.timeRemainingMillis)
                && service.outbox == old(service.outbox) + [S.PomodoroStateChanged(D.Working)]
      ensures old(bound) && service.currentPomodoroSession == null && service.currentTimerRecord != null
              && old(service.currentTimerRecord.isPaused) ==>
                && !service.currentTimerRecord.isPaused && service.currentTimerRecord.pauseStartTime.None?
                && service.currentTimerRecord.totalPausedTime
                   == old(service.currentTimerRecord.totalPausedTime)
                      + (now - match old(service.currentTimerRecord.pauseStartTime) case Some(t) => t case None => now)
                && service.updateJob == service.currentTimerRecord
                && service.regularTimerStartTime == S.ResumeAnchor(old(service.currentTimerRecord.duration), now)
                && service.outbox == old(service.outbox)
      ensures old(bound) && currentTimerRecord != null ==>
                !currentTimerRecord.isPaused && currentTimerRecord.pauseStartTime.None?
                && currentTimerRecord.duration == elapsedTime
      ensures !old(bound) ==> timerState == old(timerState) && service.outbox == old(service.outbox)
      ensures bound == old(bound) && timerMode == old(timerMode) && elapsedTime == old(elapsedTime)
      ensures currentPomodoroSession == old(currentPomodoroSession) && currentTimerRecord == old(currentTimerRecord)
    {
      if !bound {
        return;
      }
      service.ResumeTimer(now);
      timerState := Running;
      UpdateTimerRecord(now);
    }

    /** Stops the service, closes the session or record at `now`, and resets the screen. */
    method StopTimer(now: int)
      requires Valid()
      modifies this, service, currentPomodoroSession, currentTimerRecord
      ensures Valid()
      ensures old(bound) ==>
                && timerState == Idle && !service.isTimerRunning
                && service.currentPomodoroSession == null && service.currentTimerRecord == null
                && (old(currentPomodoroSession) != null ==> old(currentPomodoroSession).endTime == Some(now))
                && (old(currentTimerRecord) != null ==>
                      old(currentTimerRecord).endTime == Some(now) && old(currentTimerRecord).duration == old(elapsedTime))
                && timeRemaining == 0 && elapsedTime == 0 && pomodoroStatus == D.Idle && completedPomodoros == 0
                && currentPomodoroSession == null && currentTimerRecord == null
      ensures !old(bound) ==> ShownState() == old(ShownState()) && currentPomodoroSession == old(currentPomodoroSession)
                              && currentTimerRecord == old(currentTimerRecord)
      ensures bound == old(bound) && timerMode == old(timerMode)
    {
      if !bound {
        return;
      }
      service.StopTimer();
      timerState := Idle;
      FinishTimerRecord(now);
      ResetTimer();
    }

    /** Ends the current Pomodoro phase early and counts the next one down (Pomodoro mode only). */
    method SkipCurrentPhase()
      requires Valid()
      modifies this, service, currentPomodoroSession
      ensures Valid()
      ensures old(bound) && timerMode == Pomodoro && old(currentPomodoroSession) != null ==>
                && currentPomodoroSession != null
                && currentPomodoroSession.CurrentPhase()
                   == D.NextPhase(old(currentPomodoroSession.CurrentPhase()), currentPomodoroSession.longBreakInterval)
                && service.currentPomodoroSession == currentPomodoroSession && service.currentTimerRecord == null
                && service.timeRemainingMillis == currentPomodoroSession.PhaseMillis()
                && service.countdown == Some(service.timeRemainingMillis) && service.isTimerRunning
                && service.outbox == old(service.outbox) + [S.PomodoroStateChanged(currentPomodoroSession.currentStatus)]
                && pomodoroStatus == currentPomodoroSession.currentStatus
                && completedPomodoros == if old(currentPomodoroSession.currentStatus) == D.Working
                                         then currentPomodoroSession.completedPomodoros
                                         else old(completedPomodoros)
      ensures !(old(bound) && timerMode == Pomodoro && old(currentPomodoroSession) != null) ==>
                ShownState() == old(ShownState()) && service.outbox == old(service.outbox)
      ensures bound == old(bound) && timerMode == old(timerMode) && timerState == old(timerState)
      ensures currentPomodoroSession == old(currentPomodoroSession) && currentTimerRecord == old(currentTimerRecord)
    {
      if timerMode != Pomodoro || !bound {
        return;
      }
      var session := currentPomodoroSession;
      if session != null {
        var wasWorking := session.currentStatus == D.Working;
        var next := D.NextPhase(session.CurrentPhase(), session.longBreakInterval);
        session.completedPomodoros := next.completed;
        if wasWorking {
          completedPomodoros := session.completedPomodoros;
        }
        session.currentStatus := next.status;
        service.StartPomodoroTimer(session);
        pomodoroStatus := session.currentStatus;
      }
    }
  }
}
