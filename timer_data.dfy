/**
 * The timer's records: a Pomodoro session and a count-up timer record are objects whose fields
 * the service and the view model update in place, through shared references. The phase
 * rotation of a session (work, then a short or long break, then work again) is a pure step.
 */
module TimerData {
  import opened Text
  import opened Clock

  datatype PomodoroStatus = Idle | Working | ShortBreak | LongBreak | Paused

  class PomodoroSession {
    const id: string
    const startTime: int
    var endTime: Option<int>
    /** Phase lengths in minutes. */
    const workDuration: int
    const shortBreakDuration: int
    const longBreakDuration: int
    /** A long break follows every `longBreakInterval`-th completed work phase. */
    const longBreakInterval: int
    var completedPomodoros: nat
    var currentStatus: PomodoroStatus
    var associatedTaskId: Option<string>

    constructor (id: string, startTime: int, workDuration: int, shortBreakDuration: int,
                 longBreakDuration: int, longBreakInterval: int, currentStatus: PomodoroStatus)
      ensures this.id == id && this.startTime == startTime && endTime.None?
      ensures this.workDuration == workDuration && this.shortBreakDuration == shortBreakDuration
      ensures this.longBreakDuration == longBreakDuration && this.longBreakInterval == longBreakInterval
      ensures completedPomodoros == 0 && this.currentStatus == currentStatus && associatedTaskId.None?
    {
      this.id := id;
      this.startTime := startTime;
      endTime := None;
      this.workDuration := workDuration;
      this.shortBreakDuration := shortBreakDuration;
      this.longBreakDuration := longBreakDuration;
      this.longBreakInterval := longBreakInterval;
      completedPomodoros := 0;
      this.currentStatus := currentStatus;
      associatedTaskId := None;
    }

    /** Length of the countdown for the current phase; idle and paused sessions count a work phase. */
    function PhaseMillis(): (ms: int)
      reads this
      ensures currentStatus == ShortBreak ==> ms == shortBreakDuration * MINUTE
      ensures currentStatus == LongBreak ==> ms == longBreakDuration * MINUTE
      ensures currentStatus != ShortBreak && currentStatus != LongBreak ==> ms == workDuration * MINUTE
    {
      match currentStatus
      case Working => workDuration * MINUTE
      case ShortBreak => shortBreakDuration * MINUTE
      case LongBreak => longBreakDuration * MINUTE
      case _ => workDuration * MINUTE
    }

    function CurrentPhase(): Phase
      reads this
    {
      Phase(currentStatus, completedPomodoros)
    }
  }

  class TimerRecord {
    const id: string
    const title: string
    const description: Option<string>
    const startTime: int
    /** Unset while the record is still being timed. */
    var endTime: Option<int>
    /** Elapsed milliseconds as last reported. */
    var duration: int
    var isPaused: bool
    var pauseStartTime: Option<int>
    var totalPausedTime: int
    var associatedTaskId: Option<string>

    constructor (id: string, title: string, description: Option<string>, startTime: int)
      ensures this.id == id && this.title == title && this.description == description
      ensures this.startTime == startTime && endTime.None? && duration == 0
      ensures !isPaused && pauseStartTime.None? && totalPausedTime == 0 && associatedTaskId.None?
    {
      this.id := id;
      this.title := title;
      this.description := description;
      this.startTime := startTime;
      endTime := None;
      duration := 0;
      isPaused := false;
      pauseStartTime := None;
      totalPausedTime := 0;
      associatedTaskId := None;
    }
  }

  /** A session's position in the rotation. */
  datatype Phase = Phase(status: PomodoroStatus, completed: nat)

  /**
   * What ending (or skipping) the current phase leads to: a finished work phase counts one
   * more pomodoro and leads to a break, long when the count reaches a multiple of the
   * interval; any other phase leads back to work.
   */
  function NextPhase(p: Phase, longBreakInterval: int): (q: Phase)
    requires longBreakInterval > 0
    ensures q.status == Working <==> p.status != Working
    ensures q.completed == if p.status == Working then p.completed + 1 else p.completed
    ensures p.status == Working ==> (q.status == LongBreak <==> q.completed % longBreakInterval == 0)
    ensures q.status != Idle && q.status != Paused
  {
    if p.status == Working then
      var c := p.completed + 1;
      Phase(if c % longBreakInterval == 0 then LongBreak else ShortBreak, c)
    else
      Phase(Working, p.completed)
  }

  /** The phase after `n` phase ends. */
  function Advance(p: Phase, n: nat, longBreakInterval: int): Phase
    requires longBreakInterval > 0
  {
    if n == 0 then p else NextPhase(Advance(p, n - 1, longBreakInterval), longBreakInterval)
  }

  /** Each work phase and the break after it form one cycle that adds one pomodoro and returns to work. */
  lemma {:induction false} FullCycles(completed: nat, k: nat, longBreakInterval: int)
    requires longBreakInterval > 0
    ensures Advance(Phase(Working, completed), 2 * k, longBreakInterval) == Phase(Working, completed + k)
  {
    if k > 0 {
      FullCycles(completed, k - 1, longBreakInterval);
      assert 2 * k - 1 == 2 * (k - 1) + 1;
    }
  }

  /**
   * From a fresh session in work, the break after the n-th pomodoro is long exactly when n is
   * a multiple of the interval.
   */
  lemma BreakAfterNthPomodoro(n: nat, longBreakInterval: int)
    requires n >= 1 && longBreakInterval > 0
    ensures Advance(Phase(Working, 0), 2 * n - 1, longBreakInterval)
         == Phase(if n % longBreakInterval == 0 then LongBreak else ShortBreak, n)
  {
    FullCycles(0, n - 1, longBreakInterval);
    assert 2 * n - 1 - 1 == 2 * (n - 1);
  }
}
