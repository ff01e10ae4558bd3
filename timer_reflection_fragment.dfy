/**
 * The timer-and-reflection screen: which timer operation the start/pause button performs, which
 * controls are enabled and how they are labelled in each timer state, the Pomodoro status label,
 * the mode tabs, the collapsible reflection panel and the reflection dialog's save button.
 */
module TimerReflectionFragment {
  import opened Text
  import D = TimerData
  import S = TimerService
  import V = TimerViewModel
  import R = ReflectionViewModel

  const LABEL_START: string := "开始"
  const LABEL_PAUSE: string := "暂停"
  const LABEL_RESUME: string := "继续"
  const LABEL_REGULAR: string := "正计时"
  const PANEL_COLLAPSED: int := 100
  const PANEL_EXPANDED: int := 300

  /** What the start/pause button asks of the timer. */
  datatype Action = Start | Pause | Resume

  /** Running pauses, paused resumes, idle and finished start. */
  function StartPauseAction(state: V.TimerState): (a: Action)
    ensures a == Pause <==> state == V.Running
    ensures a == Resume <==> state == V.Paused
    ensures a == Start <==> state == V.Idle || state == V.Finished
  {
    match state
    case Idle => Start
    case Running => Pause
    case Paused => Resume
    case Finished => Start
  }

  function ActionLabel(a: Action): string {
    match a
    case Start => LABEL_START
    case Pause => LABEL_PAUSE
    case Resume => LABEL_RESUME
  }

  datatype Controls = Controls(startPauseText: string, resetEnabled: bool, skipEnabled: bool)

  /**
   * Reset is enabled exactly while a timer is running or paused, and skip additionally only in
   * Pomodoro mode.
   */
  function ControlsFor(state: V.TimerState, mode: V.TimerMode): (c: Controls)
    ensures c.resetEnabled <==> state == V.Running || state == V.Paused
    ensures c.skipEnabled <==> c.resetEnabled && mode == V.Pomodoro
    ensures c.startPauseText == LABEL_START <==> state == V.Idle || state == V.Finished
  {
    match state
    case Idle => Controls(LABEL_START, false, false)
    case Running => Controls(LABEL_PAUSE, true, mode == V.Pomodoro)
    case Paused => Controls(LABEL_RESUME, true, mode == V.Pomodoro)
    case Finished => Controls(LABEL_START, false, false)
  }

  /** The start/pause button is always labelled with the operation a click performs. */
  lemma ButtonLabelNamesAction(state: V.TimerState, mode: V.TimerMode)
    ensures ControlsFor(state, mode).startPauseText == ActionLabel(StartPauseAction(state))
  {
  }

  function StatusLabel(status: D.PomodoroStatus): string {
    match status
    case Idle => "准备开始"
    case Working => "工作中"
    case ShortBreak => "短休息"
    case LongBreak => "长休息"
    case Paused => "已暂停"
  }

  /** Different statuses are shown with different labels. */
  lemma StatusLabelInjective(a: D.PomodoroStatus, b: D.PomodoroStatus)
    requires StatusLabel(a) == StatusLabel(b)
    ensures a == b
  {
  }

  /**
   * The service's notification names the phase as the screen does exactly while a phase is
   * counted down; idle and paused sessions are announced under the generic title.
   */
  lemma NotificationAgreesWithScreen(status: D.PomodoroStatus)
    ensures S.NotificationStatus(status) == StatusLabel(status)
            <==> status == D.Working || status == D.ShortBreak || status == D.LongBreak
  {
  }

  /** The mode a selected tab asks for; any other position asks for no change. */
  function TabMode(position: int): (m: Option<V.TimerMode>)
    ensures m == Some(V.Pomodoro) <==> position == 0
    ensures m == Some(V.Regular) <==> position == 1
    ensures m.None? <==> position != 0 && position != 1
  {
    if position == 0 then Some(V.Pomodoro) else if position == 1 then Some(V.Regular) else None
  }

  /** The tab selected when the mode changes. */
  function ModeTab(mode: V.TimerMode): int {
    if mode == V.Pomodoro then 0 else 1
  }

  /** Selecting the tab shown for a mode asks for that mode again. */
  lemma TabRoundTrip(mode: V.TimerMode)
    ensures TabMode(ModeTab(mode)) == Some(mode)
  {
  }

  /** A collapsed (at most 100 high) panel expands to 300; any taller panel collapses to 100. */
  function ToggledHeight(height: int): (h: int)
    ensures h == PANEL_EXPANDED <==> height <= PANEL_COLLAPSED
    ensures h == PANEL_COLLAPSED <==> height > PANEL_COLLAPSED
  {
    if height <= PANEL_COLLAPSED then PANEL_EXPANDED else PANEL_COLLAPSED
  }

  /** After the first toggle the panel alternates between the two heights. */
  lemma ToggleAlternates(height: int)
    ensures ToggledHeight(ToggledHeight(height)) != ToggledHeight(height)
    ensures ToggledHeight(ToggledHeight(ToggledHeight(height))) == ToggledHeight(height)
  {
  }

  /** What the dialog's save button keeps of the typed text: the trimmed text unless it is blank. */
  function DialogContent(text: string): (r: Option<string>)
    ensures r.Some? <==> !IsBlank(text)
    ensures r.Some? ==> r.value == Trim(text) && !IsBlank(r.value) && IsTrimmed(r.value)
  {
    var content := Trim(text);
    if IsBlank(content) then None else Some(content)
  }

  class TimerReflectionFragment {
    const timerViewModel: V.TimerViewModel
    const reflectionViewModel: R.ReflectionViewModel
    /** The fragment's own service connection, separate from the view model's. */
    var bound: bool
    var serviceAttached: bool
    var startPauseText: string
    var resetEnabled: bool
    var skipEnabled: bool
    var skipVisible: bool
    var timerText: string
    var timerStatusText: string
    var panelHeight: int
    var dialogError: Option<string>

    /**
     * Reflections are only ever edited through this screen's dialog, which saves straight after
     * choosing what to edit, so between clicks nothing is being edited.
     */
    ghost predicate Valid()
      reads this, timerViewModel, timerViewModel.service, reflectionViewModel
    {
      && timerViewModel.Valid()
      && reflectionViewModel.currentReflection.None?
    }

    constructor (timerViewModel: V.TimerViewModel, reflectionViewModel: R.ReflectionViewModel, panelHeight: int)
      requires timerViewModel.Valid() && reflectionViewModel.currentReflection.None?
      ensures Valid() && this.timerViewModel == timerViewModel && this.reflectionViewModel == reflectionViewModel
      ensures !bound && !serviceAttached && this.panelHeight == panelHeight && dialogError.None?
    {
      this.timerViewModel := timerViewModel;
      this.reflectionViewModel := reflectionViewModel;
      bound := false;
      serviceAttached := false;
      startPauseText := LABEL_START;
      resetEnabled := false;
      skipEnabled := false;
      skipVisible := true;
      timerText := "";
      timerStatusText := "";
      this.panelHeight := panelHeight;
      dialogError := None;
    }

    method OnServiceConnected()
      modifies this
      ensures bound && serviceAttached && panelHeight == old(panelHeight)
    {
      serviceAttached := true;
      bound := true;
    }

    method OnServiceDisconnected()
      modifies this
      ensures !bound && !serviceAttached && panelHeight == old(panelHeight)
    {
      serviceAttached := false;
      bound := false;
    }

    /** Unbinds if bound; the service reference is kept. */
    method OnStop()
      modifies this
      ensures !bound && serviceAttached == old(serviceAttached) && panelHeight == old(panelHeight)
    {
      if bound {
        bound := false;
      }
    }

    method UpdateTimerControls(state: V.TimerState)
      modifies this
      ensures Controls(startPauseText, resetEnabled, skipEnabled) == ControlsFor(state, timerViewModel.timerMode)
      ensures bound == old(bound) && panelHeight == old(panelHeight) && timerStatusText == old(timerStatusText)
    {
      match state {
        case Idle =>
          startPauseText := LABEL_START;
          resetEnabled := false;
          skipEnabled := false;
        case Running =>
          startPauseText := LABEL_PAUSE;
          resetEnabled := true;
          skipEnabled := timerViewModel.timerMode == V.Pomodoro;
        case Paused =>
          startPauseText := LABEL_RESUME;
          resetEnabled := true;
          skipEnabled := timerViewModel.timerMode == V.Pomodoro;
        case Finished =>
          startPauseText := LABEL_START;
          resetEnabled := false;
          skipEnabled := false;
      }
    }

    method UpdatePomodoroStatus(status: D.PomodoroStatus)
      modifies this
      ensures timerStatusText == StatusLabel(status)
      ensures bound == old(bound) && panelHeight == old(panelHeight) && timerText == old(timerText)
      ensures startPauseText == old(startPauseText) && resetEnabled == old(resetEnabled)
      ensures skipEnabled == old(skipEnabled) && skipVisible == old(skipVisible)
    {
      timerStatusText := StatusLabel(status);
    }

    /** Pomodoro mode shows the time remaining and the status; count-up mode shows the time elapsed. */
    method UpdateTimerUI()
      modifies this
      ensures skipVisible <==> timerViewModel.timerMode == V.Pomodoro
      ensures timerViewModel.timerMode == V.Pomodoro ==>
                && timerText == V.FormatTime(if timerViewModel.timeRemaining >= 0 then timerViewModel.timeRemaining else 0)
                && timerStatusText == StatusLabel(timerViewModel.pomodoroStatus)
      ensures timerViewModel.timerMode == V.Regular ==>
                && timerText == V.FormatTime(if timerViewModel.elapsedTime >= 0 then timerViewModel.elapsedTime else 0)
                && timerStatusText == LABEL_REGULAR
      ensures bound == old(bound) && panelHeight == old(panelHeight) && startPauseText == old(startPauseText)
    {
      var isPomodoro := timerViewModel.timerMode == V.Pomodoro;
      skipVisible := isPomodoro;
      if isPomodoro {
        var remaining := timerViewModel.timeRemaining;
        timerText := V.FormatTime(if remaining >= 0 then remaining else 0);
        UpdatePomodoroStatus(timerViewModel.pomodoroStatus);
      } else {
        var elapsed := timerViewModel.elapsedTime;
        timerText := V.FormatTime(if elapsed >= 0 then elapsed else 0);
        timerStatusText := LABEL_REGULAR;
      }
    }

    method ToggleReflectionContainer()
      modifies this
      ensures panelHeight == ToggledHeight(old(panelHeight))
      ensures bound == old(bound) && dialogError == old(dialogError)
    {
      if panelHeight <= PANEL_COLLAPSED {
        panelHeight := PANEL_EXPANDED;
      } else {
        panelHeight := PANEL_COLLAPSED;
      }
    }

    /**
     * A tab selection switches the view model's mode (other positions leave it) and then redraws
     * the timer. Switching to the other mode resets the timer, so the screen shows zero time.
     */
    method OnTabSelected(position: int)
      modifies this, timerViewModel
      ensures TabMode(position).Some? ==> timerViewModel.timerMode == TabMode(position).value
      ensures TabMode(position).None? ==> timerViewModel.timerMode == old(timerViewModel.timerMode)
      ensures timerViewModel.bound == old(timerViewModel.bound)
      ensures timerViewModel.timerState == old(timerViewModel.timerState)
      ensures timerViewModel.timerMode != old(timerViewModel.timerMode) ==>
                && timerViewModel.timeRemaining == 0 && timerViewModel.elapsedTime == 0
                && timerViewModel.pomodoroStatus == D.Idle && timerViewModel.completedPomodoros == 0
                && timerViewModel.currentPomodoroSession == null && timerViewModel.currentTimerRecord == null
                && timerText == V.FormatTime(0)
      ensures timerViewModel.timerMode == old(timerViewModel.timerMode) ==>
                timerViewModel.ShownState() == old(timerViewModel.ShownState())
      ensures skipVisible <==> timerViewModel.timerMode == V.Pomodoro
      ensures timerViewModel.timerMode == V.Pomodoro ==>
                && timerText == V.FormatTime(if timerViewModel.timeRemaining >= 0 then timerViewModel.timeRemaining else 0)
                && timerStatusText == StatusLabel(timerViewModel.pomodoroStatus)
      ensures timerViewModel.timerMode == V.Regular ==>
                && timerText == V.FormatTime(if timerViewModel.elapsedTime >= 0 then timerViewModel.elapsedTime else 0)
                && timerStatusText == LABEL_REGULAR
      ensures bound == old(bound) && panelHeight == old(panelHeight) && startPauseText == old(startPauseText)
    {
      var mode := TabMode(position);
      if mode.Some? {
        timerViewModel.SetTimerMode(mode.value);
      }
      UpdateTimerUI();
    }

    /**
     * The start/pause button. With the view model connected, a running timer ends up paused and
     * any other ends up running.
     */
    method OnStartPauseClicked(now: int, newId: string)
      requires Valid()
      modifies timerViewModel, timerViewModel.service, timerViewModel.service.currentPomodoroSession,
               timerViewModel.service.currentTimerRecord, timerViewModel.currentTimerRecord
      ensures Valid()
      ensures old(timerViewModel.bound) ==>
                timerViewModel.timerState == (if old(timerViewModel.timerState) == V.Running then V.Paused else V.Running)
      ensures !old(timerViewModel.bound) ==> timerViewModel.timerState == old(timerViewModel.timerState)
      ensures timerViewModel.timerMode == old(timerViewModel.timerMode)
    {
      match StartPauseAction(timerViewModel.timerState) {
        case Start => timerViewModel.StartTimer(now, newId);
        case Pause => timerViewModel.PauseTimer(now);
        case Resume => timerViewModel.ResumeTimer(now);
      }
    }

    /**
     * The dialog's save button. Blank text only shows the error. Otherwise a new reflection is
     * saved under `newId`, or the edited one is saved under its own id with the trimmed text.
     */
    method OnDialogSave(reflection: Option<R.Reflection>, text: string, now: int, newId: string)
      requires Valid()
      modifies this, reflectionViewModel
      ensures Valid()
      ensures DialogContent(text).None? ==>
                dialogError == Some(R.MSG_CONTENT_EMPTY) && unchanged(reflectionViewModel)
      ensures DialogContent(text).Some? ==>
                && dialogError == old(dialogError)
                && (var saved := R.SavedReflection(reflection, DialogContent(text).value, now, newId);
                    reflectionViewModel.store == old(reflectionViewModel.store)[saved.id := saved])
                && reflectionViewModel.saveStatus != null && reflectionViewModel.saveStatus.content == R.MSG_SAVED
      ensures bound == old(bound) && panelHeight == old(panelHeight)
    {
      var content := DialogContent(text);
      if content.None? {
        dialogError := Some(R.MSG_CONTENT_EMPTY);
      } else {
        SaveDialogContent(reflection, content.value, now, newId);
      }
    }

    /** Saves non-blank dialog text: the edited reflection keeps its id, a new one takes `newId`. */
    method SaveDialogContent(reflection: Option<R.Reflection>, content: string, now: int, newId: string)
      requires Valid() && !IsBlank(content)
      modifies reflectionViewModel
      ensures Valid()
      ensures (var saved := R.SavedReflection(reflection, content, now, newId);
               reflectionViewModel.store == old(reflectionViewModel.store)[saved.id := saved])
      ensures reflectionViewModel.saveStatus != null && reflectionViewModel.saveStatus.content == R.MSG_SAVED
    {
      if reflection.Some? {
        var edited := reflection.value.(content := content);
        assert R.SavedReflection(Some(edited), content, now, newId) == R.SavedReflection(reflection, content, now, newId);
        reflectionViewModel.EditReflection(edited);
      }
      reflectionViewModel.SaveReflection(content, now, newId);
    }

    /** The confirmation dialog's delete button. */
    method OnDeleteConfirmed(reflection: R.Reflection)
      requires Valid()
      modifies reflectionViewModel
      ensures Valid()
      ensures reflectionViewModel.store == old(reflectionViewModel.store) - {reflection.id}
    {
      reflectionViewModel.DeleteReflection(reflection);
    }

    /** The status observer shows each posted message once. */
    method ShowSaveStatus() returns (toast: Option<string>)
      modifies reflectionViewModel.saveStatus
      ensures reflectionViewModel.saveStatus == null ==> toast.None?
      ensures reflectionViewModel.saveStatus != null ==>
                && (old(reflectionViewModel.saveStatus.hasBeenHandled) ==> toast.None?)
                && (!old(reflectionViewModel.saveStatus.hasBeenHandled) ==> toast == Some(reflectionViewModel.saveStatus.content))
                && reflectionViewModel.saveStatus.hasBeenHandled
    {
      var event := reflectionViewModel.saveStatus;
      if event == null {
        toast := None;
      } else {
        toast := event.GetContentIfNotHandled();
      }
    }
  }
}
