# MyGo planner core, modelled in Dafny

MyGo is an Android to-do, calendar and focus app. This project models the logic behind its screens:

- **Pomodoro and count-up timer.** The timer service runs the countdown and the phase rotation (work, then a short or long break, then work). The timer view model mirrors the service's broadcasts and drives it. The timer screen maps states to buttons, labels and tabs.
- **Reflections.** These are short notes saved beside the timer, with a one-shot status message.
- **Calendar.** This covers the day, week and month listings, the 42-cell month grid with its event markers, and the event dialog with its tag and category normalisation.
- **Gantt preparation.** Events are sorted by start time, one row is made per event, and the axis bounds are the smallest start and the largest end.
- **AI task planner.** This covers endpoint resolution, the validation order of a planning request, and the conversion of the model's task list into dated, sorted planned tasks.
- **AI provider settings.** A key-value store holds defaults for the known providers. A settings screen lists, selects, saves and tests them.
- **To-do list.** This covers completion toggling, the star toggle, the add/edit dialog with its priority spinner, and the home screen's summary of today's items.

Conventions:

- Time is an `int` of epoch milliseconds.
- A local day is 86,400,000 ms. The zone offset is a parameter (`Clock.StartOfDay`).
- `now`, fresh ids and the answers of the network are parameters.
- Objects that the app updates in place are Dafny classes whose methods state the whole new state. This covers the timer service, the view models, the Pomodoro session and timer record objects they share, the calendar adapter and the dialogs.
- Expression-style code is written as functions. Lemmas relate those functions.
- Helper modules:
  - `Text`: Kotlin's `trim`, `split`, `joinToString` and decimal formatting;
  - `Clock`: local midnight and week start;
  - `Sorting`: Kotlin's stable `sortedBy`.

## Model

All source paths are under `app/src/main/java/com/todo/mygo/`; the table writes them in full.

| member | source | states |
|---|---|---|
| TimerData.PomodoroSession.PhaseMillis | app/src/main/java/com/todo/mygo/timer/service/TimerService.kt:143-148 | The countdown lasts the work length for WORKING, the short-break length for SHORT_BREAK and the long-break length for LONG_BREAK. IDLE and PAUSED fall back to the work length. |
| TimerData.PomodoroSession.constructor | app/src/main/java/com/todo/mygo/timer/data/PomodoroSession.kt:11-23 | A new session has no end time, zero completed pomodoros and no associated task. |
| TimerData.TimerRecord.constructor | app/src/main/java/com/todo/mygo/timer/data/TimerRecord.kt:11-23 | A new record has no end time, zero duration, is not paused and has no paused time. |
| TimerData.NextPhase | app/src/main/java/com/todo/mygo/timer/service/TimerService.kt:295-322 | The next phase is WORKING iff the current one is not. Ending work adds exactly one pomodoro; any other phase keeps the count. After work, the break is LONG_BREAK iff the new count is a multiple of the interval. Neither IDLE nor PAUSED ever follows. |
| TimerData.FullCycles | app/src/main/java/com/todo/mygo/timer/service/TimerService.kt:295-322 | Two phase ends (work, then its break) return to WORKING with one more pomodoro, for any number of cycles. |
| TimerData.BreakAfterNthPomodoro | app/src/main/java/com/todo/mygo/timer/service/TimerService.kt:299-310 | From a fresh working session, the break after the n-th pomodoro is long exactly when n is a multiple of the interval. |
| TimerService.FormatMinutesSecondsFields | app/src/main/java/com/todo/mygo/timer/service/TimerService.kt:376-380 | The notification text is total minutes (not reduced mod 60), a colon, and two-digit seconds below 60. The two numbers make up the whole seconds of the input. Below 100 minutes it is exactly 5 characters. |
| TimerService.ResumeAsWrittenReportsPauses | app/src/main/java/com/todo/mygo/timer/service/TimerService.kt:232-245 | For any pause, the source's anchor reports the pause time accumulated so far plus the pause just ended, whatever duration was timed. The intended anchor reports that duration. The two agree only when the duration equals the total pause time. |
| TimerService.ResumeAsWrittenReportsPausedTime | app/src/main/java/com/todo/mygo/timer/service/TimerService.kt:232-245 | A worked case. After 10 s of timing and a 60 s pause, the source's anchor reports 60 s elapsed at resume. The intended anchor reports the 10 s timed so far. |
| TimerService.TimerService.constructor | app/src/main/java/com/todo/mygo/timer/service/TimerService.kt:28-72 | A new service is not running, holds no session, no record and no countdown, and has broadcast nothing. |
| TimerService.TimerService.StopTimer | app/src/main/java/com/todo/mygo/timer/service/TimerService.kt:254-263 | Stopping clears the running flag, the remaining time, the countdown, the session, the record and the tick job. |
| TimerService.TimerService.StartPomodoroTimer | app/src/main/java/com/todo/mygo/timer/service/TimerService.kt:137-164 | Stops first. Then it holds only the session, sets the remaining time to the phase length and starts a countdown of that length. It broadcasts the session's status. |
| TimerService.TimerService.StartRegularTimer | app/src/main/java/com/todo/mygo/timer/service/TimerService.kt:169-196 | Stops first. Then it holds only the record, and the anchor is `now - totalPausedTime`. |
| TimerService.TimerService.StartCountDownTimer | app/src/main/java/com/todo/mygo/timer/service/TimerService.kt:268-270 | Starts a countdown of the given length and marks the service running; nothing else changes. |
| TimerService.TimerService.RegularTimerTick | app/src/main/java/com/todo/mygo/timer/service/TimerService.kt:176-193 | A tick reports the record's duration while paused, else `now - anchor`, and broadcasts that value. |
| TimerService.TimerService.CountdownTick | app/src/main/java/com/todo/mygo/timer/service/TimerService.kt:272-286 | A tick stores the remaining time and broadcasts it. |
| TimerService.TimerService.CountdownFinish | app/src/main/java/com/todo/mygo/timer/service/TimerService.kt:288-324 | The session moves to `NextPhase` of its old phase. A countdown of the new phase's length starts. The service broadcasts "finished" and then the new status. |
| TimerService.TimerService.PauseTimer | app/src/main/java/com/todo/mygo/timer/service/TimerService.kt:201-214 | Pausing a session sets PAUSED and keeps the remaining time. Pausing a record sets `isPaused` and `pauseStartTime = now`. |
| TimerService.TimerService.ResumeTimer | app/src/main/java/com/todo/mygo/timer/service/TimerService.kt:219-249 | Resuming from PAUSED sets WORKING and restarts from the same remaining time. Resuming a record adds the pause to `totalPausedTime` and clears the pause. Reported elapsed time continues from the duration held at the pause (see Findings). |
| TimerViewModel.Receive | app/src/main/java/com/todo/mygo/timer/ui/TimerViewModel.kt:83-112 | A tick updates only the remaining or elapsed time, and "finished" sets FINISHED. A status change sets the status; WORKING makes the state RUNNING and PAUSED makes it PAUSED. |
| TimerViewModel.PhaseEndAsReceived | app/src/main/java/com/todo/mygo/timer/ui/TimerViewModel.kt:95-110 | When a phase ends, the screen shows the new status. The state is RUNNING for work and stays FINISHED during a break. |
| TimerViewModel.ClockParts | app/src/main/java/com/todo/mygo/timer/ui/TimerViewModel.kt:416-426 | Hours, minutes mod 60 and seconds mod 60 add back up to the whole seconds. |
| TimerViewModel.MinutesSeconds | app/src/main/java/com/todo/mygo/timer/ui/TimerViewModel.kt:423 | `%02d:%02d` of values below 60 is 5 characters whose digits read back as the two values. |
| TimerViewModel.FormatTimeUnderHour | app/src/main/java/com/todo/mygo/timer/ui/TimerViewModel.kt:416-426 | Below an hour the result is `MM:SS`, and the two fields read back to the whole seconds of the input. |
| TimerViewModel.FormatTimeFromHour | app/src/main/java/com/todo/mygo/timer/ui/TimerViewModel.kt:416-426 | From an hour on the result is `HH:MM:SS`, the hours padded to at least two digits and the later fields below 60. The three fields read back to the whole seconds of the input. |
| TimerViewModel.FormatTimeAgreesWithNotification | app/src/main/java/com/todo/mygo/timer/ui/TimerViewModel.kt:416-426 | Below an hour the screen and the notification print the same text. |
| TimerViewModel.TimerViewModel.constructor | app/src/main/java/com/todo/mygo/timer/ui/TimerViewModel.kt:27-64 | Starts unbound, in Pomodoro mode, IDLE, with zero times, no session and no record. |
| TimerViewModel.TimerViewModel.OnServiceConnected | app/src/main/java/com/todo/mygo/timer/ui/TimerViewModel.kt:66-73 | Binding sets `bound`, then restores from the latest stored session or record as `RestoreTimerState` states. |
| TimerViewModel.TimerViewModel.RestoreTimerState | app/src/main/java/com/todo/mygo/timer/ui/TimerViewModel.kt:327-366 | In Pomodoro mode, a latest stored session with no end time is adopted, and its status and count are shown. Unless it is IDLE, the service counts its phase down, it is broadcast, and the state is RUNNING. In count-up mode, a latest record with no end time is adopted. An unpaused one is timed again from `now - totalPausedTime` with the state RUNNING; a paused one leaves the service alone and shows PAUSED. Otherwise the screen, the held objects and the service are unchanged. |
| TimerViewModel.TimerViewModel.OnServiceDisconnected | app/src/main/java/com/todo/mygo/timer/ui/TimerViewModel.kt:75-78 | Unbinding clears `bound` and changes nothing shown. |
| TimerViewModel.TimerViewModel.OnReceive | app/src/main/java/com/todo/mygo/timer/ui/TimerViewModel.kt:83-112 | The shown state becomes `Receive` of the old shown state and the broadcast. |
| TimerViewModel.TimerViewModel.ResetTimer | app/src/main/java/com/todo/mygo/timer/ui/TimerViewModel.kt:314-322 | Zeroes both times, sets IDLE status with no completed pomodoros, and drops the session and record. Mode and state are kept. |
| TimerViewModel.TimerViewModel.SetTimerMode | app/src/main/java/com/todo/mygo/timer/ui/TimerViewModel.kt:148-155 | The same mode changes nothing. A different mode switches and resets. |
| TimerViewModel.TimerViewModel.StartPomodoroTimer | app/src/main/java/com/todo/mygo/timer/ui/TimerViewModel.kt:171-197 | If bound, it keeps the session in progress when there is one and the screen is RUNNING or PAUSED. Otherwise it makes a new WORKING session with the default lengths. It hands that same object to the service. The service then holds no record, runs a countdown of the session's current phase length and broadcasts the session's status. The state becomes RUNNING and the shown status and count are the session's. If unbound, it does nothing. |
| TimerViewModel.TimerViewModel.StartRegularTimer | app/src/main/java/com/todo/mygo/timer/ui/TimerViewModel.kt:202-223 | If bound, it keeps the record in progress when there is one and the screen is RUNNING or PAUSED. Otherwise it makes a new record started `now`. It hands that record to the service, which then holds no session, runs its update job with the anchor `now - totalPausedTime`, has no countdown and broadcasts nothing. The state is RUNNING. If unbound, neither the view model's state nor the service changes. |
| TimerViewModel.TimerViewModel.StartTimer | app/src/main/java/com/todo/mygo/timer/ui/TimerViewModel.kt:160-166 | Dispatches on the mode. If bound, the state ends RUNNING and the service runs. In Pomodoro mode it holds the view model's session, counts down its phase and broadcasts its status. In count-up mode it holds the view model's record, anchored at `now - totalPausedTime`, with no countdown and no broadcast. If unbound, the service is unchanged. |
| TimerViewModel.TimerViewModel.UpdateTimerRecord | app/src/main/java/com/todo/mygo/timer/ui/TimerViewModel.kt:371-393 | The record's duration becomes the elapsed time shown. While PAUSED it marks the record paused from `now`. Otherwise it clears the pause and adds its length to `totalPausedTime`. |
| TimerViewModel.TimerViewModel.FinishTimerRecord | app/src/main/java/com/todo/mygo/timer/ui/TimerViewModel.kt:398-411 | Stamps `now` as the end of the session and of the record. The record keeps the elapsed time last shown as its duration. |
| TimerViewModel.TimerViewModel.PauseTimer | app/src/main/java/com/todo/mygo/timer/ui/TimerViewModel.kt:228-236 | If bound, the state is PAUSED and the service stops running. A session becomes PAUSED with its remaining time, completed count and countdown stopped, and the PAUSED state is broadcast. A record is marked paused at `now`, with its paused total kept, and its ticker stops. If unbound, it does nothing. |
| TimerViewModel.TimerViewModel.ResumeTimer | app/src/main/java/com/todo/mygo/timer/ui/TimerViewModel.kt:241-249 | If bound, the state is RUNNING and the service runs. A session paused before becomes WORKING: the countdown restarts from the same remaining time and WORKING is broadcast. A paused record adds the pause to `totalPausedTime`, clears the pause and restarts its ticker. If unbound, it does nothing. |
| TimerViewModel.TimerViewModel.StopTimer | app/src/main/java/com/todo/mygo/timer/ui/TimerViewModel.kt:254-265 | If bound, it finishes the record, stops the service and resets to IDLE with nothing held. If unbound, it does nothing. |
| TimerViewModel.TimerViewModel.SkipCurrentPhase | app/src/main/java/com/todo/mygo/timer/ui/TimerViewModel.kt:270-309 | If bound in Pomodoro mode with a session, the shared session moves to `NextPhase`, the screen shows the new status and count, and the service restarts for the new phase. It holds no record, runs a countdown of the new phase's length and broadcasts the new status. Otherwise nothing changes and nothing is broadcast. |
| TimerReflectionFragment.StartPauseAction | app/src/main/java/com/todo/mygo/timer/ui/TimerReflectionFragment.kt:162-169 | The button pauses iff the state is RUNNING and resumes iff it is PAUSED. It starts iff the state is IDLE or FINISHED. |
| TimerReflectionFragment.ControlsFor | app/src/main/java/com/todo/mygo/timer/ui/TimerReflectionFragment.kt:280-303 | Reset is enabled iff RUNNING or PAUSED, and Skip iff also in Pomodoro mode. The button reads "开始" iff IDLE or FINISHED. |
| TimerReflectionFragment.ButtonLabelNamesAction | app/src/main/java/com/todo/mygo/timer/ui/TimerReflectionFragment.kt:162-169 | The button's label always names the action a click performs. |
| TimerReflectionFragment.StatusLabelInjective | app/src/main/java/com/todo/mygo/timer/ui/TimerReflectionFragment.kt:308-317 | Distinct statuses get distinct labels. |
| TimerReflectionFragment.NotificationAgreesWithScreen | app/src/main/java/com/todo/mygo/timer/service/TimerService.kt:154-159 | The notification names a status as the screen does exactly for WORKING, SHORT_BREAK and LONG_BREAK. |
| TimerReflectionFragment.TabMode | app/src/main/java/com/todo/mygo/timer/ui/TimerReflectionFragment.kt:149-155 | Tab 0 selects Pomodoro and tab 1 selects Regular. Any other position selects nothing. |
| TimerReflectionFragment.TabRoundTrip | app/src/main/java/com/todo/mygo/timer/ui/TimerReflectionFragment.kt:149-155 | Each mode has a tab that selects it. |
| TimerReflectionFragment.ToggledHeight | app/src/main/java/com/todo/mygo/timer/ui/TimerReflectionFragment.kt:322-332 | At most the collapsed height expands the panel, and anything taller collapses it. |
| TimerReflectionFragment.ToggleAlternates | app/src/main/java/com/todo/mygo/timer/ui/TimerReflectionFragment.kt:322-332 | Successive toggles alternate between the two heights. |
| TimerReflectionFragment.DialogContent | app/src/main/java/com/todo/mygo/timer/ui/TimerReflectionFragment.kt:360-374 | Text is accepted iff it is not blank, and then it is saved trimmed. |
| TimerReflectionFragment.TimerReflectionFragment.constructor | app/src/main/java/com/todo/mygo/timer/ui/TimerReflectionFragment.kt:29-53 | Starts unbound, with no dialog error. |
| TimerReflectionFragment.TimerReflectionFragment.OnServiceConnected | app/src/main/java/com/todo/mygo/timer/ui/TimerReflectionFragment.kt:55-59 | Marks the service bound and attached. |
| TimerReflectionFragment.TimerReflectionFragment.OnServiceDisconnected | app/src/main/java/com/todo/mygo/timer/ui/TimerReflectionFragment.kt:61-64 | Clears both flags. |
| TimerReflectionFragment.TimerReflectionFragment.OnStop | app/src/main/java/com/todo/mygo/timer/ui/TimerReflectionFragment.kt:103-110 | Unbinding clears `bound` but keeps the attached service reference. |
| TimerReflectionFragment.TimerReflectionFragment.UpdateTimerControls | app/src/main/java/com/todo/mygo/timer/ui/TimerReflectionFragment.kt:280-303 | The three controls become `ControlsFor` of the state and the current mode. |
| TimerReflectionFragment.TimerReflectionFragment.UpdatePomodoroStatus | app/src/main/java/com/todo/mygo/timer/ui/TimerReflectionFragment.kt:308-317 | The status text becomes the status's label; nothing else changes. |
| TimerReflectionFragment.TimerReflectionFragment.UpdateTimerUI | app/src/main/java/com/todo/mygo/timer/ui/TimerReflectionFragment.kt:258-275 | Skip is visible iff in Pomodoro mode. The time shown is the remaining time there and the elapsed time in Regular mode. |
| TimerReflectionFragment.TimerReflectionFragment.ToggleReflectionContainer | app/src/main/java/com/todo/mygo/timer/ui/TimerReflectionFragment.kt:322-332 | The panel height becomes `ToggledHeight` of the old height. |
| TimerReflectionFragment.TimerReflectionFragment.OnTabSelected | app/src/main/java/com/todo/mygo/timer/ui/TimerReflectionFragment.kt:149-155 | Tabs 0 and 1 set their mode; any other tab keeps it. Switching to the other mode clears both times, the status, the count, the session and the record, so the screen shows zero time. The timer is then redrawn as `UpdateTimerUI` states. |
| TimerReflectionFragment.TimerReflectionFragment.OnStartPauseClicked | app/src/main/java/com/todo/mygo/timer/ui/TimerReflectionFragment.kt:162-169 | When bound, a RUNNING timer ends PAUSED and any other ends RUNNING. Unbound, nothing changes. |
| TimerReflectionFragment.TimerReflectionFragment.OnDialogSave | app/src/main/java/com/todo/mygo/timer/ui/TimerReflectionFragment.kt:359-375 | Blank text only shows the error. Otherwise the trimmed text is stored under the reflection's id (or a new one), and "反思已保存" is posted. |
| TimerReflectionFragment.TimerReflectionFragment.SaveDialogContent | app/src/main/java/com/todo/mygo/timer/ui/TimerReflectionFragment.kt:362-370 | Non-blank text is stored under the edited reflection's own id, or under a new id, and "反思已保存" is posted. |
| TimerReflectionFragment.TimerReflectionFragment.OnDeleteConfirmed | app/src/main/java/com/todo/mygo/timer/ui/TimerReflectionFragment.kt:383-392 | The reflection's id leaves the store. |
| TimerReflectionFragment.TimerReflectionFragment.ShowSaveStatus | app/src/main/java/com/todo/mygo/timer/ui/TimerReflectionFragment.kt:238-243 | A posted message is shown once; later reads of the same event show nothing. |
| ReflectionViewModel.Event.constructor | app/src/main/java/com/todo/mygo/timer/ui/ReflectionViewModel.kt:118-123 | A new event holds its content and is unhandled. |
| ReflectionViewModel.Event.GetContentIfNotHandled | app/src/main/java/com/todo/mygo/timer/ui/ReflectionViewModel.kt:125-132 | The first call delivers the content and later calls deliver nothing. Afterwards the event is handled. |
| ReflectionViewModel.Event.PeekContent | app/src/main/java/com/todo/mygo/timer/ui/ReflectionViewModel.kt:137 | Returns the content, handled or not. |
| ReflectionViewModel.SavedReflection | app/src/main/java/com/todo/mygo/timer/ui/ReflectionViewModel.kt:61-82 | The saved reflection has the new content and modification time. An edit keeps id, creation time, date and tags; a new one is created and dated `now` with no tags. |
| ReflectionViewModel.EditedSaveChangesOnlyContent | app/src/main/java/com/todo/mygo/timer/ui/ReflectionViewModel.kt:66-70 | Saving an edit changes only content and modification time. |
| ReflectionViewModel.ReflectionViewModel.constructor | app/src/main/java/com/todo/mygo/timer/ui/ReflectionViewModel.kt:19-37 | Nothing is being edited and nothing is posted. |
| ReflectionViewModel.ReflectionViewModel.CreateNewReflection | app/src/main/java/com/todo/mygo/timer/ui/ReflectionViewModel.kt:42-49 | Starts editing an empty reflection dated `now`. |
| ReflectionViewModel.ReflectionViewModel.EditReflection | app/src/main/java/com/todo/mygo/timer/ui/ReflectionViewModel.kt:54-56 | Starts editing the given reflection. |
| ReflectionViewModel.ReflectionViewModel.SaveReflection | app/src/main/java/com/todo/mygo/timer/ui/ReflectionViewModel.kt:61-82 | Blank content posts "反思内容不能为空" and changes nothing else. Otherwise the saved reflection replaces any with its id, "反思已保存" is posted and editing ends. |
| ReflectionViewModel.ReflectionViewModel.DeleteReflection | app/src/main/java/com/todo/mygo/timer/ui/ReflectionViewModel.kt:87-97 | Removes the id and stops editing only if it was the edited reflection. Posts "反思已删除". |
| ReflectionViewModel.ReflectionViewModel.CancelEdit | app/src/main/java/com/todo/mygo/timer/ui/ReflectionViewModel.kt:102-104 | Editing ends and nothing else changes. |
| CalendarViewModel.StartingIn | app/src/main/java/com/todo/mygo/calendar/ui/CalendarViewModel.kt:63-91 | The listing holds exactly the events starting in `[from, until)`, each as often as in the input at most. |
| CalendarViewModel.StartingInAppend | app/src/main/java/com/todo/mygo/calendar/ui/CalendarViewModel.kt:63-91 | Filtering keeps the input order. |
| CalendarViewModel.NarrowerWindow | app/src/main/java/com/todo/mygo/calendar/ui/CalendarViewModel.kt:63-141 | Listing a narrower window equals narrowing a wider listing. |
| CalendarViewModel.Listed | app/src/main/java/com/todo/mygo/calendar/ui/CalendarViewModel.kt:86-89 | With no events loaded the listing is empty. Otherwise it is the window filter. |
| CalendarViewModel.DayWindow | app/src/main/java/com/todo/mygo/calendar/ui/CalendarViewModel.kt:63-80 | The window starts at local midnight, lasts one day and contains the date. |
| CalendarViewModel.WeekWindow | app/src/main/java/com/todo/mygo/calendar/ui/CalendarViewModel.kt:94-116 | The window starts at midnight on the week's first day, lasts seven days and contains the date. |
| CalendarViewModel.MonthWindow | app/src/main/java/com/todo/mygo/calendar/ui/CalendarViewModel.kt:119-141 | The window starts at midnight on day 1, lasts the month's length and contains the date. |
| CalendarViewModel.DayInsideWeek | app/src/main/java/com/todo/mygo/calendar/ui/CalendarViewModel.kt:63-116 | A date's day window lies inside its week window. |
| CalendarViewModel.DayInsideMonth | app/src/main/java/com/todo/mygo/calendar/ui/CalendarViewModel.kt:63-141 | A date's day window lies inside its month window. |
| CalendarViewModel.DayListingNarrowsWeekListing | app/src/main/java/com/todo/mygo/calendar/ui/CalendarViewModel.kt:63-116 | The day listing is the week listing filtered to that day. |
| CalendarViewModel.CalendarViewModel.constructor | app/src/main/java/com/todo/mygo/calendar/ui/CalendarViewModel.kt:25-36 | Selects today and lists today's events. |
| CalendarViewModel.CalendarViewModel.EventsLoaded | app/src/main/java/com/todo/mygo/calendar/ui/CalendarViewModel.kt:31 | New events replace the loaded ones. The listing is not refreshed. |
| CalendarViewModel.CalendarViewModel.SetSelectedDate | app/src/main/java/com/todo/mygo/calendar/ui/CalendarViewModel.kt:58-60 | Selects the date and lists its day. |
| CalendarViewModel.CalendarViewModel.LoadEventsForDate | app/src/main/java/com/todo/mygo/calendar/ui/CalendarViewModel.kt:63-91 | Lists the date's day window. |
| CalendarViewModel.CalendarViewModel.LoadEventsForWeek | app/src/main/java/com/todo/mygo/calendar/ui/CalendarViewModel.kt:94-116 | Lists the week window. |
| CalendarViewModel.CalendarViewModel.LoadEventsForMonth | app/src/main/java/com/todo/mygo/calendar/ui/CalendarViewModel.kt:119-141 | Lists the month window. |
| CalendarAdapter.GridLayout | app/src/main/java/com/todo/mygo/calendar/ui/CalendarAdapter.kt:46-82 | The grid has 42 cells. A cell is in the current month iff its index is in `[fdow, fdow + daysInMonth)`. The leading cells end with the last days of the previous month, the current cells number 1..daysInMonth, and the trailing cells number 1, 2, … of the next month. |
| CalendarAdapter.CellsAreConsecutiveDays | app/src/main/java/com/todo/mygo/calendar/ui/CalendarAdapter.kt:58-81 | Cell i starts exactly `(i - fdow)` days after the first of the month, so the 42 cells are consecutive days. |
| CalendarAdapter.HasEvents | app/src/main/java/com/todo/mygo/calendar/ui/CalendarAdapter.kt:166-182 | A day has a marker iff some event starts between its 00:00:00.000 and its 23:59:59.999. |
| CalendarAdapter.MarkerAgreesWithDayListing | app/src/main/java/com/todo/mygo/calendar/ui/CalendarAdapter.kt:166-184 | The marker is shown iff the day listing for that day is non-empty. |
| CalendarAdapter.CalendarAdapter.constructor | app/src/main/java/com/todo/mygo/calendar/ui/CalendarAdapter.kt:16-28 | The days are the month's grid and no date is selected. |
| CalendarAdapter.CalendarAdapter.CalculateDays | app/src/main/java/com/todo/mygo/calendar/ui/CalendarAdapter.kt:46-82 | The three loops refill the days with exactly the month's grid. |
| CalendarAdapter.CalendarAdapter.UpdateMonth | app/src/main/java/com/todo/mygo/calendar/ui/CalendarAdapter.kt:30-34 | The days become the new month's grid. |
| CalendarAdapter.CalendarAdapter.UpdateEvents | app/src/main/java/com/todo/mygo/calendar/ui/CalendarAdapter.kt:36-39 | The events are replaced; the grid is untouched. |
| CalendarAdapter.CalendarAdapter.SetSelectedDate | app/src/main/java/com/todo/mygo/calendar/ui/CalendarAdapter.kt:41-44 | The date is selected; the grid is untouched. |
| CalendarAdapter.CalendarAdapter.ItemCount | app/src/main/java/com/todo/mygo/calendar/ui/CalendarAdapter.kt:95 | There are always 42 items. |
| CalendarAdapter.CalendarAdapter.EventIndicator | app/src/main/java/com/todo/mygo/calendar/ui/CalendarAdapter.kt:166-184 | The marker is visible iff some event starts within the cell's day. |
| CalendarFragment.TrimAllAt | app/src/main/java/com/todo/mygo/calendar/ui/CalendarFragment.kt:172 | Every piece is trimmed in its own place. |
| CalendarFragment.NonEmpty | app/src/main/java/com/todo/mygo/calendar/ui/CalendarFragment.kt:172 | Only the empty pieces are dropped, and order is kept. |
| CalendarFragment.TagList | app/src/main/java/com/todo/mygo/calendar/ui/CalendarFragment.kt:172 | Every tag is non-empty, trimmed and free of commas. |
| CalendarFragment.SplitJoinedTags | app/src/main/java/com/todo/mygo/calendar/ui/CalendarFragment.kt:172-193 | Splitting a joined tag string at commas gives back one piece per tag. |
| CalendarFragment.TagListOfJoined | app/src/main/java/com/todo/mygo/calendar/ui/CalendarFragment.kt:172-193 | Reading back a stored tag string gives the same tags. |
| CalendarFragment.NormalizeTagsIdempotent | app/src/main/java/com/todo/mygo/calendar/ui/CalendarFragment.kt:130-193 | Opening and saving an event again leaves its tag string unchanged. |
| CalendarFragment.NormalizedTagsHaveNoLooseEnds | app/src/main/java/com/todo/mygo/calendar/ui/CalendarFragment.kt:172-193 | A stored tag string neither starts nor ends with the separator and has no empty tags. |
| CalendarFragment.Category | app/src/main/java/com/todo/mygo/calendar/ui/CalendarFragment.kt:171-192 | The category is absent iff the trimmed text is empty. Otherwise it is the trimmed text's first character. |
| CalendarFragment.CategoryIdempotent | app/src/main/java/com/todo/mygo/calendar/ui/CalendarFragment.kt:129-192 | Saving an event again keeps its category. |
| CalendarFragment.OutcomeMessageTellsKind | app/src/main/java/com/todo/mygo/calendar/ui/CalendarFragment.kt:175-202 | Two save outcomes show the same message exactly when they are of the same kind (empty title, end before start, created, updated). |
| CalendarFragment.EventDialog.constructor | app/src/main/java/com/todo/mygo/calendar/ui/CalendarFragment.kt:118-143 | An edit starts from the event's times and priority. A new event starts at the selected date, ends one hour later, and has priority 0. |
| CalendarFragment.EventDialog.PickStartTime | app/src/main/java/com/todo/mygo/calendar/ui/CalendarFragment.kt:150-160 | An end earlier than the new start moves to one hour after it. Afterwards the end is never before the start. |
| CalendarFragment.EventDialog.PickEndTime | app/src/main/java/com/todo/mygo/calendar/ui/CalendarFragment.kt:162-166 | Sets the end only. |
| CalendarFragment.EventDialog.SelectPriority | app/src/main/java/com/todo/mygo/calendar/ui/CalendarFragment.kt:173 | Sets the spinner position, one of the three priorities. |
| CalendarFragment.EventDialog.Save | app/src/main/java/com/todo/mygo/calendar/ui/CalendarFragment.kt:168-204 | A blank title is rejected first, then an end before the start. Otherwise the dialog inserts a new event or updates the original. The event has the original's id or 0, the trimmed title and description, the normalised category and tags, and `now` as both timestamps. |
| Gantt.MinStartBelow | app/src/main/java/com/todo/mygo/gantt/GanttFragment.kt:90-100 | The fold is at most every start time, and `Long.MAX_VALUE` for no events. |
| Gantt.MaxEndAbove | app/src/main/java/com/todo/mygo/gantt/GanttFragment.kt:90-100 | The fold is at least every end time, and `Long.MIN_VALUE` for no events. |
| Gantt.MinStartAttained | app/src/main/java/com/todo/mygo/gantt/GanttFragment.kt:90-100 | For a non-empty list, the minimum is some event's start. |
| Gantt.MaxEndAttained | app/src/main/java/com/todo/mygo/gantt/GanttFragment.kt:90-100 | For a non-empty list, the maximum is some event's end. |
| Gantt.MinStartIgnoresOrder | app/src/main/java/com/todo/mygo/gantt/GanttFragment.kt:85-100 | Sorting first does not change the minimum. |
| Gantt.MaxEndIgnoresOrder | app/src/main/java/com/todo/mygo/gantt/GanttFragment.kt:85-100 | Sorting first does not change the maximum. |
| Gantt.MinStartOfSorted | app/src/main/java/com/todo/mygo/gantt/GanttFragment.kt:85-99 | On the sorted list the minimum is the first event's start. |
| Gantt.PlotRows | app/src/main/java/com/todo/mygo/gantt/GanttFragment.kt:86-109 | Row i is labelled with event i's title and spans its start to end. The folds return `MinStart` and `MaxEnd`. |
| Gantt.GanttChart.constructor | app/src/main/java/com/todo/mygo/gantt/GanttFragment.kt:22-28 | Starts with no data. |
| Gantt.GanttChart.DisplayGanttData | app/src/main/java/com/todo/mygo/gantt/GanttFragment.kt:77-130 | No events clears the chart. Otherwise the rows are the events sorted by start. The axis runs from the earliest start to the latest end plus one day. |
| Sorting.InsertSorted | app/src/main/java/com/todo/mygo/ai_planner/ui/AiTaskPlannerViewModel.kt:273 | Inserting into a list ordered by key keeps it ordered. |
| Sorting.InsertPermutes | app/src/main/java/com/todo/mygo/ai_planner/ui/AiTaskPlannerViewModel.kt:273 | Inserting adds exactly the one element. |
| Sorting.SortBy | app/src/main/java/com/todo/mygo/ai_planner/ui/AiTaskPlannerViewModel.kt:273 | The result is ordered by key and is a permutation of the input. |
| Sorting.SortByStable | app/src/main/java/com/todo/mygo/ai_planner/ui/AiTaskPlannerViewModel.kt:273 | Elements with equal keys keep their input order. |
| PlannedTasks.NewPlannedTask | app/src/main/java/com/todo/mygo/gantt/data/PlannedTask.kt:7-20 | A new task has no parent, dependencies, effort estimates or priority, is 0% complete and is not a milestone. |
| AiTaskPlanner.ScheduleKeepsNamedItems | app/src/main/java/com/todo/mygo/ai_planner/ui/AiTaskPlannerViewModel.kt:205-272 | Exactly the items with a non-blank name become tasks, one each, with their names and in order. |
| AiTaskPlanner.ValidOffsetsCoverWholeDays | app/src/main/java/com/todo/mygo/ai_planner/ui/AiTaskPlannerViewModel.kt:226-241 | With `0 <= s <= e`, the planned task runs from midnight of day s to 23:59:59.999 of day e, and the cursor is unchanged. |
| AiTaskPlanner.ScheduleSpansWellFormed | app/src/main/java/com/todo/mygo/ai_planner/ui/AiTaskPlannerViewModel.kt:212-260 | No scheduled task ends before it starts, given 64-bit duration arithmetic. |
| AiTaskPlanner.ScheduleOrigins | app/src/main/java/com/todo/mygo/ai_planner/ui/AiTaskPlannerViewModel.kt:205-272 | Task k is made from the k-th item with a non-blank name: it has that item's generated id and its name. An item with an offset pair gets the span its offsets select, whatever the cursor. Any other item lasts its positive `durationHours`, or one hour. |
| AiTaskPlanner.FirstCursorTaskStartsAtCursor | app/src/main/java/com/todo/mygo/ai_planner/ui/AiTaskPlannerViewModel.kt:203-260 | The first task from an item without an offset pair starts at the cursor (today's midnight in the conversion), whatever offset-placed tasks come before it. |
| AiTaskPlanner.CursorTasksAreContiguous | app/src/main/java/com/todo/mygo/ai_planner/ui/AiTaskPlannerViewModel.kt:203-260 | Tasks from items without an offset pair are back to back: each starts where the previous such task ended, whatever offset-placed tasks lie between them. |
| AiTaskPlanner.ConvertAiResponseToPlannedTasks | app/src/main/java/com/todo/mygo/ai_planner/ui/AiTaskPlannerViewModel.kt:192-274 | The loop's result is the stable sort by start time of the scheduled tasks. It is sorted and a permutation of them. |
| AiTaskPlanner.WrapInt32 | app/src/main/java/com/todo/mygo/ai_planner/ui/AiTaskPlannerViewModel.kt:248 | Kotlin `Int` arithmetic lands in the 32-bit range, congruent mod 2^32 to the true value and equal to it when in range. |
| AiTaskPlanner.DurationAsWrittenAgreesBelowOverflow | app/src/main/java/com/todo/mygo/ai_planner/ui/AiTaskPlannerViewModel.kt:248 | Up to 596523 hours the written product is the intended duration. |
| AiTaskPlanner.DurationOverflowEndsBeforeStart | app/src/main/java/com/todo/mygo/ai_planner/ui/AiTaskPlannerViewModel.kt:248 | At 596524 hours the written product is negative, so the planned task ends before it starts. |
| AiTaskPlanner.NormalizeCustomUrl | app/src/main/java/com/todo/mygo/ai_planner/ui/AiTaskPlannerViewModel.kt:106-110 | The URL ends with `/v1/chat/completions`. One already ending so is kept; otherwise trailing slashes are dropped and the path is appended. |
| AiTaskPlanner.NormalizeCustomUrlIdempotent | app/src/main/java/com/todo/mygo/ai_planner/ui/AiTaskPlannerViewModel.kt:106-110 | Normalising twice equals normalising once. |
| AiTaskPlanner.ResolveEndpoint | app/src/main/java/com/todo/mygo/ai_planner/ui/AiTaskPlannerViewModel.kt:101-114 | There is an endpoint iff the provider is OpenAI or Custom, case-insensitively. OpenAI gets the fixed `https://api.openai.com/v1/chat/completions`. Custom gets `NormalizeCustomUrl` of its `apiUrl`. Otherwise the error is "Unsupported AI provider". |
| AiTaskPlanner.PlanSucceedsIff | app/src/main/java/com/todo/mygo/ai_planner/ui/AiTaskPlannerViewModel.kt:57-177 | Planning succeeds iff a provider is selected and fully configured, the endpoint resolves, the status is OK, the body and content are not blank, and the content parses. |
| AiTaskPlanner.UnsupportedProviderSendsNothing | app/src/main/java/com/todo/mygo/ai_planner/ui/AiTaskPlannerViewModel.kt:111-114 | An unsupported provider's outcome does not depend on any answer. |
| AiTaskPlanner.PlannedTasksWellFormed | app/src/main/java/com/todo/mygo/ai_planner/ui/AiTaskPlannerViewModel.kt:273 | A planned list is sorted by start and no task ends before its start. |
| AiTaskPlanner.CallAiToPlanTasks | app/src/main/java/com/todo/mygo/ai_planner/ui/AiTaskPlannerViewModel.kt:93-190 | The method's checks and conversion give exactly `CallOutcome`. |
| AiTaskPlanner.ErrorPrefixTellsKind | app/src/main/java/com/todo/mygo/ai_planner/ui/AiTaskPlannerViewModel.kt:78-87 | Each error kind has a fixed prefix, and two errors share a prefix exactly when they are of the same kind. |
| AiTaskPlanner.AiTaskPlannerViewModel.constructor | app/src/main/java/com/todo/mygo/ai_planner/ui/AiTaskPlannerViewModel.kt:28-55 | Nothing planned, loading, errored or saved. |
| AiTaskPlanner.AiTaskPlannerViewModel.PlanTasks | app/src/main/java/com/todo/mygo/ai_planner/ui/AiTaskPlannerViewModel.kt:57-91 | Loading ends false. On success the tasks are shown and the error is cleared. On failure the error text is set and the shown tasks are kept. |
| AiTaskPlanner.AiTaskPlannerViewModel.ClearError | app/src/main/java/com/todo/mygo/ai_planner/ui/AiTaskPlannerViewModel.kt:276-278 | Clears the error only. |
| AiTaskPlanner.AiTaskPlannerViewModel.SavePlannedTasksToGantt | app/src/main/java/com/todo/mygo/ai_planner/ui/AiTaskPlannerViewModel.kt:280-296 | No tasks gives "没有要保存的任务。" and stores nothing. Otherwise the batch is stored and success or failure is reported. |
| AiTaskPlanner.AiTaskPlannerViewModel.ClearSaveStatus | app/src/main/java/com/todo/mygo/ai_planner/ui/AiTaskPlannerViewModel.kt:298-300 | Clears the save status only. |
| AiSettings.ConfigKeyInjective | app/src/main/java/com/todo/mygo/ai_settings/data/AiSettingsRepository.kt:17-49 | Distinct provider names are stored under distinct keys. |
| AiSettings.ConfigKeyIsNotSelectedKey | app/src/main/java/com/todo/mygo/ai_settings/data/AiSettingsRepository.kt:16-17 | No provider record can overwrite the selected name. |
| AiSettings.FindDefault | app/src/main/java/com/todo/mygo/ai_settings/data/AiSettingsRepository.kt:54 | Finds a default with that name, or proves there is none. |
| AiSettings.FindIn | app/src/main/java/com/todo/mygo/ai_settings/data/AiSettingsRepository.kt:54 | Finds an entry with that name, or proves there is none. |
| AiSettings.SelectedIn | app/src/main/java/com/todo/mygo/ai_settings/data/AiSettingsRepository.kt:39-41 | There is always a selected name. It is "Gemini" when none is stored. |
| AiSettings.ConfigIn | app/src/main/java/com/todo/mygo/ai_settings/data/AiSettingsRepository.kt:48-56 | A found record has the asked name. None is found iff nothing is stored and no default has that name. |
| AiSettings.ConfigAfterSave | app/src/main/java/com/todo/mygo/ai_settings/data/AiSettingsRepository.kt:43-56 | A saved record reads back under its name. Other names and the selection are unchanged. |
| AiSettings.SelectedAfterSave | app/src/main/java/com/todo/mygo/ai_settings/data/AiSettingsRepository.kt:35-41 | A saved selection reads back and the records are unchanged. |
| AiSettings.DefaultsAlwaysResolve | app/src/main/java/com/todo/mygo/ai_settings/data/AiSettingsRepository.kt:65-70 | Every default provider resolves, so the initialiser's guarded writes never fire. |
| AiSettings.AllConfigsIn | app/src/main/java/com/todo/mygo/ai_settings/data/AiSettingsRepository.kt:58-62 | There is one entry per default, in default order. An unsaved entry is the default itself. |
| AiSettings.AiSettingsRepository.constructor | app/src/main/java/com/todo/mygo/ai_settings/data/AiSettingsRepository.kt:8-13 | Wraps the given preferences. |
| AiSettings.AiSettingsRepository.SaveSelectedProviderName | app/src/main/java/com/todo/mygo/ai_settings/data/AiSettingsRepository.kt:35-37 | Writes one key, and the selection reads back. |
| AiSettings.AiSettingsRepository.SaveProviderConfig | app/src/main/java/com/todo/mygo/ai_settings/data/AiSettingsRepository.kt:43-46 | Writes one key, and the record reads back while the selection is unchanged. |
| AiSettings.AiSettingsRepository.InitializeDefaultProviders | app/src/main/java/com/todo/mygo/ai_settings/data/AiSettingsRepository.kt:65-75 | The preferences are left unchanged. |
| AiProviderSettings.ConnectionResult | app/src/main/java/com/todo/mygo/ai_settings/ui/AiProviderSettingsViewModel.kt:75-116 | A test succeeds iff the URL is not blank and the server answers 200..399, 401 or 403. A blank URL gives "API URL不能为空". The message is "连接成功" iff the test succeeds. |
| AiProviderSettings.ReplaceByName | app/src/main/java/com/todo/mygo/ai_settings/ui/AiProviderSettingsViewModel.kt:69-71 | Keeps the length and names. Entries with the saved name are replaced and others are unchanged. |
| AiProviderSettings.ReplaceMatchesReload | app/src/main/java/com/todo/mygo/ai_settings/ui/AiProviderSettingsViewModel.kt:65-72 | Patching the shown list equals reloading it from the store after the save. |
| AiProviderSettings.AiProviderSettingsViewModel.ProviderNames | app/src/main/java/com/todo/mygo/ai_settings/ui/AiProviderSettingsViewModel.kt:32 | The default providers' names, in order. |
| AiProviderSettings.AiProviderSettingsViewModel.constructor | app/src/main/java/com/todo/mygo/ai_settings/ui/AiProviderSettingsViewModel.kt:34-53 | Seeds the defaults without changing the store and shows all records. It also shows the selected name and its record. |
| AiProviderSettings.AiProviderSettingsViewModel.LoadProviderConfig | app/src/main/java/com/todo/mygo/ai_settings/ui/AiProviderSettingsViewModel.kt:55-57 | Shows that provider's record. |
| AiProviderSettings.AiProviderSettingsViewModel.SelectProvider | app/src/main/java/com/todo/mygo/ai_settings/ui/AiProviderSettingsViewModel.kt:59-63 | Persists and shows the selection and its record. |
| AiProviderSettings.AiProviderSettingsViewModel.SaveProviderConfig | app/src/main/java/com/todo/mygo/ai_settings/ui/AiProviderSettingsViewModel.kt:65-73 | Persists the record and shows it as current. The shown list is patched, or becomes a singleton when there was none. |
| AiProviderSettings.AiProviderSettingsViewModel.TestConnection | app/src/main/java/com/todo/mygo/ai_settings/ui/AiProviderSettingsViewModel.kt:75-99 | The result settles at `ConnectionResult`. |
| Home.TodayWindow | app/src/main/java/com/todo/mygo/ui/home/HomeViewModel.kt:24-37 | Today runs from local midnight to 23:59:59.999 inclusive, and contains `now`. |
| Home.ItemLines | app/src/main/java/com/todo/mygo/ui/home/HomeViewModel.kt:45 | There is one "- title" line per item, in order. |
| Home.Summary | app/src/main/java/com/todo/mygo/ui/home/HomeViewModel.kt:41-47 | A missing or empty list gives exactly "今天没有待办事项。". Otherwise the text starts with "今天有 N 个待办事项：" and a newline. |
| Home.SplitJoinedLines | app/src/main/java/com/todo/mygo/ui/home/HomeViewModel.kt:45 | Lines joined by newlines split back into the same lines. |
| Home.SummaryLines | app/src/main/java/com/todo/mygo/ui/home/HomeViewModel.kt:45 | When no title has a line break, the text's lines are the header and then the N item lines in order, with no trailing empty line. |
| TodoItems.NewTodoItem | app/src/main/java/com/todo/mygo/todo/data/TodoItem.kt:8-21 | A new item is not completed and has no completion date, parent, group or tags. |
| TodoViewModel.Toggled | app/src/main/java/com/todo/mygo/todo/ui/TodoViewModel.kt:44-50 | The done flag is the argument. A completion date exists iff the item is done, and it is `now`. Every other field is unchanged. |
| TodoViewModel.CheckThenUncheck | app/src/main/java/com/todo/mygo/todo/ui/TodoViewModel.kt:44-50 | Checking then unchecking leaves the item undone with no completion date and nothing else changed. |
| TodoViewModel.UncheckUndone | app/src/main/java/com/todo/mygo/todo/ui/TodoViewModel.kt:44-50 | Unchecking an undone item changes nothing. |
| TodoViewModel.TodoViewModel.constructor | app/src/main/java/com/todo/mygo/todo/ui/TodoViewModel.kt:13-30 | Nothing is requested and no edit is pending. |
| TodoViewModel.TodoViewModel.Insert | app/src/main/java/com/todo/mygo/todo/ui/TodoViewModel.kt:32-34 | Issues one insert of the item. |
| TodoViewModel.TodoViewModel.Update | app/src/main/java/com/todo/mygo/todo/ui/TodoViewModel.kt:36-38 | Issues one update of the item. |
| TodoViewModel.TodoViewModel.Delete | app/src/main/java/com/todo/mygo/todo/ui/TodoViewModel.kt:40-42 | Issues one delete of the item. |
| TodoViewModel.TodoViewModel.ToggleCompleted | app/src/main/java/com/todo/mygo/todo/ui/TodoViewModel.kt:44-50 | Issues one update of the toggled item. |
| TodoViewModel.TodoViewModel.OnTodoItemClicked | app/src/main/java/com/todo/mygo/todo/ui/TodoViewModel.kt:52-54 | The pending edit is the item. |
| TodoViewModel.TodoViewModel.OnEditTodoNavigated | app/src/main/java/com/todo/mygo/todo/ui/TodoViewModel.kt:56-58 | No edit is pending. |
| TodoFragment.Starred | app/src/main/java/com/todo/mygo/todo/ui/TodoFragment.kt:97-101 | Starring gives priority 1 and unstarring priority 2. Every other field is unchanged. |
| TodoFragment.LastStarWins | app/src/main/java/com/todo/mygo/todo/ui/TodoFragment.kt:97-101 | Two star toggles equal the last one alone. |
| TodoFragment.PriorityRoundTrip | app/src/main/java/com/todo/mygo/todo/ui/TodoFragment.kt:147-176 | Position to priority and priority to position are mutually inverse, so an untouched spinner keeps the priority. |
| TodoFragment.DefaultPositionIsDefaultPriority | app/src/main/java/com/todo/mygo/todo/ui/TodoFragment.kt:150-176 | A new item's preselected row saves priority 2, the entity's default. |
| TodoFragment.DescriptionOf | app/src/main/java/com/todo/mygo/todo/ui/TodoFragment.kt:174-196 | The description is null iff the text is blank. Otherwise it is the trimmed, non-empty text. |
| TodoFragment.TodoDialog.constructor | app/src/main/java/com/todo/mygo/todo/ui/TodoFragment.kt:123-151 | An edit preselects priority − 1 and the item's due date. A new item preselects row 1 and no date. |
| TodoFragment.TodoDialog.SelectPosition | app/src/main/java/com/todo/mygo/todo/ui/TodoFragment.kt:121-130 | Sets the spinner row only. |
| TodoFragment.TodoDialog.PickDueDate | app/src/main/java/com/todo/mygo/todo/ui/TodoFragment.kt:160-163 | Sets the due date only. |
| TodoFragment.TodoDialog.Save | app/src/main/java/com/todo/mygo/todo/ui/TodoFragment.kt:172-201 | A blank title saves nothing. A new item gets the fresh id, trimmed title, description, priority, due date and creation time `now`, with defaults elsewhere. An edit changes only title, description, priority and due date. |
| TodoFragment.TodoDialog.Confirm | app/src/main/java/com/todo/mygo/todo/ui/TodoFragment.kt:172-201 | A blank title shows "Title cannot be empty" and issues nothing. Otherwise exactly one request is appended. A new item is inserted with the new id, the trimmed title, the description (none when blank), the chosen priority and due date, and `now`. An edit updates the original item with those four fields changed and every other field kept. |
| TodoFragment.TodoScreen.constructor | app/src/main/java/com/todo/mygo/todo/ui/TodoFragment.kt:36-45 | Holds the view model. |
| TodoFragment.TodoScreen.OnToggleStarred | app/src/main/java/com/todo/mygo/todo/ui/TodoFragment.kt:97-107 | Issues one update of the starred item and shows "已标记为重要" or "已取消重要标记". |
| TodoFragment.TodoScreen.OnSwipeDeleteConfirmed | app/src/main/java/com/todo/mygo/todo/ui/TodoFragment.kt:225-228 | Issues one delete of the item and shows "Todo deleted". |
| TodoFragment.TodoScreen.OnNavigateToEdit | app/src/main/java/com/todo/mygo/todo/ui/TodoFragment.kt:67-72 | A pending edit opens a dialog for that item and clears the pending edit. No pending edit opens nothing. |

### Reference functions

These functions define a value the source computes. Their meaning is stated by the lemma rows named beside them, not by a contract of their own:
- `AiTaskPlanner.Place` (AiTaskPlannerViewModel.kt:212-260): `ScheduleOrigins` through `PlacedSpan`, `ValidOffsetsCoverWholeDays`, `FirstCursorTaskStartsAtCursor`, `CursorTasksAreContiguous`.
- `AiTaskPlanner.Schedule` (AiTaskPlannerViewModel.kt:203-272): `ScheduleKeepsNamedItems`, `ScheduleOrigins`, `FirstCursorTaskStartsAtCursor`, `CursorTasksAreContiguous`, `ScheduleSpansWellFormed`, `ConvertAiResponseToPlannedTasks`.
- `AiTaskPlanner.CallOutcome` (AiTaskPlannerViewModel.kt:93-190): `CallAiToPlanTasks`, `UnsupportedProviderSendsNothing`, `PlanSucceedsIff`.
- `AiTaskPlanner.PlanOutcome` (AiTaskPlannerViewModel.kt:57-91): `PlanSucceedsIff`, `PlannedTasksWellFormed`, `AiTaskPlannerViewModel.PlanTasks`.
- `AiTaskPlanner.ErrorPrefix` (AiTaskPlannerViewModel.kt:78-87): `ErrorPrefixTellsKind`.
- `CalendarFragment.NormalizeTags` (CalendarFragment.kt:172-193): `NormalizeTagsIdempotent`, `NormalizedTagsHaveNoLooseEnds`, `TagListOfJoined`.
- `CalendarFragment.OutcomeMessage` (CalendarFragment.kt:175-202): `OutcomeMessageTellsKind`.
- `TimerReflectionFragment.StatusLabel` (TimerReflectionFragment.kt:308-317): `StatusLabelInjective`, `NotificationAgreesWithScreen`.
- `TimerService.NotificationStatus` (TimerService.kt:154-159): `NotificationAgreesWithScreen`.
- `TimerService.ResumeAnchor` (TimerService.kt:232-238): `ResumeAsWrittenReportsPausedTime`, `ResumeAsWrittenReportsPauses`, `TimerService.ResumeTimer`.
- `CalendarAdapter.MonthGrid` (CalendarAdapter.kt:46-82): `GridLayout`, `CellsAreConsecutiveDays`, `CalendarAdapter.CalculateDays`.
- `Gantt.MinStart` and `Gantt.MaxEnd` (GanttFragment.kt:90-100): `MinStartBelow`, `MinStartAttained`, `MinStartIgnoresOrder`, `MinStartOfSorted`, `MaxEndAbove`, `MaxEndAttained`, `MaxEndIgnoresOrder`.
- `Home.HeaderLine` (HomeViewModel.kt:45): `Summary`, `SummaryLines`.
- `TodoFragment.PriorityOfPosition` and `TodoFragment.PositionOfPriority` (TodoFragment.kt:147-176): `PriorityRoundTrip`, `DefaultPositionIsDefaultPriority`.
- `AiSettings.AiSettingsRepository.GetSelectedProviderName`, `GetProviderConfig` and `GetAllProviderConfigs` (AiSettingsRepository.kt:39-62): each reads the stored map through `SelectedIn`, `ConfigIn` and `AllConfigsIn`, which `SelectedAfterSave`, `ConfigAfterSave` and the save methods' contracts characterise.

## Left out

- **HTTP and JSON.** The OkHttp request, Gson (de)serialisation and the `HttpURLConnection` ping are not modelled. A request's result is an input: an I/O failure or a status, body and content, with the content parsed or not. A ping's result is also an input: a status code or no answer.
- **Time zones.** `java.util.Calendar`'s local-time fields and daylight saving are not modelled. A day is a fixed 86,400,000 ms and the zone offset is a parameter.
- **Month shape.** The month's first weekday, its length and the previous month's length are inputs to the grid and the month window.
- **Clock, ids and randomness.** `System.currentTimeMillis` and `UUID.randomUUID` become `now` and id parameters.
- **Android framework.** Not modelled:
  - the `CountDownTimer` and the coroutine tick loop, which appear as tick and finish methods called with their values;
  - notifications and service binding;
  - `LiveData` observation;
  - `viewModelScope` coroutines, which are taken to run at once and in order;
  - broadcasts, which are recorded as an outbox.
- **Persistence.** The Room DAOs, databases and repositories are not modelled:
  - the reflection store is a map by id (insert replaces, delete removes);
  - the AI settings are a key-value map;
  - to-do writes and saved planned-task batches are recorded as the requests issued;
  - the home screen's query of today's unfinished items is an input list.
- **Adapters and chart configuration.** These are left out:
  - the list adapters' DiffUtil callbacks;
  - the MPAndroidChart calls and the `Float` conversion of the Gantt bar values (entries keep the `Long` times);
  - date formatting for display, the holiday labels of the month grid, and the day-click callbacks;
  - the highlighting of the selected day and of today in the calendar cells' `bind`. `CalendarAdapter.SetSelectedDate` stores the selection; the cell colours drawn from it are not modelled.
- **Prompt text.** The system and user prompts sent to the AI are left out; they do not affect the outcome.
- **Dead branches.** Some branches cannot run and so add no behaviour. They are proved unreachable (`AiSettings.DefaultsAlwaysResolve`, `AiTaskPlanner.ValidOffsetsCoverWholeDays`):
  - the guarded writes of `initializeDefaultProviders`;
  - the "no selection" branch of the settings screen's start-up;
  - the planner's end-before-start safeguard for valid offsets;
  - the `JsonSyntaxException` handler of `planTasks` (AiTaskPlannerViewModel.kt:83-84). Both parses in `callAiToPlanTasks` (:165-170 and :181-186) catch that exception and rethrow it as `AiApiException`, so the handler never fires. This is why `AiTaskPlanner.PlanError` has no parse kind.
- TimerViewModel.TimerViewModel.RestoreTimerState: takes the latest stored session and record as parameters and restores once, when the service connects. In the source the query runs in a coroutine, and its `observeForever` observer runs again whenever the latest stored session or record changes. Those later re-runs are not modelled.
- Pomodoro sessions require a positive `longBreakInterval`. The source divides by it and would throw on 0; the app always passes 4.
- Gantt.GanttChart.DisplayGanttData: requires every time to lie in the 64-bit `Long` range, which the source's types guarantee. The `Float` axis bounds are stated as exact integers.
- TimerService.TimerService.ResumeTimer: states the intended regular-timer anchor rather than the one written (see Findings). The written one is modelled by `TimerService.ResumeAnchorAsWritten`.
- AiTaskPlanner.ResolveEndpoint: compares provider names with `Text.EqualsIgnoreCase`, which folds ASCII letters only. Kotlin's `equals(ignoreCase = true)` also folds non-ASCII letters, so a name such as "Cuſtom" (long s, U+017F) is accepted by the source and refused by the model.
- CalendarFragment.Category: keeps the first character of the trimmed text as one Unicode scalar. The source keeps the first UTF-16 unit, so for a text starting with a character outside the Basic Multilingual Plane (an emoji) the source stores a lone surrogate.
- TimerReflectionFragment.TimerReflectionFragment.UpdateTimerUI: clamps a negative remaining or elapsed time to 0 before formatting. The source formats the negative `Long` as it is; -1500 ms gives "00:-1". The same clamp applies to `OnTabSelected`, which redraws through it.
- TimerViewModel.FormatTime: takes a `nat`. Negative inputs, which Kotlin formats with a minus sign and truncating division, are not modelled.
- TimerService.FormatMinutesSeconds: takes a `nat`, for the same reason as `FormatTime`.
- AiTaskPlanner.ConvertAiResponseToPlannedTasks: computes durations in 64-bit arithmetic, not the 32-bit product written (see Findings). The written one is modelled by `AiTaskPlanner.DurationMillisAsWritten`.

## Findings

| source | as written | input that shows it | evidently intended | confidence | as-written member | corrected member |
|---|---|---|---|---|---|---|
| app/src/main/java/com/todo/mygo/ai_planner/ui/AiTaskPlannerViewModel.kt:248 | `duration_hours * 60 * 60 * 1000L` multiplies the first three factors as 32-bit `Int` before widening | `duration_hours = 596524`: the `Int` product wraps to a negative value, so the planned task ends about 25 days before it starts | the duration `h` hours in 64-bit milliseconds, so every task ends at or after its start | not executed | AiTaskPlanner.DurationOverflowEndsBeforeStart | AiTaskPlanner.ScheduleSpansWellFormed |
| app/src/main/java/com/todo/mygo/timer/service/TimerService.kt:173-245 | resume sets the anchor to `now - duration`, then calls `startRegularTimer`, which overwrites it with `now - totalPausedTime` | time 10 s from 0, pause until 70 s, resume: the reported elapsed time jumps to 60 s (the pause length) instead of 10 s | elapsed time continues from the duration held at the pause | not executed | TimerService.ResumeAsWrittenReportsPauses | TimerService.TimerService.ResumeTimer |
