/** The Gantt chart's stored task: a named span of time in epoch milliseconds. */
module PlannedTasks {
  import opened Text

  datatype PlannedTask = PlannedTask(
    id: string,
    name: string,
    startTime: int,
    endTime: int,
    parentId: Option<string>,
    dependencyIds: Option<seq<string>>,
    /** Effort in hours; the core only stores these `Float` values, so a `real` stands for them. */
    estimatedEffortHours: Option<real>,
    actualEffortHours: Option<real>,
    completionPercentage: int,
    isMilestone: bool,
    priority: Option<int>)

  /** A task built with every optional field at its declared default. */
  function NewPlannedTask(id: string, name: string, startTime: int, endTime: int): (t: PlannedTask)
    ensures t.id == id && t.name == name && t.startTime == startTime && t.endTime == endTime
    ensures t.parentId.None? && t.dependencyIds.None? && t.priority.None?
    ensures t.estimatedEffortHours.None? && t.actualEffortHours.None?
    ensures t.completionPercentage == 0 && !t.isMilestone
  {
    PlannedTask(id, name, startTime, endTime, None, None, None, None, 0, false, None)
  }

  function StartKey(t: PlannedTask): int {
    t.startTime
  }
}
