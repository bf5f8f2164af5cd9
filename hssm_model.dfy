/** The HSSM schemas: incidents, assets, tasks, the meter-reading aggregate
    (one document holding a list of readings) and reports. */
module HssmModel {
  import opened Common

  datatype Priority = Low | Medium | High

  /** The enum validator shared by incidents and tasks. */
  function ParsePriority(s: string): (r: Option<Priority>)
    ensures r.Some? <==> s in ["Low", "Medium", "High"]
    ensures r == Some(Low) <==> s == "Low"
    ensures r == Some(Medium) <==> s == "Medium"
    ensures r == Some(High) <==> s == "High"
  {
    if s == "Low" then Some(Low)
    else if s == "Medium" then Some(Medium)
    else if s == "High" then Some(High)
    else None
  }

  datatype Category = FixedAssets | Consumables

  const DefaultCategory: Category := FixedAssets

  /** The asset category a document gets: the default when none is given. */
  function CategoryFrom(given: Option<string>): (r: Option<Category>)
    ensures given.None? ==> r == Some(DefaultCategory)
    ensures given.Some? ==> (r == Some(FixedAssets) <==> given.value == "Fixed Assets")
    ensures given.Some? ==> (r == Some(Consumables) <==> given.value == "Consumables")
    ensures given.Some? ==> (r.Some? <==> given.value in ["Fixed Assets", "Consumables"])
  {
    match given
    case None => Some(DefaultCategory)
    case Some(s) =>
      if s == "Fixed Assets" then Some(FixedAssets)
      else if s == "Consumables" then Some(Consumables)
      else None
  }

  datatype Incident = Incident(
    department: string,
    title: string,
    description: Option<string>,
    priority: Priority,
    date: Time,
    file: Option<string>)

  datatype Asset = Asset(
    name: string,
    serialNumber: Field,
    category: Category,
    location: string,
    serviceRecords: Option<string>,
    file: Option<string>)

  datatype Task = Task(
    task: string,
    assignedTo: string,
    dueDate: Time,
    priority: Priority,
    taskDescription: Option<string>,
    file: Option<string>)

  datatype Reading = Reading(location: string, reading: real, date: Time)

  /** The meter-reading aggregate: one document, many readings. */
  datatype MeterReadings = MeterReadings(readings: seq<Reading>)

  datatype Report = Report(file: string)

  predicate ValidIncident(i: Incident) {
    i.department != "" && i.title != ""
  }

  predicate ValidAsset(a: Asset) {
    a.name != "" && a.location != ""
  }

  predicate ValidTask(t: Task) {
    t.task != "" && t.assignedTo != ""
  }

  predicate ValidReading(r: Reading) {
    r.location != ""
  }

  predicate ValidMeterReadings(m: MeterReadings) {
    forall i :: 0 <= i < |m.readings| ==> ValidReading(m.readings[i])
  }

  predicate ValidReport(r: Report) {
    r.file != ""
  }

  /** The document `new Incident({...}).save()` stores: department and title
      required, priority in its enum, date required and cast to a Date (given
      already cast, None for a missing value or a failed cast); None when
      saving fails. */
  function NewIncident(department: Option<string>, title: Option<string>, priority: Option<string>,
                       date: Option<Time>, file: Option<string>): (r: Option<Incident>)
    ensures r.Some? <==> (Present(department) && Present(title) && priority.Some?
                          && ParsePriority(priority.value).Some? && date.Some?)
    ensures r.Some? ==> (ValidIncident(r.value) && r.value.department == department.value
        && r.value.title == title.value && Some(r.value.priority) == ParsePriority(priority.value)
        && r.value.date == date.value && r.value.file == file && r.value.description.None?)
  {
    if Present(department) && Present(title) && priority.Some? && date.Some? then
      match ParsePriority(priority.value)
      case None => None
      case Some(p) => Some(Incident(department.value, title.value, None, p, date.value, file))
    else None
  }

  /** The document `new Asset({...}).save()` would store: name and location
      required, a serial number of any type required, the category defaulted
      and checked against its enum; None when saving would fail. */
  function NewAsset(name: Option<string>, serialNumber: Option<Field>, category: Option<string>,
                    location: Option<string>, serviceRecords: Option<string>,
                    file: Option<string>): (r: Option<Asset>)
    ensures r.Some? <==> (Present(name) && serialNumber.Some? && Present(location)
                          && CategoryFrom(category).Some?)
    ensures r.Some? ==> (ValidAsset(r.value) && r.value.name == name.value
        && r.value.serialNumber == serialNumber.value && r.value.location == location.value
        && Some(r.value.category) == CategoryFrom(category) && r.value.file == file)
    ensures r.Some? && category.None? ==> r.value.category == FixedAssets
  {
    if Present(name) && serialNumber.Some? && Present(location) then
      match CategoryFrom(category)
      case None => None
      case Some(c) => Some(Asset(name.value, serialNumber.value, c, location.value, serviceRecords, file))
    else None
  }

  /** The document `new Task({...}).save()` would store: task and assignee
      required, due date required and cast, priority in its enum. */
  function NewTask(task: Option<string>, assignedTo: Option<string>, dueDate: Option<Time>,
                   priority: Option<string>, taskDescription: Option<string>,
                   file: Option<string>): (r: Option<Task>)
    ensures r.Some? <==> (Present(task) && Present(assignedTo) && dueDate.Some?
                          && priority.Some? && ParsePriority(priority.value).Some?)
    ensures r.Some? ==> (ValidTask(r.value) && r.value.task == task.value
        && r.value.assignedTo == assignedTo.value && r.value.dueDate == dueDate.value
        && Some(r.value.priority) == ParsePriority(priority.value) && r.value.file == file)
  {
    if Present(task) && Present(assignedTo) && dueDate.Some? && priority.Some? then
      match ParsePriority(priority.value)
      case None => None
      case Some(p) => Some(Task(task.value, assignedTo.value, dueDate.value, p, taskDescription, file))
    else None
  }

  /** The document `new Report({ file }).save()` stores; None when `file`
      is null, which the required validator rejects. */
  function NewReport(file: Option<string>): (r: Option<Report>)
    ensures r.Some? <==> Present(file)
    ensures r.Some? ==> ValidReport(r.value) && r.value.file == file.value
  {
    if Present(file) then Some(Report(file.value)) else None
  }
}
