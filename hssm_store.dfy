/** The HSSM logging handlers: incidents, assets, tasks, the meter-reading
    accumulator and reports, each with its listing.  Every handler catches
    its own errors and answers 500. */
module HssmController {
  import opened Common
  import opened HssmModel

  /** A handler's status code and the collection it leaves. */
  datatype Stored<T> = Stored(code: int, docs: map<Id, T>)

  /** Inserting a validated document under a fresh id: 201, or 500 with
      nothing stored when validation failed or the id is taken. */
  function Insert<T>(docs: map<Id, T>, id: Id, doc: Option<T>): (o: Stored<T>)
    ensures o.code == 201 <==> doc.Some? && id !in docs
    ensures o.code != 201 ==> o == Stored(500, docs)
    ensures o.code == 201 ==> o.docs == docs[id := doc.value]
  {
    if doc.None? || id in docs then Stored(500, docs)
    else Stored(201, docs[id := doc.value])
  }

  /** The cast a required Date path applies: an empty or missing value is
      null and fails `required`, anything else goes through Mongoose's Date
      cast. */
  function DateOf(d: Option<string>, host: Host): (t: Option<Time>)
    ensures t.Some? ==> Present(d) && host.castDate(d.value) == t
    ensures Present(d) ==> t == host.castDate(d.value)
  {
    if Present(d) then host.castDate(d.value) else None
  }

  /** `req.file ? req.file.filename : null` */
  function FileName(file: Option<Upload>): (n: Option<string>)
    ensures n.Some? <==> file.Some?
    ensures n.Some? ==> n.value == file.value.filename
  {
    if file.Some? then Some(file.value.filename) else None
  }

  // ---------------------------------------------------------------- incidents

  /** The body fields `createIncident` destructures. */
  datatype IncidentBody = IncidentBody(department: Option<string>, title: Option<string>,
                                       priority: Option<string>, status: Option<string>,
                                       date: Option<string>)

  /** `createIncident`: the document validated from department, title,
      priority, the cast date and the uploaded file name is stored and the
      code is 201; otherwise 500 and nothing stored. */
  function IncidentCreated(incs: map<Id, Incident>, id: Id, b: IncidentBody, file: Option<Upload>,
                           host: Host): (o: Stored<Incident>)
    ensures o.code == 201 <==> (id !in incs && Present(b.department) && Present(b.title)
                                && b.priority.Some? && ParsePriority(b.priority.value).Some?
                                && DateOf(b.date, host).Some?)
    ensures o.code != 201 ==> o == Stored(500, incs)
    ensures o.code == 201 ==> (
        && id in o.docs && o.docs == incs[id := o.docs[id]]
        && o.docs[id].department == b.department.value && o.docs[id].title == b.title.value
        && Some(o.docs[id].priority) == ParsePriority(b.priority.value)
        && o.docs[id].date == DateOf(b.date, host).value
        && o.docs[id].file == FileName(file) && o.docs[id].description.None?
        && Some(o.docs[id]) == NewIncident(b.department, b.title, b.priority, DateOf(b.date, host),
                                           FileName(file)))
    ensures (forall k :: k in incs ==> ValidIncident(incs[k])) ==>
              forall k :: k in o.docs ==> ValidIncident(o.docs[k])
  {
    Insert(incs, id, NewIncident(b.department, b.title, b.priority, DateOf(b.date, host), FileName(file)))
  }

  /** The `status` in the body has no effect on what is stored. */
  lemma IncidentStatusIgnored(incs: map<Id, Incident>, id: Id, b: IncidentBody, status: Option<string>,
                              file: Option<Upload>, host: Host)
    ensures IncidentCreated(incs, id, b.(status := status), file, host) == IncidentCreated(incs, id, b, file, host)
  {
  }

  // ----------------------------------------------------------- meter readings

  /** Appending through `findOneAndUpdate({}, {$push}, {upsert: true})`:
      the reading goes at the end of the first document's list; with no
      document, one is created holding just this reading. */
  function Pushed(ms: seq<MeterReadings>, r: Reading): (after: seq<MeterReadings>)
    ensures |after| == if ms == [] then 1 else |ms|
    ensures ms == [] ==> after == [MeterReadings([r])]
    ensures ms != [] ==> (
        && after[0].readings == ms[0].readings + [r]
        && after[1..] == ms[1..])
  {
    if ms == [] then [MeterReadings([r])]
    else [MeterReadings(ms[0].readings + [r])] + ms[1..]
  }

  /** `createMeterReading`: 400 with nothing stored when location, reading
      or date is falsy (a reading of 0 included); 500 with nothing stored
      when the reading is not a number or the date does not cast; otherwise
      the reading is pushed and the code is 201. */
  function MeterReadingCreated(ms: seq<MeterReadings>, location: Option<string>, reading: Option<Field>,
                               date: Option<string>, host: Host): (o: (int, seq<MeterReadings>))
    ensures o.0 == 400 <==> !Present(location) || !FieldPresent(reading) || !Present(date)
    ensures o.0 == 201 <==> (Present(location) && FieldPresent(reading) && Present(date)
                             && CastNumber(reading.value, host).Some? && host.castDate(date.value).Some?)
    ensures o.0 == 400 || o.0 == 500 || o.0 == 201
    ensures o.0 != 201 ==> o.1 == ms
    ensures o.0 == 201 ==> o.1 == Pushed(ms, Reading(location.value, CastNumber(reading.value, host).value,
                                                      host.castDate(date.value).value))
  {
    if !Present(location) || !FieldPresent(reading) || !Present(date) then (400, ms)
    else
      match (CastNumber(reading.value, host), host.castDate(date.value))
      case (Some(x), Some(t)) => (201, Pushed(ms, Reading(location.value, x, t)))
      case _ => (500, ms)
  }

  /** A numeric reading of 0 is refused by the truthiness guard. */
  lemma ZeroReadingRejected(ms: seq<MeterReadings>, location: Option<string>, date: Option<string>,
                            host: Host)
    ensures MeterReadingCreated(ms, location, Some(Num(0.0)), date, host) == (400, ms)
  {
  }

  /** The string "0" passes the same guard, and the reading it casts to,
      0, is stored. */
  lemma StringZeroReadingStored(ms: seq<MeterReadings>, location: string, date: string, host: Host)
    requires location != "" && date != ""
    requires host.toNumber("0") == Some(0.0) && host.castDate(date).Some?
    ensures MeterReadingCreated(ms, Some(location), Some(Text("0")), Some(date), host)
            == (201, Pushed(ms, Reading(location, 0.0, host.castDate(date).value)))
  {
  }

  /** Earlier readings are kept, in order, and the new one comes last. */
  lemma PushKeepsEarlierReadings(ms: seq<MeterReadings>, r: Reading)
    ensures Pushed(ms, r)[0].readings[..|Pushed(ms, r)[0].readings| - 1]
            == (if ms == [] then [] else ms[0].readings)
    ensures Pushed(ms, r)[0].readings[|Pushed(ms, r)[0].readings| - 1] == r
  {
  }

  /** The upsert never creates a second document: a collection that holds
      at most one keeps holding at most one, and every reading it stores is
      valid when the ones before were. */
  lemma PushKeepsSingleton(ms: seq<MeterReadings>, r: Reading)
    requires |ms| <= 1 && ValidReading(r)
    requires forall i :: 0 <= i < |ms| ==> ValidMeterReadings(ms[i])
    ensures |Pushed(ms, r)| == 1
    ensures ValidMeterReadings(Pushed(ms, r)[0])
  {
    var after := Pushed(ms, r);
    if ms != [] {
      assert ValidMeterReadings(ms[0]);
      forall i | 0 <= i < |after[0].readings| ensures ValidReading(after[0].readings[i]) {
        if i < |ms[0].readings| {
          assert after[0].readings[i] == ms[0].readings[i];
        }
      }
    }
  }

  // ------------------------------------------------------------------ reports

  /** `createReport`: the report stores the uploaded file name and the code
      is 201; without a file the required validator fails and the code is
      500 with nothing stored. */
  function ReportCreated(rs: map<Id, Report>, id: Id, file: Option<Upload>): (o: Stored<Report>)
    ensures o.code == 201 <==> (id !in rs && file.Some? && file.value.filename != "")
    ensures o.code != 201 ==> o == Stored(500, rs)
    ensures o.code == 201 ==> o.docs == rs[id := Report(file.value.filename)]
  {
    Insert(rs, id, NewReport(FileName(file)))
  }

  // -------------------------------------------------------------------- store

  /** The five HSSM collections. */
  class HssmStore {
    var incidents: map<Id, Incident>
    var assets: map<Id, Asset>
    var tasks: map<Id, Task>
    var meterReadings: seq<MeterReadings>
    var reports: map<Id, Report>

    /** Every document satisfies its schema, and the meter-reading
        collection holds at most the one upserted document. */
    ghost predicate Valid()
      reads this
    {
      && (forall k :: k in incidents ==> ValidIncident(incidents[k]))
      && (forall k :: k in assets ==> ValidAsset(assets[k]))
      && (forall k :: k in tasks ==> ValidTask(tasks[k]))
      && |meterReadings| <= 1
      && (forall i :: 0 <= i < |meterReadings| ==> ValidMeterReadings(meterReadings[i]))
      && (forall k :: k in reports ==> ValidReport(reports[k]))
    }

    constructor()
      ensures Valid()
      ensures incidents == map[] && assets == map[] && tasks == map[]
      ensures meterReadings == [] && reports == map[]
    {
      incidents, assets, tasks := map[], map[], map[];
      meterReadings, reports := [], map[];
    }

    /** Builds the incident from the body (leaving `status` aside) and
        saves it. */
    method CreateIncident(id: Id, b: IncidentBody, file: Option<Upload>, host: Host) returns (code: int)
      requires Valid()
      modifies this
      ensures Valid()
      ensures Stored(code, incidents) == IncidentCreated(old(incidents), id, b, file, host)
      ensures assets == old(assets) && tasks == old(tasks)
      ensures meterReadings == old(meterReadings) && reports == old(reports)
    {
      var name := if file.Some? then Some(file.value.filename) else None;
      var doc := NewIncident(b.department, b.title, b.priority, DateOf(b.date, host), name);
      if doc.None? || id in incidents {
        return 500;
      }
      incidents := incidents[id := doc.value];
      code := 201;
    }

    /** The object literal names `serviceRecords`, which is declared
        nowhere, so evaluating it throws before anything is built: 500, and
        no collection changes. */
    method CreateAsset(id: Id, name: Option<string>, serialNumber: Option<Field>,
                       category: Option<string>, location: Option<string>, file: Option<Upload>)
      returns (code: int)
      ensures code == 500
    {
      code := 500;
    }

    /** Likewise `taskDescription` is declared nowhere: 500, nothing saved. */
    method CreateTask(id: Id, task: Option<string>, assignedTo: Option<string>, dueDate: Option<string>,
                      priority: Option<string>, file: Option<Upload>)
      returns (code: int)
      ensures code == 500
    {
      code := 500;
    }

    /** Checks the three fields, then pushes with upsert. */
    method CreateMeterReading(location: Option<string>, reading: Option<Field>, date: Option<string>,
                              host: Host) returns (code: int)
      requires Valid()
      modifies this
      ensures Valid()
      ensures (code, meterReadings) == MeterReadingCreated(old(meterReadings), location, reading, date, host)
      ensures incidents == old(incidents) && assets == old(assets) && tasks == old(tasks)
      ensures reports == old(reports)
    {
      if !Present(location) || !FieldPresent(reading) || !Present(date) {
        return 400;
      }
      var x := CastNumber(reading.value, host);
      var t := host.castDate(date.value);
      if x.None? || t.None? {
        return 500;
      }
      var r := Reading(location.value, x.value, t.value);
      PushKeepsSingleton(meterReadings, r);
      if |meterReadings| == 0 {
        meterReadings := [MeterReadings([r])];
      } else {
        meterReadings := [MeterReadings(meterReadings[0].readings + [r])] + meterReadings[1..];
      }
      code := 201;
    }

    /** Saves a report naming the uploaded file. */
    method CreateReport(id: Id, file: Option<Upload>) returns (code: int)
      requires Valid()
      modifies this
      ensures Valid()
      ensures Stored(code, reports) == ReportCreated(old(reports), id, file)
      ensures incidents == old(incidents) && assets == old(assets) && tasks == old(tasks)
      ensures meterReadings == old(meterReadings)
    {
      var doc := NewReport(if file.Some? then Some(file.value.filename) else None);
      if doc.None? || id in reports {
        return 500;
      }
      reports := reports[id := doc.value];
      code := 201;
    }
  }

  /** An incident that is stored shows up in the unfiltered listing, next
      to every incident that was there before. */
  lemma CreatedIncidentIsListed(incs: map<Id, Incident>, id: Id, b: IncidentBody,
                                file: Option<Upload>, host: Host)
    requires IncidentCreated(incs, id, b, file, host).code == 201
    ensures var after := IncidentCreated(incs, id, b, file, host).docs;
            && (id, after[id]) in Documents(after)
            && |Documents(after)| == |Documents(incs)| + 1
            && forall e :: e in Documents(incs) ==> e in Documents(after)
  {
    var after := IncidentCreated(incs, id, b, file, host).docs;
    assert id !in incs;
    assert after.Keys == incs.Keys + {id};
  }
}
