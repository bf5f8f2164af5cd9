/** The Request schema: the required fields, the status enumeration and its
    default, the attachment list, the creation time stamp, the optional
    completion time, rating (within [1, 5]) and review.  The link from a
    request to a service is the `serviceType` string; there is no `service`
    field, and no `contact` field either. */
module RequestModel {
  import opened Common

  datatype Status = Pending | Accepted | Completed

  function StatusName(s: Status): string {
    match s
    case Pending => "pending"
    case Accepted => "accepted"
    case Completed => "completed"
  }

  const DefaultStatus: Status := Pending

  /** The enum validator on `status`: the status a string names, if any. */
  function ParseStatus(s: string): (r: Option<Status>)
    ensures forall st :: r == Some(st) <==> StatusName(st) == s
  {
    if s == "pending" then Some(Pending)
    else if s == "accepted" then Some(Accepted)
    else if s == "completed" then Some(Completed)
    else None
  }

  const MinRating := 1.0
  const MaxRating := 5.0

  datatype Request = Request(
    user: Id,
    serviceType: string,
    date: Time,
    time: Time,
    description: string,
    location: string,
    attachments: seq<string>,
    status: Status,
    createdAt: Time,
    completedAt: Option<Time>,
    rating: Option<real>,
    review: Option<string>)

  /** A rating the `min`/`max` validators accept. */
  predicate RatingInRange(x: real) {
    MinRating <= x <= MaxRating
  }

  /** What the schema accepts in a stored request: the required strings are
      non-empty (the `required` validator rejects "") and a rating, when
      present, is within bounds.  `user`, `date`, `time` and `status` are
      always present by their types. */
  predicate ValidRequest(r: Request) {
    && r.serviceType != ""
    && r.description != ""
    && r.location != ""
    && (r.rating.Some? ==> RatingInRange(r.rating.value))
  }

  /** The document `new Request({...}).save()` stores, or None when saving
      fails: a required string is empty, or `date` or `time` did not cast to
      a Date (given here already cast, None for a failed cast).  The status
      starts at its default, `createdAt` at the current time, and the
      optional fields start absent. */
  function NewRequest(user: Id, serviceType: string, date: Option<Time>, time: Option<Time>,
                      description: string, location: string, attachments: seq<string>,
                      now: Time): (r: Option<Request>)
    ensures r.Some? <==> (serviceType != "" && description != "" && location != ""
                          && date.Some? && time.Some?)
    ensures r.Some? ==> ValidRequest(r.value)
    ensures r.Some? ==> (r.value.user == user && r.value.serviceType == serviceType
        && r.value.date == date.value && r.value.time == time.value
        && r.value.description == description && r.value.location == location
        && r.value.attachments == attachments)
    ensures r.Some? ==> (r.value.status == Pending && r.value.createdAt == now
        && r.value.completedAt.None? && r.value.rating.None? && r.value.review.None?)
  {
    if serviceType != "" && description != "" && location != "" && date.Some? && time.Some? then
      Some(Request(user, serviceType, date.value, time.value, description, location,
                   attachments, DefaultStatus, now, None, None, None))
    else None
  }
}
