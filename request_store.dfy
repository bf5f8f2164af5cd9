/** The service-request handlers: creating a request, changing its status,
    attaching an image, submitting a review, and the two listings.  Each
    state-changing handler is specified by a function from the collection
    before the call to the status code and the collection after it; the
    `RequestStore` class holds the collection and its methods perform the
    handlers step by step against those functions. */
module RequestControllers {
  import opened Common
  import opened UserModel
  import opened RequestModel
  import opened ServiceModel

  /** Every stored request satisfies the schema. */
  predicate ValidStore(rs: map<Id, Request>) {
    forall id :: id in rs ==> ValidRequest(rs[id])
  }

  /** A handler's status code and the collection it leaves. */
  datatype Outcome = Outcome(code: int, requests: map<Id, Request>)

  /** Whether the notification sent after a write resolves or throws.  As
      the module is wired, the imported binding is the module object of the
      notification helper rather than the function it exports, so the call
      throws. */
  datatype NotifyOutcome = Sent | Threw

  const WiredNotify: NotifyOutcome := Threw

  // ------------------------------------------------------------ createRequest

  /** The body fields `createRequest` reads. */
  datatype RequestBody = RequestBody(
    serviceType: Option<string>,
    date: Option<string>,
    time: Option<string>,
    description: Option<string>,
    location: Option<string>,
    attachments: Option<seq<string>>)

  /** The guard: every one of the five fields is truthy. */
  predicate BodyComplete(b: RequestBody) {
    && Present(b.serviceType) && Present(b.date) && Present(b.time)
    && Present(b.description) && Present(b.location)
  }

  /** `userProfile.phone || userProfile.email`: the phone when it is not
      empty, otherwise the email.  The schema has no `contact` path, so the
      value never reaches the stored document. */
  function Contact(u: User): (c: string)
    ensures u.phone != "" ==> c == u.phone
    ensures u.phone == "" ==> c == u.email
    ensures c == "" <==> u.phone == "" && u.email == ""
  {
    if u.phone != "" then u.phone else u.email
  }

  /** A user the schema accepts always has a phone, so the contact is the
      phone. */
  lemma ContactOfValidUserIsPhone(u: User)
    requires ValidUser(u)
    ensures Contact(u) == u.phone
  {
  }

  /** The attachments the document starts with: the body's array, or an
      empty one when the body has none. */
  function AttachmentsOf(b: RequestBody): seq<string> {
    if b.attachments.Some? then b.attachments.value else []
  }

  /** The document built from a complete body: `date` and `time` cast to
      Dates, a missing `attachments` array defaulted to empty.  None when a
      date does not cast, which fails the save. */
  function Drafted(caller: User, b: RequestBody, host: Host, now: Time): (r: Option<Request>)
    requires BodyComplete(b)
    ensures r.Some? <==> host.castDate(b.date.value).Some? && host.castDate(b.time.value).Some?
    ensures r.Some? ==> (
        && r.value.user == caller.id
        && r.value.serviceType == b.serviceType.value
        && r.value.description == b.description.value
        && r.value.location == b.location.value
        && r.value.date == host.castDate(b.date.value).value
        && r.value.time == host.castDate(b.time.value).value
        && r.value.attachments == AttachmentsOf(b)
        && r.value.status == Pending && r.value.createdAt == now
        && r.value.completedAt.None? && r.value.rating.None? && r.value.review.None?)
  {
    NewRequest(caller.id, b.serviceType.value, host.castDate(b.date.value),
               host.castDate(b.time.value), b.description.value, b.location.value,
               AttachmentsOf(b), now)
  }

  /** `createRequest`: 400 and nothing stored for an incomplete body; 500
      and nothing stored when a date does not cast or the id is taken;
      otherwise the new request is stored under `id`, owned by the caller,
      and the code is 201 when the notification is sent and 500 when it
      throws. */
  function Create(rs: map<Id, Request>, id: Id, caller: User, b: RequestBody, host: Host,
                  now: Time, notify: NotifyOutcome): (o: Outcome)
    ensures !BodyComplete(b) ==> o == Outcome(400, rs)
    ensures o.code == 400 <==> !BodyComplete(b)
    ensures o.code == 201 || o.code == 400 || o.code == 500
    ensures o.requests != rs <==> (BodyComplete(b) && id !in rs
                                   && host.castDate(b.date.value).Some?
                                   && host.castDate(b.time.value).Some?)
    ensures o.requests != rs ==> (
        && id in o.requests && o.requests == rs[id := o.requests[id]]
        && o.requests[id].user == caller.id
        && o.requests[id].serviceType == b.serviceType.value
        && o.requests[id].description == b.description.value
        && o.requests[id].location == b.location.value
        && o.requests[id].date == host.castDate(b.date.value).value
        && o.requests[id].time == host.castDate(b.time.value).value
        && o.requests[id].attachments == AttachmentsOf(b)
        && o.requests[id].status == Pending
        && o.requests[id].createdAt == now
        && o.requests[id].completedAt.None? && o.requests[id].rating.None?
        && o.requests[id].review.None?
        && Some(o.requests[id]) == Drafted(caller, b, host, now))
    ensures o.code == 201 <==> (o.requests != rs && notify == Sent)
    ensures ValidStore(rs) ==> ValidStore(o.requests)
  {
    if !BodyComplete(b) then Outcome(400, rs)
    else
      match Drafted(caller, b, host, now)
      case None => Outcome(500, rs)
      case Some(r) =>
        if id in rs then Outcome(500, rs)
        else
          assert rs[id := r] != rs by { assert id in rs[id := r]; }
          Outcome(if notify == Sent then 201 else 500, rs[id := r])
  }

  /** As wired, a request that is stored is still answered with 500, and no
      call is ever answered with 201. */
  lemma WiredCreateNever201(rs: map<Id, Request>, id: Id, caller: User, b: RequestBody,
                            host: Host, now: Time)
    ensures Create(rs, id, caller, b, host, now, WiredNotify).code != 201
    ensures Create(rs, id, caller, b, host, now, WiredNotify).requests != rs ==>
              Create(rs, id, caller, b, host, now, WiredNotify).code == 500
  {
  }

  // ------------------------------------------------------ updateRequestStatus

  /** `updateRequestStatus`: 404 for an unknown id, 403 for a caller who
      does not own the request, 500 when the enum validator refuses the
      value on save; otherwise only the status changes, to the value named,
      and the code is 200.  Every error leaves the collection as it was. */
  function StatusUpdate(rs: map<Id, Request>, id: Id, caller: Id, status: string): (o: Outcome)
    ensures id !in rs ==> o == Outcome(404, rs)
    ensures id in rs && rs[id].user != caller ==> o == Outcome(403, rs)
    ensures o.code == 200 <==> (id in rs && rs[id].user == caller && ParseStatus(status).Some?)
    ensures id in rs && rs[id].user == caller && ParseStatus(status).None? ==> o == Outcome(500, rs)
    ensures o.code != 200 ==> o.requests == rs
    ensures o.code == 200 ==> (
        && id in o.requests && o.requests == rs[id := o.requests[id]]
        && o.requests[id] == rs[id].(status := o.requests[id].status)
        && StatusName(o.requests[id].status) == status)
    ensures o.code in {200, 403, 404, 500}
    ensures ValidStore(rs) ==> ValidStore(o.requests)
  {
    if id !in rs then Outcome(404, rs)
    else if rs[id].user != caller then Outcome(403, rs)
    else
      match ParseStatus(status)
      case None => Outcome(500, rs)
      case Some(st) => Outcome(200, rs[id := rs[id].(status := st)])
  }

  // -------------------------------------------------------- addImageToRequest

  /** `${protocol}://${host}/uploads/${path}` */
  function ImageUrl(protocol: string, hostName: string, path: string): (u: string)
    ensures |u| == |protocol| + |hostName| + |path| + 12
    ensures u[..|protocol|] == protocol && u[|u| - |path|..] == path
    ensures u[|protocol|..|u| - |path|] == "://" + hostName + "/uploads/"
  {
    protocol + "://" + hostName + "/uploads/" + path
  }

  /** `addImageToRequest`: the same 404 and 403 rules, 400 without a file;
      otherwise the URL of the upload is appended to the attachments, every
      earlier attachment and every other field kept, and the code is 200. */
  function ImageAdded(rs: map<Id, Request>, id: Id, caller: Id, file: Option<Upload>,
                      protocol: string, hostName: string): (o: Outcome)
    ensures id !in rs ==> o == Outcome(404, rs)
    ensures id in rs && rs[id].user != caller ==> o == Outcome(403, rs)
    ensures o.code == 200 <==> (id in rs && rs[id].user == caller && file.Some?)
    ensures o.code == 400 <==> (id in rs && rs[id].user == caller && file.None?)
    ensures o.code != 200 ==> o.requests == rs
    ensures o.code == 200 ==> (
        && id in o.requests && o.requests == rs[id := o.requests[id]]
        && |o.requests[id].attachments| == |rs[id].attachments| + 1
        && o.requests[id].attachments[..|rs[id].attachments|] == rs[id].attachments
        && o.requests[id].attachments[|rs[id].attachments|] == ImageUrl(protocol, hostName, file.value.path)
        && o.requests[id] == rs[id].(attachments := o.requests[id].attachments))
    ensures ValidStore(rs) ==> ValidStore(o.requests)
  {
    if id !in rs then Outcome(404, rs)
    else if rs[id].user != caller then Outcome(403, rs)
    else if file.None? then Outcome(400, rs)
    else
      var r := rs[id];
      Outcome(200, rs[id := r.(attachments := r.attachments + [ImageUrl(protocol, hostName, file.value.path)])])
  }

  // ------------------------------------------------------------- submitReview

  /** The range guard `rating < 1 || rating > 5`: a rating that is not a
      number makes both comparisons false and passes it. */
  predicate RatingRejected(rating: Field, host: Host) {
    var x := NumberOf(rating, host);
    x.Some? && (x.value < MinRating || x.value > MaxRating)
  }

  /** `submitReview`: 400 for a falsy review or rating, 400 for a numeric
      rating outside [1, 5], 404 for an unknown id (any caller may review
      any request); 500 with nothing stored when the rating does not cast
      to a number.  Otherwise review, rating, status `completed` and the
      completion time are stored, and the reply is still 500, because the
      provider's token is looked up through a function that is never
      defined. */
  function Reviewed(rs: map<Id, Request>, id: Id, review: Option<string>, rating: Option<Field>,
                    host: Host, now: Time): (o: Outcome)
    ensures !Present(review) || !FieldPresent(rating) ==> o == Outcome(400, rs)
    ensures FieldPresent(rating) && RatingRejected(rating.value, host) ==> o == Outcome(400, rs)
    ensures o.code == 404 <==> (Present(review) && FieldPresent(rating)
                                && !RatingRejected(rating.value, host) && id !in rs)
    ensures o.code == 400 || o.code == 404 || o.code == 500
    ensures o.code == 500 <==> (Present(review) && FieldPresent(rating)
                                && !RatingRejected(rating.value, host) && id in rs)
    ensures o.code == 500 && NumberOf(rating.value, host).Some? ==> (
        && o.requests == rs[id := rs[id].(review := review, rating := NumberOf(rating.value, host),
                                          status := Completed, completedAt := Some(now))]
        && RatingInRange(NumberOf(rating.value, host).value))
    ensures o.code != 500 || NumberOf(rating.value, host).None? ==> o.requests == rs
    ensures ValidStore(rs) ==> ValidStore(o.requests)
  {
    if !Present(review) || !FieldPresent(rating) then Outcome(400, rs)
    else if RatingRejected(rating.value, host) then Outcome(400, rs)
    else if id !in rs then Outcome(404, rs)
    else
      match NumberOf(rating.value, host)
      case None => Outcome(500, rs)
      case Some(x) =>
        var r := rs[id].(review := review, rating := Some(x), status := Completed, completedAt := Some(now));
        Outcome(500, rs[id := r])
  }

  /** Whenever a review is stored the caller is told it failed. */
  lemma ReviewReplyIsAlways500OnSuccess(rs: map<Id, Request>, id: Id, review: Option<string>,
                                        rating: Option<Field>, host: Host, now: Time)
    requires Present(review) && FieldPresent(rating) && !RatingRejected(rating.value, host)
    requires id in rs && NumberOf(rating.value, host).Some?
    ensures Reviewed(rs, id, review, rating, host, now).code == 500
    ensures Reviewed(rs, id, review, rating, host, now).requests[id].status == Completed
  {
  }

  /** A rating of 6 is refused with 400 and nothing changes; a rating of 3
      with a review completes the request and stamps its completion time. */
  lemma ReviewScenario(rs: map<Id, Request>, id: Id, text: string, host: Host, now: Time)
    requires text != "" && id in rs
    ensures Reviewed(rs, id, Some(text), Some(Num(6.0)), host, now) == Outcome(400, rs)
    ensures var after := Reviewed(rs, id, Some(text), Some(Num(3.0)), host, now).requests;
            && id in after && after[id].status == Completed && after[id].completedAt == Some(now)
            && after[id].rating == Some(3.0) && after[id].review == Some(text)
  {
  }

  // -------------------------------------------------------------- listings

  /** The fields `.select(...)` keeps, with the id and the owner
      (`contact` is selected but the schema has no such path). */
  datatype Listed = Listed(
    id: Id,
    user: Id,
    serviceType: string,
    date: Time,
    time: Time,
    location: string,
    status: Status,
    attachments: seq<string>,
    createdAt: Time)

  function View(id: Id, r: Request): Listed {
    Listed(id, r.user, r.serviceType, r.date, r.time, r.location, r.status, r.attachments, r.createdAt)
  }

  /** `getUserRequests`: the caller's requests, and only those. */
  function UserRequests(rs: map<Id, Request>, caller: Id): (l: map<Id, Listed>)
    ensures forall id :: id in l <==> id in rs && rs[id].user == caller
    ensures forall id :: id in l ==> l[id] == View(id, rs[id]) && l[id].user == caller
  {
    map id | id in rs && rs[id].user == caller :: View(id, rs[id])
  }

  /** The ids of the caller's services, `services.map(s => s._id)`. */
  function ServiceIds(services: map<Id, Service>, caller: Id): (ids: set<Id>)
    ensures forall sid :: sid in ids <==> sid in services && services[sid].provider == caller
  {
    set sid | sid in services && services[sid].provider == caller
  }

  /** `getProviderRequests`: the requests whose `serviceType` is the id of
      one of the caller's services, and only those. */
  function ProviderRequests(rs: map<Id, Request>, services: map<Id, Service>, caller: Id): (l: map<Id, Listed>)
    ensures forall id :: id in l <==> (id in rs && rs[id].serviceType in services
                                       && services[rs[id].serviceType].provider == caller)
    ensures forall id :: id in l ==> l[id] == View(id, rs[id])
  {
    var ids := ServiceIds(services, caller);
    map id | id in rs && rs[id].serviceType in ids :: View(id, rs[id])
  }

  /** Every stored request is listed for its owner and for nobody else. */
  lemma ListedForOwnerOnly(rs: map<Id, Request>, id: Id, caller: Id)
    requires id in rs
    ensures id in UserRequests(rs, caller) <==> caller == rs[id].user
  {
  }

  /** A request created by `caller` shows up in the caller's listing with
      the body's values and status `pending`; every other user's listing is
      what it was. */
  lemma CreatedIsListed(rs: map<Id, Request>, id: Id, caller: User, b: RequestBody, host: Host,
                        now: Time, notify: NotifyOutcome, other: Id)
    requires Create(rs, id, caller, b, host, now, notify).requests != rs
    requires other != caller.id
    ensures var after := Create(rs, id, caller, b, host, now, notify).requests;
            && id in UserRequests(after, caller.id)
            && UserRequests(after, caller.id)[id].serviceType == b.serviceType.value
            && UserRequests(after, caller.id)[id].status == Pending
            && UserRequests(after, other) == UserRequests(rs, other)
  {
    var after := Create(rs, id, caller, b, host, now, notify).requests;
    var r := after[id];
    assert after == rs[id := r] && r.user == caller.id;
    ListingIgnoresOthers(rs, id, r, other);
  }

  /** Storing a record of one user leaves another user's listing alone. */
  lemma ListingIgnoresOthers(rs: map<Id, Request>, id: Id, r: Request, other: Id)
    requires r.user != other
    requires id in rs ==> rs[id].user != other
    ensures UserRequests(rs[id := r], other) == UserRequests(rs, other)
  {
    var l, l0 := UserRequests(rs[id := r], other), UserRequests(rs, other);
    assert l.Keys == l0.Keys;
  }

  /** A status update changes nobody's listing other than in the status of
      the one request. */
  lemma StatusUpdateKeepsListings(rs: map<Id, Request>, id: Id, caller: Id, status: string, who: Id)
    requires StatusUpdate(rs, id, caller, status).code == 200
    ensures var after := StatusUpdate(rs, id, caller, status).requests;
            && UserRequests(after, who).Keys == UserRequests(rs, who).Keys
            && (forall k :: k in UserRequests(rs, who) && k != id ==>
                  UserRequests(after, who)[k] == UserRequests(rs, who)[k])
  {
    var after := StatusUpdate(rs, id, caller, status).requests;
    assert after == rs[id := after[id]];
    assert after[id].user == rs[id].user;
  }

  // ------------------------------------------------------------------ store

  /** The Request collection. */
  class RequestStore {
    var requests: map<Id, Request>

    ghost predicate Valid()
      reads this
    {
      ValidStore(requests)
    }

    constructor()
      ensures requests == map[] && Valid()
    {
      requests := map[];
    }

    /** Builds and saves the document, then notifies. */
    method CreateRequest(id: Id, caller: User, b: RequestBody, host: Host, now: Time,
                         notify: NotifyOutcome) returns (code: int)
      requires Valid()
      modifies this
      ensures Valid()
      ensures Outcome(code, requests) == Create(old(requests), id, caller, b, host, now, notify)
    {
      if !BodyComplete(b) {
        return 400;
      }
      // The handler computes the contact, which the schema then drops.
      var contact := Contact(caller);
      var attachments := AttachmentsOf(b);
      var doc := NewRequest(caller.id, b.serviceType.value, host.castDate(b.date.value),
                            host.castDate(b.time.value), b.description.value, b.location.value,
                            attachments, now);
      if doc.None? || id in requests {
        return 500;
      }
      requests := requests[id := doc.value];
      if notify == Threw {
        return 500;
      }
      return 201;
    }

    /** Loads the request, checks the owner, sets the status and saves. */
    method UpdateRequestStatus(id: Id, caller: Id, status: string) returns (code: int)
      requires Valid()
      modifies this
      ensures Valid()
      ensures Outcome(code, requests) == StatusUpdate(old(requests), id, caller, status)
    {
      if id !in requests {
        return 404;
      }
      var request := requests[id];
      if request.user != caller {
        return 403;
      }
      var st := ParseStatus(status);
      if st.None? {
        return 500;
      }
      request := request.(status := st.value);
      requests := requests[id := request];
      code := 200;
    }

    /** Loads the request, checks the owner, pushes the URL and saves. */
    method AddImageToRequest(id: Id, caller: Id, file: Option<Upload>, protocol: string,
                             hostName: string) returns (code: int)
      requires Valid()
      modifies this
      ensures Valid()
      ensures Outcome(code, requests) == ImageAdded(old(requests), id, caller, file, protocol, hostName)
    {
      if id !in requests {
        return 404;
      }
      var request := requests[id];
      if request.user != caller {
        return 403;
      }
      if file.None? {
        return 400;
      }
      var url := ImageUrl(protocol, hostName, file.value.path);
      request := request.(attachments := request.attachments + [url]);
      requests := requests[id := request];
      code := 200;
    }

    /** Checks the body, loads the request, sets the review fields, saves,
      and then fails on the token lookup. */
    method SubmitReview(id: Id, review: Option<string>, rating: Option<Field>, host: Host,
                        now: Time) returns (code: int)
      requires Valid()
      modifies this
      ensures Valid()
      ensures Outcome(code, requests) == Reviewed(old(requests), id, review, rating, host, now)
    {
      if !Present(review) || !FieldPresent(rating) {
        return 400;
      }
      if RatingRejected(rating.value, host) {
        return 400;
      }
      if id !in requests {
        return 404;
      }
      var cast := NumberOf(rating.value, host);
      if cast.None? {
        return 500;
      }
      var request := requests[id];
      request := request.(review := review, rating := cast, status := Completed,
                          completedAt := Some(now));
      requests := requests[id := request];
      code := 500;
    }
  }
}
