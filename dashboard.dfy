/** `getDashboard`: the role policy, the query built from the query string,
    its validation, and the filtered, sorted and paginated page of requests
    with its totals.

    The controller filters on `service.provider` and `service.name`, fields
    of a service joined to each request; the Request schema has no `service`
    field, only the `serviceType` string.  The model keeps the predicate as
    the controller states it, over an abstract join `Request -> Option<Service>`. */
module Dashboard {
  import opened Common
  import opened UserModel
  import opened RequestModel
  import opened ServiceModel

  /** The query string of `GET /dashboard`; every parameter is optional. */
  datatype Params = Params(
    status: Option<string>,
    serviceType: Option<string>,
    startDate: Option<string>,
    endDate: Option<string>,
    sortBy: Option<string>,
    sortOrder: Option<string>,
    page: Option<string>,
    limit: Option<string>)

  /** The base predicate the role policy selects. */
  datatype Scope = OfProvider(provider: Id) | OfOwner(owner: Id)

  /** An inclusive range on `createdAt`. */
  datatype DateRange = DateRange(start: Time, end: Time)

  /** The Mongo filter the controller assembles key by key. */
  datatype Query = Query(
    scope: Scope,
    status: Option<string>,
    serviceName: Option<string>,
    createdAt: Option<DateRange>)

  datatype SortField = ByDate | ByStatus

  datatype Sorting = Sorting(field: SortField, descending: bool)

  /** Everything `find` and `countDocuments` are called with. */
  datatype Plan = Plan(
    role: Role,
    query: Query,
    sort: Option<Sorting>,
    page: int,
    limit: int,
    skip: int)

  /** An early response, or the plan the queries run with. */
  datatype Composition = Refused(code: int) | Planned(plan: Plan)

  /** The JSON response: an error, or the envelope with a page of records. */
  datatype Response =
    | Failed(code: int)
    | Page(role: Role, totalRequests: nat, totalPages: int, currentPage: int, requests: seq<Request>)

  const DefaultPage := 1
  const DefaultLimit := 10

  // ---------------------------------------------------------------- role policy

  /** Only service providers and individuals get a dashboard. */
  function ScopeOf(u: User): (r: Option<Scope>)
    ensures r.None? <==> u.role != ServiceProvider && u.role != Individual
  {
    if u.role == ServiceProvider then Some(OfProvider(u.id))
    else if u.role == Individual then Some(OfOwner(u.id))
    else None
  }

  // ------------------------------------------------------------- query builder

  /** The outcome of the `startDate`/`endDate` pair. */
  datatype DateCheck = NoRange | InRange(range: DateRange) | BadDate

  /** The range applies only when both dates are given; either failing to
      parse is a validation error. */
  function DateCheckOf(p: Params, host: Host): (r: DateCheck)
    ensures r.NoRange? <==> !(Present(p.startDate) && Present(p.endDate))
    ensures r.BadDate? <==> (Present(p.startDate) && Present(p.endDate)
                             && (host.parseDate(p.startDate.value).None? || host.parseDate(p.endDate.value).None?))
    ensures r.InRange? ==> r.range == DateRange(host.parseDate(p.startDate.value).value,
                                                host.parseDate(p.endDate.value).value)
  {
    if Present(p.startDate) && Present(p.endDate) then
      var start := host.parseDate(p.startDate.value);
      var end := host.parseDate(p.endDate.value);
      if start.None? || end.None? then BadDate else InRange(DateRange(start.value, end.value))
    else NoRange
  }

  /** The outcome of `sortBy`/`sortOrder`. */
  datatype SortCheck = Unsorted | SortedOn(sorting: Sorting) | BadSort

  function SortCheckOf(p: Params): (r: SortCheck)
    ensures r.Unsorted? <==> !Present(p.sortBy)
    ensures r.BadSort? <==> Present(p.sortBy) && p.sortBy.value != "date" && p.sortBy.value != "status"
    ensures r.SortedOn? ==> (r.sorting.descending <==> p.sortOrder == Some("desc"))
    ensures r.SortedOn? ==> (r.sorting.field == ByDate <==> p.sortBy.value == "date")
  {
    if Present(p.sortBy) then
      var descending := p.sortOrder == Some("desc");
      if p.sortBy.value == "date" then SortedOn(Sorting(ByDate, descending))
      else if p.sortBy.value == "status" then SortedOn(Sorting(ByStatus, descending))
      else BadSort
    else Unsorted
  }

  /** `parseInt(raw) || fallback`: NaN and 0 give the fallback. */
  function IntOr(raw: Option<string>, fallback: int, host: Host): (n: int)
    ensures fallback != 0 ==> n != 0
  {
    if raw.None? then fallback
    else
      match host.parseInt(raw.value)
      case None => fallback
      case Some(k) => if k == 0 then fallback else k
  }

  /** The role check, then the filters, the date check, the sort check and
      the pagination arithmetic, in the controller's order. */
  function Compose(caller: Option<User>, p: Params, host: Host): (r: Composition)
    ensures caller.None? ==> r == Refused(401)
    ensures caller.Some? && ScopeOf(caller.value).None? ==> r == Refused(403)
    ensures r.Planned? <==> (caller.Some? && ScopeOf(caller.value).Some?
                             && !DateCheckOf(p, host).BadDate? && !SortCheckOf(p).BadSort?)
    ensures (caller.Some? && ScopeOf(caller.value).Some?
             && (DateCheckOf(p, host).BadDate? || SortCheckOf(p).BadSort?)) ==> r == Refused(400)
    ensures r.Planned? ==> (
        && caller.Some?
        && r.plan.role == caller.value.role
        && r.plan.limit != 0
        && r.plan.skip == (r.plan.page - 1) * r.plan.limit
        && (caller.value.role == Individual ==> r.plan.query.scope == OfOwner(caller.value.id))
        && (caller.value.role == ServiceProvider ==> r.plan.query.scope == OfProvider(caller.value.id)))
  {
    if caller.None? then Refused(401)
    else
      var u := caller.value;
      match ScopeOf(u)
      case None => Refused(403)
      case Some(scope) =>
        var dates := DateCheckOf(p, host);
        var sorting := SortCheckOf(p);
        if dates.BadDate? then Refused(400)
        else if sorting.BadSort? then Refused(400)
        else
          var page := IntOr(p.page, DefaultPage, host);
          var limit := IntOr(p.limit, DefaultLimit, host);
          var query := Query(scope,
                             if Present(p.status) then p.status else None,
                             if Present(p.serviceType) then p.serviceType else None,
                             if dates.InRange? then Some(dates.range) else None);
          Planned(Plan(u.role, query,
                       if sorting.SortedOn? then Some(sorting.sorting) else None,
                       page, limit, (page - 1) * limit))
  }

  // -------------------------------------------------------- query execution

  /** Whether a request satisfies the query, `service` being the joined
      service of the request. */
  predicate Matches(q: Query, r: Request, join: Request -> Option<Service>, host: Host) {
    && (match q.scope
        case OfOwner(owner) => r.user == owner
        case OfProvider(provider) => join(r).Some? && join(r).value.provider == provider)
    && (q.status.Some? ==> StatusName(r.status) == q.status.value)
    && (q.serviceName.Some? ==> join(r).Some? && host.regexMatch(q.serviceName.value, join(r).value.name))
    && (q.createdAt.Some? ==> q.createdAt.value.start <= r.createdAt <= q.createdAt.value.end)
  }

  /** `Request.find(query)` before sorting: the matching records, each as
      often as in the collection, in collection order. */
  function Select(q: Query, rs: seq<Request>, join: Request -> Option<Service>, host: Host): (r: seq<Request>)
    ensures |r| <= |rs|
    ensures forall x :: multiset(r)[x] == if Matches(q, x, join, host) then multiset(rs)[x] else 0
  {
    if rs == [] then []
    else
      var rest := Select(q, rs[1..], join, host);
      assert rs == [rs[0]] + rs[1..];
      if Matches(q, rs[0], join, host) then [rs[0]] + rest else rest
  }

  /** Every selected record matches the query. */
  lemma SelectedMatch(q: Query, rs: seq<Request>, join: Request -> Option<Service>, host: Host, x: Request)
    requires x in Select(q, rs, join, host)
    ensures Matches(q, x, join, host) && x in rs
  {
    var r := Select(q, rs, join, host);
    assert multiset(r)[x] > 0;
  }

  /** A query that implies another selects no more records. */
  lemma {:induction false} SelectMonotone(q1: Query, q2: Query, rs: seq<Request>,
                                          join: Request -> Option<Service>, host: Host)
    requires forall x :: Matches(q1, x, join, host) ==> Matches(q2, x, join, host)
    ensures |Select(q1, rs, join, host)| <= |Select(q2, rs, join, host)|
  {
    if rs != [] {
      SelectMonotone(q1, q2, rs[1..], join, host);
    }
  }

  /** A query nothing satisfies selects nothing. */
  lemma SelectNothing(q: Query, rs: seq<Request>, join: Request -> Option<Service>, host: Host)
    requires forall x :: !Matches(q, x, join, host)
    ensures Select(q, rs, join, host) == []
  {
    var r := Select(q, rs, join, host);
    assert multiset(r) == multiset{};
  }

  /** The rank of a status in the order of its name as a string, which is
      the order MongoDB sorts the `status` strings in. */
  function StatusRank(s: Status): int {
    match s
    case Accepted => 0
    case Completed => 1
    case Pending => 2
  }

  /** String order by code point. */
  predicate StringBefore(a: string, b: string) {
    if a == [] then b != []
    else if b == [] then false
    else if a[0] != b[0] then a[0] < b[0]
    else StringBefore(a[1..], b[1..])
  }

  lemma StringBeforeIrreflexive(a: string)
    ensures !StringBefore(a, a)
  {
  }

  lemma StatusRankIsNameOrder(s: Status, t: Status)
    ensures StatusRank(s) < StatusRank(t) <==> StringBefore(StatusName(s), StatusName(t))
  {
    if s == t {
      StringBeforeIrreflexive(StatusName(s));
    } else {
      assert StatusName(Accepted)[0] == 'a';
      assert StatusName(Completed)[0] == 'c';
      assert StatusName(Pending)[0] == 'p';
    }
  }

  function SortKey(r: Request, f: SortField): int {
    match f
    case ByDate => r.date
    case ByStatus => StatusRank(r.status)
  }

  /** `a` may come before `b` under the sort order. */
  predicate InOrder(a: Request, b: Request, s: Sorting) {
    if s.descending then SortKey(a, s.field) >= SortKey(b, s.field)
    else SortKey(a, s.field) <= SortKey(b, s.field)
  }

  predicate SortedBy(rs: seq<Request>, s: Sorting) {
    forall i, j :: 0 <= i < j < |rs| ==> InOrder(rs[i], rs[j], s)
  }

  /** A record that may precede every record of a sorted sequence can be
      put in front of it. */
  lemma PrependSorted(y: Request, rest: seq<Request>, s: Sorting)
    requires SortedBy(rest, s)
    requires forall k :: 0 <= k < |rest| ==> InOrder(y, rest[k], s)
    ensures SortedBy([y] + rest, s)
  {
    var l := [y] + rest;
    forall i, j | 0 <= i < j < |l| ensures InOrder(l[i], l[j], s) {
      if i == 0 {
        assert l[j] == rest[j - 1];
      } else {
        assert l[i] == rest[i - 1] && l[j] == rest[j - 1];
      }
    }
  }

  /** Insert `x` into a sorted sequence ahead of the first record it may
      precede. */
  function Insert(x: Request, rs: seq<Request>, s: Sorting): (r: seq<Request>)
    requires SortedBy(rs, s)
    ensures SortedBy(r, s)
    ensures multiset(r) == multiset(rs) + multiset{x}
    ensures |r| == |rs| + 1
  {
    if rs == [] then [x]
    else if InOrder(x, rs[0], s) then [x] + rs
    else
      var rest := Insert(x, rs[1..], s);
      assert rs == [rs[0]] + rs[1..];
      assert forall k :: 0 <= k < |rest| ==> InOrder(rs[0], rest[k], s) by {
        forall k | 0 <= k < |rest| ensures InOrder(rs[0], rest[k], s) {
          assert rest[k] in multiset(rest);
          assert rest[k] == x || rest[k] in multiset(rs[1..]);
          if rest[k] != x {
            var j :| 1 <= j < |rs| && rs[j] == rest[k];
          }
        }
      }
      PrependSorted(rs[0], rest, s);
      [rs[0]] + rest
  }

  /** An insertion sort on the key; equal keys keep collection order. */
  function Sort(rs: seq<Request>, s: Sorting): (r: seq<Request>)
    ensures SortedBy(r, s)
    ensures multiset(r) == multiset(rs)
    ensures |r| == |rs|
  {
    if rs == [] then []
    else
      assert rs == [rs[0]] + rs[1..];
      Insert(rs[0], Sort(rs[1..], s), s)
  }

  /** `.sort(sortOptions)`: an empty sort object leaves collection order. */
  function Order(rs: seq<Request>, sort: Option<Sorting>): (r: seq<Request>)
    ensures multiset(r) == multiset(rs) && |r| == |rs|
    ensures sort.Some? ==> SortedBy(r, sort.value)
  {
    if sort.None? then rs else Sort(rs, sort.value)
  }

  function Abs(n: int): nat {
    if n < 0 then -n else n
  }

  function Min(a: int, b: int): int {
    if a <= b then a else b
  }

  /** `.skip(skip).limit(limit)`: a negative limit returns |limit| records
      in a single batch, as the MongoDB driver does. */
  function Window(rs: seq<Request>, skip: nat, limit: int): (w: seq<Request>)
    ensures |w| <= Abs(limit)
    ensures |w| == if skip >= |rs| then 0 else Min(Abs(limit), |rs| - skip)
    ensures forall i :: 0 <= i < |w| ==> w[i] == rs[skip + i]
  {
    if skip >= |rs| then [] else rs[skip..skip + Min(Abs(limit), |rs| - skip)]
  }

  /** A window of a sorted sequence is sorted. */
  lemma WindowSorted(rs: seq<Request>, s: Sorting, skip: nat, limit: int)
    requires SortedBy(rs, s)
    ensures SortedBy(Window(rs, skip, limit), s)
  {
    var w := Window(rs, skip, limit);
    forall i, j | 0 <= i < j < |w| ensures InOrder(w[i], w[j], s) {
      assert w[i] == rs[skip + i] && w[j] == rs[skip + j];
    }
  }

  /** `Math.ceil(a / b)`. */
  function CeilDiv(a: nat, b: int): int
    requires b != 0
  {
    if b > 0 then (a + b - 1) / b else -(a / -b)
  }

  /** `pages` pages of `limit` records hold `total` records, and one page
      fewer would not. */
  predicate PagesHold(pages: int, total: int, limit: int) {
    pages >= 0 && (pages - 1) * limit < total <= pages * limit
  }

  /** For a positive divisor the page count is the least number of pages
      of `b` records that hold `a` records. */
  lemma CeilDivIsCeiling(a: nat, b: int)
    requires b > 0
    ensures PagesHold(CeilDiv(a, b), a, b)
  {
    var q := (a + b - 1) / b;
    var m := (a + b - 1) % b;
    assert a + b - 1 == q * b + m && 0 <= m < b;
    assert q * b == a + b - 1 - m;
    assert (q - 1) * b == q * b - b;
  }

  /** Runs the plan: `find` with the filter, sort, skip and limit, then
      `countDocuments` with the same filter.  A negative skip is refused by
      the database, which the controller turns into a 500. */
  function Execute(plan: Plan, rs: seq<Request>, join: Request -> Option<Service>, host: Host): (r: Response)
    requires plan.limit != 0
    ensures r.Page? <==> plan.skip >= 0
    ensures r.Failed? ==> r.code == 500
    ensures r.Page? ==> r.role == plan.role && r.currentPage == plan.page
  {
    if plan.skip < 0 then Failed(500)
    else
      var matched := Select(plan.query, rs, join, host);
      Page(plan.role, |matched|, CeilDiv(|matched|, plan.limit), plan.page,
           Window(Order(matched, plan.sort), plan.skip, plan.limit))
  }

  /** The response of `getDashboard` for a caller (None when there is no
      authenticated user), a query string and the Request collection. */
  function DashboardOf(caller: Option<User>, p: Params, host: Host, rs: seq<Request>,
                       join: Request -> Option<Service>): Response
  {
    match Compose(caller, p, host)
    case Refused(code) => Failed(code)
    case Planned(plan) => Execute(plan, rs, join, host)
  }

  /** The handler, building the query and the sort object step by step. */
  method GetDashboard(caller: Option<User>, p: Params, host: Host, rs: seq<Request>,
                      join: Request -> Option<Service>) returns (resp: Response)
    ensures resp == DashboardOf(caller, p, host, rs, join)
    ensures caller.None? <==> resp == Failed(401)
  {
    if caller.None? {
      return Failed(401);
    }
    var u := caller.value;
    var query: Query;
    if u.role == ServiceProvider {
      query := Query(OfProvider(u.id), None, None, None);
    } else if u.role == Individual {
      query := Query(OfOwner(u.id), None, None, None);
    } else {
      return Failed(403);
    }
    if Present(p.status) {
      query := query.(status := p.status);
    }
    if Present(p.serviceType) {
      query := query.(serviceName := p.serviceType);
    }
    if Present(p.startDate) && Present(p.endDate) {
      var start := host.parseDate(p.startDate.value);
      var end := host.parseDate(p.endDate.value);
      if start.None? || end.None? {
        assert DateCheckOf(p, host).BadDate?;
        return Failed(400);
      }
      query := query.(createdAt := Some(DateRange(start.value, end.value)));
    }
    assert DateCheckOf(p, host) == if query.createdAt.Some? then InRange(query.createdAt.value) else NoRange;
    var sort: Option<Sorting> := None;
    if Present(p.sortBy) {
      var descending := p.sortOrder == Some("desc");
      if p.sortBy.value == "date" {
        sort := Some(Sorting(ByDate, descending));
      } else if p.sortBy.value == "status" {
        sort := Some(Sorting(ByStatus, descending));
      } else {
        assert SortCheckOf(p).BadSort?;
        return Failed(400);
      }
    }
    assert SortCheckOf(p) == if sort.Some? then SortedOn(sort.value) else Unsorted;
    var page := IntOr(p.page, DefaultPage, host);
    var limit := IntOr(p.limit, DefaultLimit, host);
    var skip := (page - 1) * limit;
    var plan := Plan(u.role, query, sort, page, limit, skip);
    assert Compose(caller, p, host) == Planned(plan);
    if skip < 0 {
      return Failed(500);
    }
    var matched := Select(query, rs, join, host);
    var requests := Window(Order(matched, sort), skip, limit);
    resp := Page(u.role, |matched|, CeilDiv(|matched|, limit), page, requests);
  }
}
