/** What `getDashboard` promises, stated over the response the model gives
    for every caller, query string and collection. */
module DashboardProperties {
  import opened Common
  import opened UserModel
  import opened RequestModel
  import opened ServiceModel
  import opened Dashboard

  /** Without an authenticated user the answer is 401, whatever the query
      string and the collection. */
  lemma NoCallerUnauthorized(p: Params, host: Host, rs: seq<Request>, join: Request -> Option<Service>)
    ensures DashboardOf(None, p, host, rs, join) == Failed(401)
  {
  }

  /** Every role other than `service-provider` and `individual`, `admin`
      included, gets 403 before any parameter is looked at or any query
      runs. */
  lemma OtherRolesForbidden(u: User, p: Params, host: Host, rs: seq<Request>, join: Request -> Option<Service>)
    requires u.role != ServiceProvider && u.role != Individual
    ensures DashboardOf(Some(u), p, host, rs, join) == Failed(403)
  {
  }

  /** A page is the window of the ordered matches of the composed plan. */
  lemma PageShape(caller: Option<User>, p: Params, host: Host, rs: seq<Request>,
                  join: Request -> Option<Service>)
    requires DashboardOf(caller, p, host, rs, join).Page?
    ensures Compose(caller, p, host).Planned?
    ensures var plan := Compose(caller, p, host).plan;
            var matched := Select(plan.query, rs, join, host);
            && plan.skip >= 0 && plan.limit != 0
            && DashboardOf(caller, p, host, rs, join)
               == Page(plan.role, |matched|, CeilDiv(|matched|, plan.limit), plan.page,
                       Window(Order(matched, plan.sort), plan.skip, plan.limit))
  {
  }

  /** A page is what running the composed plan gives. */
  lemma PlannedPage(caller: Option<User>, p: Params, host: Host, rs: seq<Request>,
                    join: Request -> Option<Service>)
    requires DashboardOf(caller, p, host, rs, join).Page?
    ensures Compose(caller, p, host).Planned?
    ensures Compose(caller, p, host).plan.skip >= 0
    ensures DashboardOf(caller, p, host, rs, join) == Execute(Compose(caller, p, host).plan, rs, join, host)
  {
  }

  /** Running a plan with a non-negative skip gives a page whose total
      counts every match, is at least the page size, and whose page count
      is `Math.ceil(total / limit)`. */
  lemma ExecuteCounts(plan: Plan, rs: seq<Request>, join: Request -> Option<Service>, host: Host)
    requires plan.limit != 0 && plan.skip >= 0
    ensures var resp := Execute(plan, rs, join, host);
            var total := |Select(plan.query, rs, join, host)|;
            && resp.Page? && resp.totalRequests == total && |resp.requests| <= total
            && resp.totalPages == CeilDiv(total, plan.limit)
  {
  }

  /** Every record of an executed page matches the plan's query and comes
      from the collection. */
  lemma ExecutedRecordsMatch(plan: Plan, rs: seq<Request>, join: Request -> Option<Service>, host: Host,
                             x: Request)
    requires plan.limit != 0
    requires Execute(plan, rs, join, host).Page?
    requires x in Execute(plan, rs, join, host).requests
    ensures Matches(plan.query, x, join, host) && x in rs
  {
    var matched := Select(plan.query, rs, join, host);
    var ordered := Order(matched, plan.sort);
    assert x in Window(ordered, plan.skip, plan.limit);
    WindowMember(ordered, plan.skip, plan.limit, x);
    OrderMember(matched, plan.sort, x);
    SelectedMatch(plan.query, rs, join, host, x);
  }

  /** A window holds only records of the sequence it is cut from. */
  lemma WindowMember(rs: seq<Request>, skip: nat, limit: int, x: Request)
    requires x in Window(rs, skip, limit)
    ensures x in rs
  {
    var w := Window(rs, skip, limit);
    var i :| 0 <= i < |w| && w[i] == x;
    assert rs[skip + i] == x;
  }

  /** Sorting keeps the records it is given. */
  lemma OrderMember(rs: seq<Request>, sort: Option<Sorting>, x: Request)
    requires x in Order(rs, sort)
    ensures x in rs
  {
    assert x in multiset(Order(rs, sort));
  }

  /** Every record on a page matches the composed query and comes from the
      collection. */
  lemma PageRecordsMatch(caller: Option<User>, p: Params, host: Host, rs: seq<Request>,
                         join: Request -> Option<Service>, x: Request)
    requires DashboardOf(caller, p, host, rs, join).Page?
    requires x in DashboardOf(caller, p, host, rs, join).requests
    ensures Compose(caller, p, host).Planned?
    ensures Matches(Compose(caller, p, host).plan.query, x, join, host) && x in rs
  {
    PlannedPage(caller, p, host, rs, join);
    ExecutedRecordsMatch(Compose(caller, p, host).plan, rs, join, host, x);
  }

  /** The role policy: an individual sees only requests they own, a
      service provider only requests whose joined service they provide. */
  lemma RoleScoping(caller: Option<User>, p: Params, host: Host, rs: seq<Request>,
                    join: Request -> Option<Service>, x: Request)
    requires DashboardOf(caller, p, host, rs, join).Page?
    requires x in DashboardOf(caller, p, host, rs, join).requests
    ensures caller.Some? && (caller.value.role == Individual || caller.value.role == ServiceProvider)
    ensures caller.value.role == Individual ==> x.user == caller.value.id
    ensures caller.value.role == ServiceProvider ==>
              join(x).Some? && join(x).value.provider == caller.value.id
  {
    PageRecordsMatch(caller, p, host, rs, join, x);
  }

  /** The optional filters hold of every record on a page: the exact status,
      the case-insensitive match on the joined service's name, and the
      inclusive `createdAt` range when both dates are given. */
  lemma FiltersApply(caller: Option<User>, p: Params, host: Host, rs: seq<Request>,
                     join: Request -> Option<Service>, x: Request)
    requires DashboardOf(caller, p, host, rs, join).Page?
    requires x in DashboardOf(caller, p, host, rs, join).requests
    ensures Present(p.status) ==> StatusName(x.status) == p.status.value
    ensures Present(p.serviceType) ==>
              join(x).Some? && host.regexMatch(p.serviceType.value, join(x).value.name)
    ensures Present(p.startDate) && Present(p.endDate) ==>
              && host.parseDate(p.startDate.value).Some?
              && host.parseDate(p.endDate.value).Some?
              && host.parseDate(p.startDate.value).value <= x.createdAt
              && x.createdAt <= host.parseDate(p.endDate.value).value
  {
    PageRecordsMatch(caller, p, host, rs, join, x);
  }

  /** Dropping `status` drops the status conjunct and nothing else. */
  lemma ComposeWithoutStatus(caller: Option<User>, p: Params, host: Host)
    requires Compose(caller, p, host).Planned?
    ensures var plan := Compose(caller, p, host).plan;
            Compose(caller, p.(status := None), host) == Planned(plan.(query := plan.query.(status := None)))
  {
    var p0 := p.(status := None);
    assert DateCheckOf(p0, host) == DateCheckOf(p, host);
    assert SortCheckOf(p0) == SortCheckOf(p);
  }

  /** Dropping `serviceType` drops the service-name conjunct and nothing
      else. */
  lemma ComposeWithoutServiceType(caller: Option<User>, p: Params, host: Host)
    requires Compose(caller, p, host).Planned?
    ensures var plan := Compose(caller, p, host).plan;
            Compose(caller, p.(serviceType := None), host) == Planned(plan.(query := plan.query.(serviceName := None)))
  {
    var p0 := p.(serviceType := None);
    assert DateCheckOf(p0, host) == DateCheckOf(p, host);
    assert SortCheckOf(p0) == SortCheckOf(p);
  }

  /** Giving `status` never adds records: the total with it is at most the
      total without it. */
  lemma StatusNarrows(caller: Option<User>, p: Params, host: Host, rs: seq<Request>,
                      join: Request -> Option<Service>)
    requires DashboardOf(caller, p, host, rs, join).Page?
    ensures DashboardOf(caller, p.(status := None), host, rs, join).Page?
    ensures DashboardOf(caller, p, host, rs, join).totalRequests
            <= DashboardOf(caller, p.(status := None), host, rs, join).totalRequests
  {
    var p0 := p.(status := None);
    PageShape(caller, p, host, rs, join);
    var plan := Compose(caller, p, host).plan;
    ComposeWithoutStatus(caller, p, host);
    var plan0 := plan.(query := plan.query.(status := None));
    assert DashboardOf(caller, p0, host, rs, join) == Execute(plan0, rs, join, host);
    SelectMonotone(plan.query, plan0.query, rs, join, host);
  }

  /** Giving `serviceType` never adds records either. */
  lemma ServiceTypeNarrows(caller: Option<User>, p: Params, host: Host, rs: seq<Request>,
                           join: Request -> Option<Service>)
    requires DashboardOf(caller, p, host, rs, join).Page?
    ensures DashboardOf(caller, p.(serviceType := None), host, rs, join).Page?
    ensures DashboardOf(caller, p, host, rs, join).totalRequests
            <= DashboardOf(caller, p.(serviceType := None), host, rs, join).totalRequests
  {
    var p0 := p.(serviceType := None);
    PageShape(caller, p, host, rs, join);
    var plan := Compose(caller, p, host).plan;
    ComposeWithoutServiceType(caller, p, host);
    var plan0 := plan.(query := plan.query.(serviceName := None));
    assert DashboardOf(caller, p0, host, rs, join) == Execute(plan0, rs, join, host);
    SelectMonotone(plan.query, plan0.query, rs, join, host);
  }

  /** One date without the other is ignored: the response is the one given
      with neither. */
  lemma OneDateIgnored(caller: Option<User>, p: Params, host: Host, rs: seq<Request>,
                       join: Request -> Option<Service>)
    requires !(Present(p.startDate) && Present(p.endDate))
    ensures DashboardOf(caller, p, host, rs, join)
            == DashboardOf(caller, p.(startDate := None, endDate := None), host, rs, join)
  {
    var p0 := p.(startDate := None, endDate := None);
    assert DateCheckOf(p0, host) == NoRange == DateCheckOf(p, host);
    assert SortCheckOf(p0) == SortCheckOf(p);
    assert Compose(caller, p0, host) == Compose(caller, p, host);
  }

  /** With both dates given, one that does not parse is a 400, once the
      caller is authorised. */
  lemma BadDateRejected(u: User, p: Params, host: Host, rs: seq<Request>, join: Request -> Option<Service>)
    requires u.role == ServiceProvider || u.role == Individual
    requires Present(p.startDate) && Present(p.endDate)
    requires host.parseDate(p.startDate.value).None? || host.parseDate(p.endDate.value).None?
    ensures DashboardOf(Some(u), p, host, rs, join) == Failed(400)
  {
  }

  /** A start after the end is not rejected: with the caller, the sort and
      the pagination all acceptable, the answer is a page, and the range
      simply matches nothing, so the page is empty and both totals are zero. */
  lemma InvertedRangeMatchesNothing(u: User, p: Params, host: Host, rs: seq<Request>,
                                    join: Request -> Option<Service>)
    requires u.role == ServiceProvider || u.role == Individual
    requires Present(p.startDate) && Present(p.endDate)
    requires host.parseDate(p.startDate.value).Some? && host.parseDate(p.endDate.value).Some?
    requires host.parseDate(p.startDate.value).value > host.parseDate(p.endDate.value).value
    requires !SortCheckOf(p).BadSort?
    requires IntOr(p.page, DefaultPage, host) >= 1 && IntOr(p.limit, DefaultLimit, host) >= 1
    ensures DashboardOf(Some(u), p, host, rs, join).Page?
    ensures DashboardOf(Some(u), p, host, rs, join).totalRequests == 0
    ensures DashboardOf(Some(u), p, host, rs, join).totalPages == 0
    ensures DashboardOf(Some(u), p, host, rs, join).requests == []
  {
    var plan := Compose(Some(u), p, host).plan;
    assert (IntOr(p.page, DefaultPage, host) - 1) * IntOr(p.limit, DefaultLimit, host) >= 0;
    SelectNothing(plan.query, rs, join, host);
  }

  /** When the dashboard answers with a page: an authenticated provider or
      individual, dates that parse whenever both are given, a valid sort
      field, and a page and limit whose skip is not negative.  Every other
      combination is one of the errors. */
  lemma PageExactlyWhen(caller: Option<User>, p: Params, host: Host, rs: seq<Request>,
                        join: Request -> Option<Service>)
    ensures DashboardOf(caller, p, host, rs, join).Page? <==>
              && caller.Some? && ScopeOf(caller.value).Some?
              && !DateCheckOf(p, host).BadDate? && !SortCheckOf(p).BadSort?
              && (IntOr(p.page, DefaultPage, host) - 1) * IntOr(p.limit, DefaultLimit, host) >= 0
    ensures DashboardOf(caller, p, host, rs, join).Failed? ==>
              DashboardOf(caller, p, host, rs, join).code in {400, 401, 403, 500}
  {
    if Compose(caller, p, host).Planned? {
      var plan := Compose(caller, p, host).plan;
      assert plan.page == IntOr(p.page, DefaultPage, host);
      assert plan.limit == IntOr(p.limit, DefaultLimit, host);
    }
  }

  /** A `sortBy` other than `date` or `status` is a 400 once the caller is
      authorised and the dates are acceptable. */
  lemma BadSortRejected(u: User, p: Params, host: Host, rs: seq<Request>, join: Request -> Option<Service>)
    requires u.role == ServiceProvider || u.role == Individual
    requires !DateCheckOf(p, host).BadDate?
    requires Present(p.sortBy) && p.sortBy.value != "date" && p.sortBy.value != "status"
    ensures DashboardOf(Some(u), p, host, rs, join) == Failed(400)
  {
  }

  /** Without `sortBy` nothing is sorted, whatever `sortOrder` says. */
  lemma SortOrderNeedsSortBy(caller: Option<User>, p: Params, order: Option<string>, host: Host,
                             rs: seq<Request>, join: Request -> Option<Service>)
    requires !Present(p.sortBy)
    ensures Compose(caller, p, host).Planned? ==> Compose(caller, p, host).plan.sort.None?
    ensures DashboardOf(caller, p.(sortOrder := order), host, rs, join) == DashboardOf(caller, p, host, rs, join)
  {
    var p0 := p.(sortOrder := order);
    assert SortCheckOf(p0) == Unsorted == SortCheckOf(p);
    assert DateCheckOf(p0, host) == DateCheckOf(p, host);
    assert Compose(caller, p0, host) == Compose(caller, p, host);
  }

  /** With a valid `sortBy` the page is ordered on that field, descending
      exactly when `sortOrder` is `desc`. */
  lemma PageIsSorted(caller: Option<User>, p: Params, host: Host, rs: seq<Request>,
                     join: Request -> Option<Service>)
    requires DashboardOf(caller, p, host, rs, join).Page?
    requires Present(p.sortBy)
    ensures p.sortBy.value == "date" || p.sortBy.value == "status"
    ensures SortedBy(DashboardOf(caller, p, host, rs, join).requests,
                     Sorting(if p.sortBy.value == "date" then ByDate else ByStatus, p.sortOrder == Some("desc")))
  {
    PageShape(caller, p, host, rs, join);
    var plan := Compose(caller, p, host).plan;
    assert SortCheckOf(p).SortedOn?;
    assert plan.sort == Some(SortCheckOf(p).sorting);
    var ordered := Order(Select(plan.query, rs, join, host), plan.sort);
    WindowSorted(ordered, plan.sort.value, plan.skip, plan.limit);
  }

  /** Pagination: `page` and `limit` fall back to 1 and 10, the current page
      is the page asked for, and a page holds at most |limit| records (so at
      most `limit` when it is positive). */
  lemma PageSizeBounded(caller: Option<User>, p: Params, host: Host, rs: seq<Request>,
                        join: Request -> Option<Service>)
    requires DashboardOf(caller, p, host, rs, join).Page?
    ensures DashboardOf(caller, p, host, rs, join).currentPage == IntOr(p.page, DefaultPage, host)
    ensures |DashboardOf(caller, p, host, rs, join).requests| <= Abs(IntOr(p.limit, DefaultLimit, host))
    ensures IntOr(p.limit, DefaultLimit, host) >= 1 ==>
              |DashboardOf(caller, p, host, rs, join).requests| <= IntOr(p.limit, DefaultLimit, host)
  {
  }

  /** The fallbacks: an absent, non-numeric or zero value gives the default. */
  lemma PaginationDefaults(raw: Option<string>, fallback: int, host: Host)
    requires raw.None? || host.parseInt(raw.value).None? || host.parseInt(raw.value) == Some(0)
    ensures IntOr(raw, fallback, host) == fallback
  {
  }

  /** A value that parses to a non-zero integer is taken as it is. */
  lemma PaginationTakesValue(raw: Option<string>, fallback: int, host: Host)
    requires raw.Some? && host.parseInt(raw.value).Some? && host.parseInt(raw.value).value != 0
    ensures IntOr(raw, fallback, host) == host.parseInt(raw.value).value
  {
  }

  /** A page before the first one makes the skip negative, which the
      database refuses: 500. */
  lemma NegativeSkipFails(caller: Option<User>, p: Params, host: Host, rs: seq<Request>,
                          join: Request -> Option<Service>)
    requires Compose(caller, p, host).Planned?
    requires IntOr(p.page, DefaultPage, host) < 1 && IntOr(p.limit, DefaultLimit, host) > 0
    ensures DashboardOf(caller, p, host, rs, join) == Failed(500)
  {
    var plan := Compose(caller, p, host).plan;
    assert plan.page - 1 < 0 && plan.limit > 0;
    assert (plan.page - 1) * plan.limit < 0;
  }

  /** The totals: `totalRequests` counts every match of the same query, not
      only the page, and `totalPages` is `Math.ceil(total / limit)` for the
      limit of the query string. */
  lemma Totals(caller: Option<User>, p: Params, host: Host, rs: seq<Request>,
               join: Request -> Option<Service>)
    requires DashboardOf(caller, p, host, rs, join).Page?
    ensures Compose(caller, p, host).Planned?
    ensures DashboardOf(caller, p, host, rs, join).totalRequests
            == |Select(Compose(caller, p, host).plan.query, rs, join, host)|
    ensures |DashboardOf(caller, p, host, rs, join).requests| <= DashboardOf(caller, p, host, rs, join).totalRequests
    ensures DashboardOf(caller, p, host, rs, join).totalPages
            == CeilDiv(DashboardOf(caller, p, host, rs, join).totalRequests, IntOr(p.limit, DefaultLimit, host))
  {
    PlannedPage(caller, p, host, rs, join);
    var plan := Compose(caller, p, host).plan;
    assert plan.limit == IntOr(p.limit, DefaultLimit, host);
    ExecuteCounts(plan, rs, join, host);
  }

  /** For a positive limit the page count is the least number of pages of
      `limit` records that hold every match. */
  lemma TotalPagesCover(caller: Option<User>, p: Params, host: Host, rs: seq<Request>,
                        join: Request -> Option<Service>)
    requires DashboardOf(caller, p, host, rs, join).Page?
    requires IntOr(p.limit, DefaultLimit, host) > 0
    ensures PagesHold(DashboardOf(caller, p, host, rs, join).totalPages,
                      DashboardOf(caller, p, host, rs, join).totalRequests,
                      IntOr(p.limit, DefaultLimit, host))
  {
    Totals(caller, p, host, rs, join);
    var resp := DashboardOf(caller, p, host, rs, join);
    CeilDivIsCeiling(resp.totalRequests, IntOr(p.limit, DefaultLimit, host));
  }

  /** An individual `U1` with a pending and a completed request, beside a
      request of `U2`, asks for `status=completed`: the one completed
      request of `U1` comes back, on page 1 of 1. */
  lemma CompletedScenario(host: Host, join: Request -> Option<Service>, name: string, email: string,
                          phone: string, password: string, r1: Request, r2: Request, r3: Request)
    requires r1.user == "U1" && r1.status == Pending
    requires r2.user == "U1" && r2.status == Completed
    requires r3.user == "U2"
    ensures var caller := User("U1", name, email, phone, password, Individual, None);
            var p := Params(Some("completed"), None, None, None, None, None, None, None);
            DashboardOf(Some(caller), p, host, [r1, r2, r3], join) == Page(Individual, 1, 1, 1, [r2])
  {
    var caller := User("U1", name, email, phone, password, Individual, None);
    var p := Params(Some("completed"), None, None, None, None, None, None, None);
    var q := Query(OfOwner("U1"), Some("completed"), None, None);
    var plan := Plan(Individual, q, None, 1, 10, 0);
    assert ScopeOf(caller) == Some(OfOwner("U1"));
    assert DateCheckOf(p, host) == NoRange && SortCheckOf(p) == Unsorted;
    assert IntOr(p.page, DefaultPage, host) == 1 && IntOr(p.limit, DefaultLimit, host) == 10;
    assert Compose(Some(caller), p, host) == Planned(plan);
    assert !Matches(q, r1, join, host);
    assert Matches(q, r2, join, host);
    assert !Matches(q, r3, join, host);
    assert Select(q, [r3], join, host) == [] by { assert [r3][1..] == []; }
    assert Select(q, [r2, r3], join, host) == [r2] by { assert [r2, r3][1..] == [r3]; }
    assert Select(q, [r1, r2, r3], join, host) == [r2] by { assert [r1, r2, r3][1..] == [r2, r3]; }
    assert Window([r2], 0, 10) == [r2];
    assert CeilDiv(1, 10) == 1;
  }
}
