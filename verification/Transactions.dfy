/** One route transaction: what a mutation plans under the lock, and how it pushes, persists and
    rolls back (internal/controller/service.go and ApplyImport of internal/controller/config.go). */
module Transactions {
  import opened Results
  import opened Domain
  import opened Listing
  import opened Store
  import opened Caddy
  import opened Import
  import opened ImportLaws

  /** The store operation that follows an accepted push; Reconcile has none. */
  datatype Change =
    | InsertNew(route: Route)
    | Rewrite(route: Route, expected: int)
    | Remove(id: string, expected: int)
    | ReplaceAll(routes: seq<Route>)
    | KeepRows

  /** The listing a mutation read, the list it pushes, and the change it persists. */
  datatype Plan = Plan(current: seq<Route>, next: seq<Route>, change: Change)

  // ----- Planning: the checks a mutation makes on the listing -----

  function PlanCreate(rows: seq<Route>, route: Route): Result<Plan, Error> {
    var current := SortByHost(rows);
    if route.hostname in Hosts(current) then Err(HostnameConflict)
    else Ok(Plan(current, current + [route], InsertNew(route)))
  }

  /** The stored route rewritten: its identity, the admitted content, the requested switch. */
  function Rewritten(original: Route, admitted: Route, enabled: bool): Route {
    admitted.(id := original.id, enabled := enabled, createdAt := original.createdAt, revision := original.revision)
  }

  predicate HostTakenByOther(routes: seq<Route>, id: string, hostname: string) {
    exists i :: 0 <= i < |routes| && routes[i].id != id && routes[i].hostname == hostname
  }

  function PlanUpdate(rows: seq<Route>, id: string, admitted: Route, enabled: bool,
                      revision: int): Result<Plan, Error>
  {
    var current := SortByHost(rows);
    var i := IndexOf(current, id);
    if HostTakenByOther(current, id, admitted.hostname) then Err(HostnameConflict)
    else if i == |current| then Err(NotFound)
    else if current[i].revision != revision then Err(RevisionConflict)
    else
      var validated := Rewritten(current[i], admitted, enabled);
      Ok(Plan(current, current[i := validated], Rewrite(validated, revision)))
  }

  function PlanDelete(rows: seq<Route>, id: string, revision: int): Result<Plan, Error> {
    var current := SortByHost(rows);
    var i := IndexOf(current, id);
    if i == |current| then Err(NotFound)
    else if current[i].revision != revision then Err(RevisionConflict)
    else Ok(Plan(current, current[..i] + current[i + 1..], Remove(id, revision)))
  }

  /** The fingerprint of a listing stands for the listing itself: it is taken to be injective. */
  function PlanImport(rows: seq<Route>, base: seq<Route>, routes: seq<Route>): Result<Plan, Error> {
    var current := SortByHost(rows);
    if current != base then Err(RoutesChangedAfterPreview)
    else Ok(Plan(current, routes, ReplaceAll(routes)))
  }

  function PlanReconcile(rows: seq<Route>): Plan {
    Plan(SortByHost(rows), SortByHost(rows), KeepRows)
  }

  // ----- Pushing and persisting -----

  /** How `apply` fails: reading the settings, or at Caddy, which then has changed nothing. */
  datatype PushFault = PushOk | SettingsFault | LoadFault

  function Push(parseIp: IpParser, zone: string, routes: seq<Route>, fault: PushFault): Result<Config, Error> {
    if fault == SettingsFault then Err(SqlFailure)
    else if RenderResult(parseIp, zone, routes).Err? then RenderResult(parseIp, zone, routes)
    else if fault == LoadFault then Err(CaddyRejected)
    else RenderResult(parseIp, zone, routes)
  }

  function ApplyChange(rows: seq<Route>, change: Change, now: Time): Result<seq<Route>, Error> {
    match change
    case InsertNew(route) => InsertRow(rows, route)
    case Rewrite(route, expected) => UpdateRow(rows, route, expected, now)
    case Remove(id, expected) => DeleteRow(rows, id, expected)
    case ReplaceAll(routes) => ReplaceRows(routes)
    case KeepRows => Ok(rows)
  }

  datatype Persisted = Persisted(rows: seq<Route>, error: Option<Error>)

  /** A refused write changes nothing; a failed read after a rewrite reports an error for a row that
      has moved on all the same. */
  function Persist(rows: seq<Route>, change: Change, now: Time, fault: SqlFault): Persisted {
    if change.KeepRows? then Persisted(rows, None)
    else if fault == WriteFault then Persisted(rows, Some(SqlFailure))
    else
      match ApplyChange(rows, change, now)
      case Err(error) => Persisted(rows, Some(Unmatched(error, fault)))
      case Ok(after) => Persisted(after, if change.Rewrite? && fault == ReadFault then Some(SqlFailure) else None)
  }

  datatype Faults = Faults(push: PushFault, persist: SqlFault, rollback: PushFault)

  datatype Outcome = Outcome(rows: seq<Route>, live: Config, error: Option<Error>)

  /** How the attempts of a transaction settle it: the push of the next list, the change, and, used
      only when the change failed, the push of the old list. */
  function Settle(rows: seq<Route>, live: Config, pushed: Result<Config, Error>, persisted: Persisted,
                  restored: Result<Config, Error>): Outcome
  {
    if pushed.Err? then Outcome(rows, live, Some(pushed.error))
    else if persisted.error.None? then Outcome(persisted.rows, pushed.value, None)
    else if restored.Err? then Outcome(persisted.rows, pushed.value, persisted.error)
    else Outcome(persisted.rows, restored.value, persisted.error)
  }

  /** The whole transaction: push, persist, and on failure push the old listing again. */
  function Commit(parseIp: IpParser, zone: string, rows: seq<Route>, live: Config, plan: Plan, now: Time,
                  faults: Faults): Outcome
  {
    Settle(rows, live, Push(parseIp, zone, plan.next, faults.push),
           Persist(rows, plan.change, now, faults.persist),
           Push(parseIp, zone, plan.current, faults.rollback))
  }

  // ----- Sound plans -----

  /** What the new table owes to the old one. */
  ghost predicate Advances(parseIp: IpParser, rows: seq<Route>, reserved: set<string>, next: seq<Route>,
                           after: seq<Route>)
  {
    && IsRoutesTable(parseIp, after)
    && Intent(after) == Intent(next)
    && forall r :: r in after ==> Succeeds(rows, reserved, r)
  }

  ghost predicate ChangeFits(parseIp: IpParser, rows: seq<Route>, reserved: set<string>, plan: Plan, now: Time) {
    var applied := ApplyChange(rows, plan.change, now);
    applied.Ok? && Advances(parseIp, rows, reserved, plan.next, applied.value)
  }

  /** A plan the store cannot refuse: whenever it is persisted, the table stays reachable, asks for
      what was pushed, and every row is carried over, one revision on, or new. */
  ghost predicate IsSound(parseIp: IpParser, rows: seq<Route>, reserved: set<string>, plan: Plan) {
    && plan.current == SortByHost(rows)
    && DistinctHosts(plan.current) && DistinctHosts(plan.next)
    && forall now :: ChangeFits(parseIp, rows, reserved, plan, now)
  }

  lemma RowIn(parseIp: IpParser, rows: seq<Route>, r: Route)
    requires IsRoutesTable(parseIp, rows) && r in rows
    ensures IsRow(parseIp, r)
  {
  }

  lemma CreateIsSound(parseIp: IpParser, rows: seq<Route>, route: Route)
    requires IsRoutesTable(parseIp, rows) && IsRow(parseIp, route) && route.id !in Ids(rows) && route.revision == 1
    requires PlanCreate(rows, route).Ok?
    ensures IsSound(parseIp, rows, {route.id}, PlanCreate(rows, route).value)
  {
    var plan := PlanCreate(rows, route).value;
    SortedTable(rows);
    SortCorrect(rows);
    NoClash(rows, route);
    assert AsRow(route) == route;
    AppendHosts(plan.current, route);
    var after := rows + [route];
    AppendRow(parseIp, rows, route);
    RearrangedIntent(after, plan.next);
    forall r | r in after ensures Succeeds(rows, {route.id}, r) {}
    forall now ensures ChangeFits(parseIp, rows, {route.id}, plan, now) {}
  }

  lemma AppendRow(parseIp: IpParser, rows: seq<Route>, route: Route)
    requires IsRoutesTable(parseIp, rows) && IsRow(parseIp, route) && IsTable(rows + [route])
    ensures IsRoutesTable(parseIp, rows + [route])
  {
  }

  /** The row an id names in the table is the one it names in the listing. */
  lemma IdInListing(rows: seq<Route>, id: string)
    requires IsTable(rows)
    ensures var current := SortByHost(rows);
            && IsTable(current) && SameRoutes(current, rows)
            && (IndexOf(current, id) < |current| <==> IndexOf(rows, id) < |rows|)
            && (IndexOf(rows, id) < |rows| ==> current[IndexOf(current, id)] == rows[IndexOf(rows, id)])
  {
    var current := SortByHost(rows);
    SortedTable(rows);
    SortCorrect(rows);
    if IndexOf(rows, id) < |rows| {
      assert current[IndexOf(current, id)] in rows;
      DistinctRows(rows, current[IndexOf(current, id)], rows[IndexOf(rows, id)]);
    }
  }

  lemma ReplacedAt(rows: seq<Route>, i: nat, route: Route)
    requires IsTable(rows) && i < |rows|
    requires route.id == rows[i].id && !HostTakenByOther(rows, route.id, route.hostname)
    ensures IsTable(rows[i := route])
    ensures forall r :: r in rows[i := route] <==> r == route || (r in rows && r.id != route.id)
  {
    var after := rows[i := route];
    forall j | 0 <= j < |rows| && j != i ensures rows[j].id != route.id && rows[j].hostname != route.hostname {
      assert rows[j].id != rows[i].id;
    }
    forall r ensures r in after <==> r == route || (r in rows && r.id != route.id) {
      if r in after {
        var j :| 0 <= j < |after| && after[j] == r;
      }
      if r == route {
        assert after[i] == r;
      } else if r in rows && r.id != route.id {
        var j :| 0 <= j < |rows| && rows[j] == r;
        assert after[j] == r;
      }
    }
  }

  lemma HostTakenAlike(a: seq<Route>, b: seq<Route>, id: string, hostname: string)
    requires SameRoutes(a, b) && HostTakenByOther(a, id, hostname)
    ensures HostTakenByOther(b, id, hostname)
  {
    var i :| 0 <= i < |a| && a[i].id != id && a[i].hostname == hostname;
    assert a[i] in b;
  }

  lemma UpdateIsSound(parseIp: IpParser, rows: seq<Route>, id: string, admitted: Route, enabled: bool, revision: int)
    requires IsRoutesTable(parseIp, rows) && IsRow(parseIp, admitted)
    requires PlanUpdate(rows, id, admitted, enabled, revision).Ok?
    ensures IsSound(parseIp, rows, {}, PlanUpdate(rows, id, admitted, enabled, revision).value)
  {
    hide ByHost, Intent, IsRow, ChangeFits, SortByHost;
    var plan := PlanUpdate(rows, id, admitted, enabled, revision).value;
    var i, j := IndexOf(rows, id), IndexOf(plan.current, id);
    IdInListing(rows, id);
    var validated := plan.change.route;
    assert validated == Rewritten(rows[i], admitted, enabled);
    ReplacedAt(plan.current, j, validated);
    if HostTakenByOther(rows, id, admitted.hostname) {
      HostTakenAlike(rows, plan.current, id, admitted.hostname);
    }
    forall now ensures ChangeFits(parseIp, rows, {}, plan, now) {
      RewriteFits(parseIp, rows, i, admitted, validated, plan.current, plan.next, now);
    }
  }

  lemma RewriteFits(parseIp: IpParser, rows: seq<Route>, i: nat, admitted: Route, validated: Route,
                    current: seq<Route>, next: seq<Route>, now: Time)
    requires IsRoutesTable(parseIp, rows) && i < |rows| && i == IndexOf(rows, rows[i].id)
    requires IsRow(parseIp, admitted) && PortableOf(validated) == PortableOf(admitted).(enabled := validated.enabled)
    requires validated.id == rows[i].id && validated.revision == rows[i].revision
    requires !HostTakenByOther(rows, validated.id, validated.hostname)
    requires SameRoutes(current, rows) && DistinctHosts(next)
    requires forall r :: r in next <==> r == validated || (r in current && r.id != validated.id)
    ensures ChangeFits(parseIp, rows, {}, Plan(current, next, Rewrite(validated, validated.revision)), now)
  {
    hide IsRow, Intent, ByHost, IsTable, HostTakenByOther, Advances;
    RoutesTableIsTable(parseIp, rows);
    var row := UpdatedRow(rows[i], validated, now);
    var after := rows[i := row];
    NotTakenAgain(rows, validated, row);
    ReplacedAt(rows, i, row);
    NoOtherHolder(rows, i, validated);
    RewrittenIntent(rows, after, next, row, validated);
    RewrittenRows(parseIp, rows, i, admitted, row);
    forall r | r in after ensures Succeeds(rows, {}, r) {
      if r == row {
        assert rows[i] in rows && IsNextRevision(rows[i], r);
      }
    }
    var plan := Plan(current, next, Rewrite(validated, validated.revision));
    assert ApplyChange(rows, plan.change, now) == UpdateRow(rows, validated, validated.revision, now) == Ok(after);
    FitsBy(parseIp, rows, {}, plan, now, after);
  }

  lemma NotTakenAgain(rows: seq<Route>, validated: Route, row: Route)
    requires !HostTakenByOther(rows, validated.id, validated.hostname)
    requires row.id == validated.id && row.hostname == validated.hostname
    ensures !HostTakenByOther(rows, row.id, row.hostname)
  {
  }

  lemma RoutesTableIsTable(parseIp: IpParser, rows: seq<Route>)
    requires IsRoutesTable(parseIp, rows)
    ensures IsTable(rows) && DistinctHosts(rows)
  {
  }

  lemma FitsBy(parseIp: IpParser, rows: seq<Route>, reserved: set<string>, plan: Plan, now: Time, after: seq<Route>)
    requires ApplyChange(rows, plan.change, now) == Ok(after)
    requires IsRoutesTable(parseIp, after) && Intent(after) == Intent(plan.next)
    requires forall r :: r in after ==> Succeeds(rows, reserved, r)
    ensures ChangeFits(parseIp, rows, reserved, plan, now)
  {
  }

  lemma NoOtherHolder(rows: seq<Route>, i: nat, route: Route)
    requires IsTable(rows) && i < |rows| && route.id == rows[i].id && !HostTakenByOther(rows, route.id, route.hostname)
    ensures !exists j :: 0 <= j < |rows| && j != i && rows[j].hostname == route.hostname
  {
    forall j | 0 <= j < |rows| && j != i ensures rows[j].hostname != route.hostname {
      assert rows[j].id != rows[i].id;
    }
  }

  lemma RewrittenRows(parseIp: IpParser, rows: seq<Route>, i: nat, admitted: Route, row: Route)
    requires IsRoutesTable(parseIp, rows) && i < |rows| && IsTable(rows[i := row])
    requires IsRow(parseIp, admitted) && InputOf(row) == InputOf(admitted)
    requires row.health == HealthUnknown && row.revision == rows[i].revision + 1
    ensures IsRoutesTable(parseIp, rows[i := row])
  {
    RowIn(parseIp, rows, rows[i]);
    RowFields(parseIp, admitted, row);
  }

  lemma RewrittenIntent(rows: seq<Route>, after: seq<Route>, next: seq<Route>, row: Route, validated: Route)
    requires DistinctHosts(after) && DistinctHosts(next)
    requires PortableOf(row) == PortableOf(validated)
    requires forall r :: r in after <==> r == row || (r in rows && r.id != validated.id)
    requires forall r :: r in next <==> r == validated || (r in rows && r.id != validated.id)
    ensures Intent(after) == Intent(next)
  {
    assert Covers(after, next) by {
      forall x | x in after ensures exists y :: y in next && PortableOf(y) == PortableOf(x) {
        var y := if x == row then validated else x;
        assert y in next && PortableOf(y) == PortableOf(x);
      }
    }
    assert Covers(next, after) by {
      forall y | y in next ensures exists x :: x in after && PortableOf(x) == PortableOf(y) {
        var x := if y == validated then row else y;
        assert x in after && PortableOf(x) == PortableOf(y);
      }
    }
    SameIntent(after, next);
  }

  lemma RemovedAt(rows: seq<Route>, i: nat)
    requires IsTable(rows) && i < |rows|
    ensures IsTable(rows[..i] + rows[i + 1..])
    ensures forall r :: r in rows[..i] + rows[i + 1..] <==> r in rows && r.id != rows[i].id
  {
    var after := rows[..i] + rows[i + 1..];
    assert forall k :: 0 <= k < |after| ==> after[k] == rows[if k < i then k else k + 1];
    RemovedMembers(rows, i, after);
  }

  lemma RemovedMembers(rows: seq<Route>, i: nat, after: seq<Route>)
    requires DistinctIds(rows) && i < |rows| && |after| == |rows| - 1
    requires forall k :: 0 <= k < |after| ==> after[k] == rows[if k < i then k else k + 1]
    ensures forall r :: r in after <==> r in rows && r.id != rows[i].id
  {
    forall r | r in rows && r.id != rows[i].id ensures r in after {
      var k :| 0 <= k < |rows| && rows[k] == r;
      assert r == after[if k < i then k else k - 1];
    }
    forall r | r in after ensures r in rows && r.id != rows[i].id {
      var k :| 0 <= k < |after| && after[k] == r;
      var at := if k < i then k else k + 1;
      assert rows[at] == r && (at < i || i < at);
    }
  }

  lemma DeleteIsSound(parseIp: IpParser, rows: seq<Route>, id: string, revision: int)
    requires IsRoutesTable(parseIp, rows) && PlanDelete(rows, id, revision).Ok?
    ensures IsSound(parseIp, rows, {}, PlanDelete(rows, id, revision).value)
  {
    hide ByHost, Intent, IsRow, ChangeFits, Ids, SortByHost;
    var plan := PlanDelete(rows, id, revision).value;
    IdInListing(rows, id);
    RemovedAt(plan.current, IndexOf(plan.current, id));
    forall now ensures ChangeFits(parseIp, rows, {}, plan, now) {
      RemoveFits(parseIp, rows, IndexOf(rows, id), plan, now);
    }
  }

  lemma RemoveFits(parseIp: IpParser, rows: seq<Route>, i: nat, plan: Plan, now: Time)
    requires IsRoutesTable(parseIp, rows) && i < |rows| && i == IndexOf(rows, rows[i].id)
    requires plan.change == Remove(rows[i].id, rows[i].revision)
    requires DistinctHosts(plan.next) && forall r :: r in plan.next <==> r in rows && r.id != rows[i].id
    ensures ChangeFits(parseIp, rows, {}, plan, now)
  {
    hide ByHost, Intent, Covers, IsRow, Ids, IsTable, IsRoutesTable, SameRoutes, Advances;
    RoutesTableIsTable(parseIp, rows);
    var after := rows[..i] + rows[i + 1..];
    RemovedAt(rows, i);
    RemovedAlike(rows, rows[i].id, after, plan.next);
    RearrangedIntent(after, plan.next);
    SomeRows(parseIp, rows, after);
    assert ApplyChange(rows, plan.change, now) == DeleteRow(rows, rows[i].id, rows[i].revision) == Ok(after);
    forall r | r in after ensures Succeeds(rows, {}, r) {}
    FitsBy(parseIp, rows, {}, plan, now, after);
  }

  lemma RemovedAlike(rows: seq<Route>, id: string, a: seq<Route>, b: seq<Route>)
    requires IsTable(a)
    requires forall r :: r in a <==> r in rows && r.id != id
    requires forall r :: r in b <==> r in rows && r.id != id
    ensures SameRoutes(a, b) && DistinctHosts(a)
  {
  }

  lemma SomeRows(parseIp: IpParser, rows: seq<Route>, some: seq<Route>)
    requires IsRoutesTable(parseIp, rows) && IsTable(some)
    requires forall r :: r in some ==> r in rows
    ensures IsRoutesTable(parseIp, some)
  {
  }

  lemma ImportIsSound(parseIp: IpParser, rows: seq<Route>, base: seq<Route>, entries: seq<Entry>, mode: string)
    requires IsRoutesTable(parseIp, rows) && IsRoutesTable(parseIp, base) && FreshEntries(entries, Ids(base))
    requires Build(parseIp, base, entries, mode).Ok?
    requires PlanImport(rows, base, Build(parseIp, base, entries, mode).value.routes).Ok?
    ensures IsSound(parseIp, rows, StampIds(entries),
              PlanImport(rows, base, Build(parseIp, base, entries, mode).value.routes).value)
  {
    var next := Build(parseIp, base, entries, mode).value.routes;
    BuildIsTable(parseIp, base, entries, mode);
    ReplacementIsSound(parseIp, rows, base, StampIds(entries), next);
  }

  lemma ReplacementIsSound(parseIp: IpParser, rows: seq<Route>, base: seq<Route>, reserved: set<string>,
                           next: seq<Route>)
    requires IsTable(rows) && base == SortByHost(rows)
    requires Sorted(next) && IsRoutesTable(parseIp, next)
    requires forall r :: r in next ==> Succeeds(base, reserved, r)
    ensures IsSound(parseIp, rows, reserved, Plan(base, next, ReplaceAll(next)))
  {
    SortedTable(rows);
    SortCorrect(rows);
    forall i | 0 <= i < |next| ensures AsRow(next[i]) == next[i] {
      assert IsRow(parseIp, next[i]);
    }
    assert AsRows(next) == next;
    forall r | r in next ensures Succeeds(rows, reserved, r) {
      assert Succeeds(base, reserved, r);
    }
    var plan := Plan(base, next, ReplaceAll(next));
    forall now ensures ChangeFits(parseIp, rows, reserved, plan, now) {
      assert ApplyChange(rows, plan.change, now) == Ok(next);
    }
  }

  lemma ReconcileIsSound(parseIp: IpParser, rows: seq<Route>)
    requires IsRoutesTable(parseIp, rows)
    ensures IsSound(parseIp, rows, {}, PlanReconcile(rows))
  {
    SortedTable(rows);
    SortCorrect(rows);
    RearrangedIntent(rows, SortByHost(rows));
    forall r | r in rows ensures Succeeds(rows, {}, r) {}
    forall now ensures ChangeFits(parseIp, rows, {}, PlanReconcile(rows), now) {
      FitsBy(parseIp, rows, {}, PlanReconcile(rows), now, rows);
    }
  }

  /** A sound plan persists whenever the database works. */
  lemma SoundPersists(parseIp: IpParser, rows: seq<Route>, reserved: set<string>, plan: Plan, now: Time)
    requires IsSound(parseIp, rows, reserved, plan)
    ensures var persisted := Persist(rows, plan.change, now, NoFault);
            && persisted.error == None
            && IsRoutesTable(parseIp, persisted.rows)
            && Intent(persisted.rows) == Intent(plan.next)
  {
    assert ChangeFits(parseIp, rows, reserved, plan, now);
  }

  // ----- The service's checks -----

  /** A call of the service that may change routes, with what its NewRoute calls draw. An apply
      carries the listing and the import of its preview. */
  datatype Call =
    | CreateCall(input: RouteInput, stamp: Stamp)
    | UpdateCall(id: string, update: RouteInput, enabled: bool, revision: int, draw: Stamp)
    | DeleteCall(target: string, expected: int)
    | ApplyCall(base: seq<Route>, entries: seq<Entry>, mode: string)
    | ReconcileCall

  /** The plan of a call whose checks pass, or the error of the first check that fails. */
  function PlanFor(parseIp: IpParser, rows: seq<Route>, call: Call): Result<Plan, Error> {
    match call
    case CreateCall(input, stamp) =>
      var admitted := Admit(parseIp, input, stamp);
      if admitted.Err? then Err(admitted.error) else PlanCreate(rows, admitted.value)
    case UpdateCall(id, input, enabled, revision, stamp) =>
      var admitted := Admit(parseIp, input, stamp);
      if admitted.Err? then Err(admitted.error) else PlanUpdate(rows, id, admitted.value, enabled, revision)
    case DeleteCall(id, revision) => PlanDelete(rows, id, revision)
    case ApplyCall(base, entries, mode) =>
      var built := Build(parseIp, base, entries, mode);
      if built.Err? then Err(built.error) else PlanImport(rows, base, built.value.routes)
    case ReconcileCall => Ok(PlanReconcile(rows))
  }

  /** The ids a call may bring into the table. */
  function Draws(call: Call): set<string> {
    match call
    case CreateCall(_, stamp) => {stamp.id}
    case ApplyCall(_, entries, _) => StampIds(entries)
    case _ => {}
  }

  predicate DrawsFresh(rows: seq<Route>, call: Call) {
    && (call.CreateCall? ==> call.stamp.id !in Ids(rows))
    && (call.ApplyCall? ==> FreshEntries(call.entries, Ids(rows)))
  }

  lemma AdmittedFirst(parseIp: IpParser, input: RouteInput, stamp: Stamp)
    requires Admit(parseIp, input, stamp).Ok?
    ensures var route := Admit(parseIp, input, stamp).value;
            route.id == stamp.id && route.revision == 1 && IsRow(parseIp, route)
  {
    hide Normalise, Validate, IsRow;
    AdmittedIsRow(parseIp, input, stamp);
  }

  lemma ApplyCallIsSound(parseIp: IpParser, rows: seq<Route>, base: seq<Route>, entries: seq<Entry>, mode: string)
    requires IsRoutesTable(parseIp, rows) && FreshEntries(entries, Ids(rows))
    requires PlanFor(parseIp, rows, ApplyCall(base, entries, mode)).Ok?
    ensures IsSound(parseIp, rows, StampIds(entries), PlanFor(parseIp, rows, ApplyCall(base, entries, mode)).value)
  {
    hide IsSound, Build, FreshEntries, SortByHost, Ids, StampIds;
    assert base == SortByHost(rows);
    SortedRoutesTable(parseIp, rows);
    ImportIsSound(parseIp, rows, base, entries, mode);
  }

  lemma SortedRoutesTable(parseIp: IpParser, rows: seq<Route>)
    requires IsRoutesTable(parseIp, rows)
    ensures IsRoutesTable(parseIp, SortByHost(rows)) && Ids(SortByHost(rows)) == Ids(rows)
  {
    SortedTable(rows);
    SortCorrect(rows);
  }

  /** The service's checks leave only sound plans. */
  lemma ChecksMakeSound(parseIp: IpParser, rows: seq<Route>, call: Call)
    requires IsRoutesTable(parseIp, rows) && DrawsFresh(rows, call) && PlanFor(parseIp, rows, call).Ok?
    ensures IsSound(parseIp, rows, Draws(call), PlanFor(parseIp, rows, call).value)
  {
    hide IsSound, Build, Admit, FreshEntries, SortByHost, Ids, StampIds, IsRow, IsRoutesTable;
    hide PlanCreate, PlanUpdate, PlanDelete, PlanImport, PlanReconcile;
    match call {
      case CreateCall(input, stamp) =>
        AdmittedFirst(parseIp, input, stamp);
        CreateIsSound(parseIp, rows, Admit(parseIp, input, stamp).value);
      case UpdateCall(id, input, enabled, revision, stamp) =>
        AdmittedFirst(parseIp, input, stamp);
        UpdateIsSound(parseIp, rows, id, Admit(parseIp, input, stamp).value, enabled, revision);
      case DeleteCall(id, revision) => DeleteIsSound(parseIp, rows, id, revision);
      case ApplyCall(base, entries, mode) => ApplyCallIsSound(parseIp, rows, base, entries, mode);
      case ReconcileCall => ReconcileIsSound(parseIp, rows);
    }
  }

  /** Once the checks of the service have passed on a reachable table, the store can refuse nothing:
      no UNIQUE constraint and no stale revision is left to fail on. */
  lemma StoreCannotRefuse(parseIp: IpParser, rows: seq<Route>, call: Call, now: Time)
    requires IsRoutesTable(parseIp, rows) && DrawsFresh(rows, call) && PlanFor(parseIp, rows, call).Ok?
    ensures var plan := PlanFor(parseIp, rows, call).value;
            var persisted := Persist(rows, plan.change, now, NoFault);
            && persisted.error == None
            && IsRoutesTable(parseIp, persisted.rows)
            && Intent(persisted.rows) == Intent(plan.next)
  {
    hide IsSound, PlanFor, Persist, Intent, IsRoutesTable, DrawsFresh;
    ChecksMakeSound(parseIp, rows, call);
    SoundPersists(parseIp, rows, Draws(call), PlanFor(parseIp, rows, call).value, now);
  }

  // ----- What a transaction leaves behind -----

  lemma PushedRoutes(parseIp: IpParser, zone: string, routes: seq<Route>, fault: PushFault)
    requires DistinctHosts(routes) && Push(parseIp, zone, routes, fault).Ok?
    ensures Routes(parseIp, zone, Push(parseIp, zone, routes, fault).value, Intent(routes))
  {
    hide Routes, Rendered, Intent, ValidateZone;
    RenderPreservesMeaning(parseIp, zone, routes);
  }

  lemma ListingIntent(rows: seq<Route>)
    requires IsTable(rows)
    ensures Intent(SortByHost(rows)) == Intent(rows)
  {
    SortedTable(rows);
    SortCorrect(rows);
    RearrangedIntent(rows, SortByHost(rows));
  }

  /** The read-back failure of a rewrite, the one persist error that follows a written row. */
  predicate IsReadBackFailure(plan: Plan, faults: Faults) {
    plan.change.Rewrite? && faults.persist == ReadFault
  }

  /** Self-healing: whatever the proxy held before, a transaction that succeeds, and one whose
      persist failed but whose rollback was accepted, leaves it routing as the store asks. */
  lemma CommitHeals(parseIp: IpParser, zone: string, rows: seq<Route>, live: Config, reserved: set<string>,
                    plan: Plan, now: Time, faults: Faults)
    requires IsRoutesTable(parseIp, rows) && IsSound(parseIp, rows, reserved, plan)
    ensures var outcome := Commit(parseIp, zone, rows, live, plan, now, faults);
            && (outcome.error == None ==> Routes(parseIp, zone, outcome.live, Intent(outcome.rows)))
            && (Push(parseIp, zone, plan.next, faults.push).Ok?
                && Push(parseIp, zone, plan.current, faults.rollback).Ok?
                && !IsReadBackFailure(plan, faults)
                ==> Routes(parseIp, zone, outcome.live, Intent(outcome.rows)))
  {
    PersistIntent(parseIp, rows, reserved, plan, now, faults.persist);
    var pushed := Push(parseIp, zone, plan.next, faults.push);
    var restored := Push(parseIp, zone, plan.current, faults.rollback);
    if pushed.Ok? {
      PushedRoutes(parseIp, zone, plan.next, faults.push);
    }
    if restored.Ok? {
      PushedRoutes(parseIp, zone, plan.current, faults.rollback);
    }
    var persisted := Persist(rows, plan.change, now, faults.persist);
    SettleHeals(parseIp, zone, rows, live, pushed, persisted, restored, plan, !IsReadBackFailure(plan, faults));
  }

  /** What the table asks for after the persist step: the pushed list when it went through, and the
      old one when it failed, unless only the read-back did. */
  lemma PersistIntent(parseIp: IpParser, rows: seq<Route>, reserved: set<string>, plan: Plan, now: Time,
                      fault: SqlFault)
    requires IsRoutesTable(parseIp, rows) && IsSound(parseIp, rows, reserved, plan)
    ensures var persisted := Persist(rows, plan.change, now, fault);
            && (persisted.error.None? || (plan.change.Rewrite? && fault == ReadFault) ==>
                  Intent(persisted.rows) == Intent(plan.next))
            && (persisted.error.Some? && !(plan.change.Rewrite? && fault == ReadFault) ==>
                  persisted.rows == rows && Intent(rows) == Intent(plan.current))
  {
    assert ChangeFits(parseIp, rows, reserved, plan, now);
    ListingIntent(rows);
  }

  lemma SettleHeals(parseIp: IpParser, zone: string, rows: seq<Route>, live: Config, pushed: Result<Config, Error>,
                    persisted: Persisted, restored: Result<Config, Error>, plan: Plan, undone: bool)
    requires pushed.Ok? ==> Routes(parseIp, zone, pushed.value, Intent(plan.next))
    requires restored.Ok? ==> Routes(parseIp, zone, restored.value, Intent(plan.current))
    requires persisted.error.None? ==> Intent(persisted.rows) == Intent(plan.next)
    requires persisted.error.Some? && undone ==> Intent(persisted.rows) == Intent(plan.current)
    ensures var outcome := Settle(rows, live, pushed, persisted, restored);
            && (outcome.error == None ==> Routes(parseIp, zone, outcome.live, Intent(outcome.rows)))
            && (pushed.Ok? && restored.Ok? && undone ==> Routes(parseIp, zone, outcome.live, Intent(outcome.rows)))
  {
  }

  /** Two intents that no request can tell apart. */
  ghost predicate SameService(parseIp: IpParser, zone: string, a: map<string, Portable>, b: map<string, Portable>) {
    forall port: nat, host :: Direct(parseIp, zone, a, port, host) == Direct(parseIp, zone, b, port, host)
  }

  /** What an intent serves: for each enabled hostname, whether over TLS, and the proxy behind it. */
  function Served(parseIp: IpParser, intent: map<string, Portable>): map<string, (bool, Handler)> {
    map h | h in intent && intent[h].enabled ::
      (intent[h].publicMode == PUBLIC_HTTPS, ProxyTo(parseIp, intent[h].upstream))
  }

  /** Direct routing in terms of what is served. */
  function Serving(served: map<string, (bool, Handler)>, zone: string, port: nat, host: string): seq<Handler> {
    var k := |host| - |zone| - 1;
    if !(k >= 0 && host[k..] == "." + zone && host[..k] in served) then []
    else
      var (tls, proxy) := served[host[..k]];
      if port == 80 then (if tls then [Redirect(308)] else [proxy])
      else if port == 443 && tls then [proxy] else []
  }

  lemma DirectIsServing(parseIp: IpParser, zone: string, intent: map<string, Portable>, port: nat, host: string)
    ensures Direct(parseIp, zone, intent, port, host) == Serving(Served(parseIp, intent), zone, port, host)
  {
  }

  lemma ServingTells(served: map<string, (bool, Handler)>, zone: string, h: string)
    requires forall g :: g in served ==> served[g].1 != Redirect(308)
    ensures var plain := Serving(served, zone, 80, FullHost(h, zone));
            var tls := Serving(served, zone, 443, FullHost(h, zone));
            && (plain == [] <==> h !in served)
            && (h in served
                ==> served[h] == (plain == [Redirect(308)], if plain == [Redirect(308)] then tls[0] else plain[0]))
  {
    var host := FullHost(h, zone);
    var k := |host| - |zone| - 1;
    assert host[k..] == "." + zone && host[..k] == h;
  }

  lemma ServedIsProxied(parseIp: IpParser, intent: map<string, Portable>)
    ensures forall h :: h in Served(parseIp, intent) ==> Served(parseIp, intent)[h].1 != Redirect(308)
  {
  }

  /** No request can tell two intents apart exactly when they serve the same. */
  lemma SameServiceExactly(parseIp: IpParser, zone: string, a: map<string, Portable>, b: map<string, Portable>)
    ensures SameService(parseIp, zone, a, b) <==> Served(parseIp, a) == Served(parseIp, b)
  {
    hide Direct, Serving, Served, FullHost;
    var servedA, servedB := Served(parseIp, a), Served(parseIp, b);
    if SameService(parseIp, zone, a, b) {
      forall h ensures h in servedA <==> h in servedB
        ensures h in servedA ==> servedA[h] == servedB[h]
      {
        var host := FullHost(h, zone);
        DirectIsServing(parseIp, zone, a, 80, host);
        DirectIsServing(parseIp, zone, b, 80, host);
        DirectIsServing(parseIp, zone, a, 443, host);
        DirectIsServing(parseIp, zone, b, 443, host);
        ServedIsProxied(parseIp, a);
        ServedIsProxied(parseIp, b);
        ServingTells(servedA, zone, h);
        ServingTells(servedB, zone, h);
      }
    }
    if servedA == servedB {
      forall port: nat, host ensures Direct(parseIp, zone, a, port, host) == Direct(parseIp, zone, b, port, host) {
        DirectIsServing(parseIp, zone, a, port, host);
        DirectIsServing(parseIp, zone, b, port, host);
      }
    }
  }

  /** After a failed read-back the rolled-back proxy agrees with the store exactly when the rewrite
      made no difference to what is served. */
  lemma ReadBackFailureDisagrees(parseIp: IpParser, zone: string, rows: seq<Route>, live: Config, plan: Plan, now: Time,
                                 faults: Faults)
    requires IsRoutesTable(parseIp, rows) && IsSound(parseIp, rows, {}, plan) && IsReadBackFailure(plan, faults)
    requires Push(parseIp, zone, plan.next, faults.push).Ok? && Push(parseIp, zone, plan.current, faults.rollback).Ok?
    ensures var outcome := Commit(parseIp, zone, rows, live, plan, now, faults);
            && outcome.error == Some(SqlFailure)
            && Intent(outcome.rows) == Intent(plan.next)
            && (Routes(parseIp, zone, outcome.live, Intent(outcome.rows))
                <==> Served(parseIp, Intent(plan.current)) == Served(parseIp, Intent(plan.next)))
  {
    hide Routes, Intent, SameService, Served;
    PersistIntent(parseIp, rows, {}, plan, now, faults.persist);
    ReadBackError(parseIp, rows, {}, plan, now);
    PushedRoutes(parseIp, zone, plan.current, faults.rollback);
    var restored := Push(parseIp, zone, plan.current, faults.rollback).value;
    RoutesBoth(parseIp, zone, restored, Intent(plan.current), Intent(plan.next));
    SameServiceExactly(parseIp, zone, Intent(plan.current), Intent(plan.next));
  }

  /** The change has reached the table, whatever was reported. */
  predicate IsWritten(plan: Plan, faults: Faults) {
    plan.change.KeepRows? || faults.persist != WriteFault
  }

  /** Once the next list was pushed, the proxy stays on it: the change is confirmed, or the rollback
      push is refused. */
  predicate StaysOnNext(plan: Plan, faults: Faults) {
    (IsWritten(plan, faults) && !IsReadBackFailure(plan, faults)) || faults.rollback != PushOk
  }

  lemma PushOutcome(parseIp: IpParser, zone: string, routes: seq<Route>, fault: PushFault)
    ensures Push(parseIp, zone, routes, fault).Ok? <==> fault == PushOk && ValidateZone(zone).None?
  {
    hide ValidateZone, Rendered;
  }

  lemma PersistOutcome(parseIp: IpParser, rows: seq<Route>, reserved: set<string>, plan: Plan, now: Time,
                       faults: Faults)
    requires IsRoutesTable(parseIp, rows) && IsSound(parseIp, rows, reserved, plan)
    ensures var persisted := Persist(rows, plan.change, now, faults.persist);
            && (persisted.error.None? <==> IsWritten(plan, faults) && !IsReadBackFailure(plan, faults))
            && Intent(persisted.rows) == Intent(if IsWritten(plan, faults) then plan.next else plan.current)
  {
    hide Intent;
    assert ChangeFits(parseIp, rows, reserved, plan, now);
    ListingIntent(rows);
  }

  /** A proxy on one list and a store that asks for another agree exactly when both serve the same. */
  lemma RoutesExactly(parseIp: IpParser, zone: string, live: Config, a: map<string, Portable>, b: map<string, Portable>)
    requires Routes(parseIp, zone, live, a)
    ensures Routes(parseIp, zone, live, b) <==> Served(parseIp, a) == Served(parseIp, b)
  {
    hide Routes, Served, SameService;
    RoutesBoth(parseIp, zone, live, a, b);
    SameServiceExactly(parseIp, zone, a, b);
  }

  /** When proxy and store agree after a transaction, for every combination of faults: a refused push
      changes neither; otherwise the table moved on if and only if the proxy stayed on the next list,
      or the two lists serve the same. */
  lemma CommitAgreesExactly(parseIp: IpParser, zone: string, rows: seq<Route>, live: Config, reserved: set<string>,
                            plan: Plan, now: Time, faults: Faults)
    requires IsRoutesTable(parseIp, rows) && IsSound(parseIp, rows, reserved, plan)
    ensures var outcome := Commit(parseIp, zone, rows, live, plan, now, faults);
            if faults.push == PushOk && ValidateZone(zone).None? then
              Routes(parseIp, zone, outcome.live, Intent(outcome.rows))
              <==> (IsWritten(plan, faults) <==> StaysOnNext(plan, faults))
                   || Served(parseIp, Intent(plan.current)) == Served(parseIp, Intent(plan.next))
            else outcome.rows == rows && outcome.live == live
  {
    hide Routes, Intent, Served, Push, Persist, IsRoutesTable, IsWritten, ValidateZone;
    PushOutcome(parseIp, zone, plan.next, faults.push);
    PushOutcome(parseIp, zone, plan.current, faults.rollback);
    PersistOutcome(parseIp, rows, reserved, plan, now, faults);
    if faults.push == PushOk && ValidateZone(zone).None? {
      var outcome := Commit(parseIp, zone, rows, live, plan, now, faults);
      var onProxy := if StaysOnNext(plan, faults) then plan.next else plan.current;
      PushedRoutes(parseIp, zone, onProxy, PushOk);
      RoutesExactly(parseIp, zone, outcome.live, Intent(onProxy), Intent(outcome.rows));
    }
  }

  lemma ReadBackError(parseIp: IpParser, rows: seq<Route>, reserved: set<string>, plan: Plan, now: Time)
    requires IsSound(parseIp, rows, reserved, plan) && plan.change.Rewrite?
    ensures Persist(rows, plan.change, now, ReadFault).error == Some(SqlFailure)
  {
    assert ChangeFits(parseIp, rows, reserved, plan, now);
  }

  lemma RoutesBoth(parseIp: IpParser, zone: string, live: Config, a: map<string, Portable>, b: map<string, Portable>)
    requires Routes(parseIp, zone, live, a)
    ensures Routes(parseIp, zone, live, b) <==> SameService(parseIp, zone, a, b)
  {
    if Routes(parseIp, zone, live, b) {
      forall port: nat, host ensures Direct(parseIp, zone, a, port, host) == Direct(parseIp, zone, b, port, host) {
        assert Dispatch(live, port, host) == Direct(parseIp, zone, a, port, host);
      }
    }
    if SameService(parseIp, zone, a, b) {
      forall port: nat, host ensures Dispatch(live, port, host) == Direct(parseIp, zone, b, port, host) {
        assert Direct(parseIp, zone, a, port, host) == Direct(parseIp, zone, b, port, host);
      }
    }
  }
}
