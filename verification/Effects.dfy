/** What a caller gets from a mutation that succeeds: exactly the requested change to what the routes
    ask for, under the identity rules of the store, and nothing else. */
module Effects {
  import opened Results
  import opened Domain
  import opened Listing
  import opened Store
  import opened Caddy
  import opened Import
  import opened ImportLaws
  import opened Transactions

  /** What an input asks for, once normalised. */
  function Requested(input: RouteInput, enabled: bool): Portable {
    NormalPortable(Portable(input.hostname, enabled, input.publicMode, input.upstream))
  }

  lemma IntentIs(routes: seq<Route>, intent: map<string, Portable>)
    requires DistinctHosts(routes)
    requires forall r :: r in routes ==> r.hostname in intent && intent[r.hostname] == PortableOf(r)
    requires forall h :: h in intent ==> h in Hosts(routes)
    ensures Intent(routes) == intent
  {
    IntentFinds(routes);
  }

  /** Every row outside the mutation survives as it was. */
  ghost predicate OthersStay(rows: seq<Route>, after: seq<Route>, id: string) {
    forall r: Route :: r.id != id ==> (r in after <==> r in rows)
  }

  lemma AdmittedRequest(parseIp: IpParser, input: RouteInput, stamp: Stamp, enabled: bool)
    requires Admit(parseIp, input, stamp).Ok?
    ensures var route := Admit(parseIp, input, stamp).value;
            && PortableOf(route).(enabled := enabled) == Requested(input, enabled)
            && route.enabled && route.id == stamp.id && route.revision == 1
            && route.createdAt == route.updatedAt == stamp.at && route.health == HealthUnknown
  {
  }

  /** A create adds the requested route, enabled and at revision 1, where no route had its hostname. */
  lemma CreateTakesEffect(parseIp: IpParser, rows: seq<Route>, input: RouteInput, stamp: Stamp, now: Time,
                          after: seq<Route>)
    requires IsRoutesTable(parseIp, rows) && stamp.id !in Ids(rows) && Admit(parseIp, input, stamp).Ok?
    requires var planned := PlanCreate(rows, Admit(parseIp, input, stamp).value);
             planned.Ok? && ApplyChange(rows, planned.value.change, now) == Ok(after)
    ensures var wanted := Requested(input, true);
            wanted.hostname !in Intent(rows) && Intent(after) == Intent(rows)[wanted.hostname := wanted]
    ensures OthersStay(rows, after, stamp.id)
    ensures after[|after| - 1].id == stamp.id && after[|after| - 1].revision == 1
  {
    hide Admit, Requested, Intent, ByHost, SortByHost;
    var route := Admit(parseIp, input, stamp).value;
    AdmittedRequest(parseIp, input, stamp, true);
    SortCorrect(rows);
    NoClash(rows, route);
    IntentFinds(rows);
    assert after == rows + [route];
    AppendHosts(rows, route);
    IntentIs(after, Intent(rows)[route.hostname := PortableOf(route)]);
  }

  /** An update gives the id what was asked for, one revision on, and frees its old hostname. */
  lemma UpdateTakesEffect(parseIp: IpParser, rows: seq<Route>, id: string, input: RouteInput, enabled: bool,
                          revision: int, stamp: Stamp, now: Time, after: seq<Route>)
    requires IsRoutesTable(parseIp, rows) && Admit(parseIp, input, stamp).Ok?
    requires var planned := PlanUpdate(rows, id, Admit(parseIp, input, stamp).value, enabled, revision);
             planned.Ok? && ApplyChange(rows, planned.value.change, now) == Ok(after)
    ensures var i := IndexOf(rows, id);
            var wanted := Requested(input, enabled);
            && i < |rows| && rows[i].revision == revision && |after| == |rows|
            && Intent(after) == (Intent(rows) - {rows[i].hostname})[wanted.hostname := wanted]
            && IsNextRevision(rows[i], after[i]) && after[i].updatedAt == now
    ensures OthersStay(rows, after, id)
  {
    hide Admit, Requested, Intent, ByHost, SortByHost, IsRow;
    var admitted := Admit(parseIp, input, stamp).value;
    var plan := PlanUpdate(rows, id, admitted, enabled, revision).value;
    AdmittedRequest(parseIp, input, stamp, enabled);
    IdInListing(rows, id);
    var i := IndexOf(rows, id);
    var row := UpdatedRow(rows[i], plan.change.route, now);
    if HostTakenByOther(rows, id, admitted.hostname) {
      HostTakenAlike(rows, plan.current, id, admitted.hostname);
    }
    assert after == rows[i := row];
    assert PortableOf(row) == Requested(input, enabled);
    RewriteIntent(rows, i, row);
  }

  lemma RewriteIntent(rows: seq<Route>, i: nat, row: Route)
    requires IsTable(rows) && i < |rows| && row.id == rows[i].id && !HostTakenByOther(rows, row.id, row.hostname)
    ensures Intent(rows[i := row]) == (Intent(rows) - {rows[i].hostname})[row.hostname := PortableOf(row)]
    ensures OthersStay(rows, rows[i := row], row.id)
  {
    hide Intent, ByHost;
    var after := rows[i := row];
    ReplacedAt(rows, i, row);
    IntentFinds(rows);
    var intent := (Intent(rows) - {rows[i].hostname})[row.hostname := PortableOf(row)];
    forall r | r in after ensures r.hostname in intent && intent[r.hostname] == PortableOf(r) {
      if r != row {
        OtherHost(rows, i, row, r);
      }
    }
    forall h | h in intent ensures h in Hosts(after) {
      if h == row.hostname {
        assert row in after;
      } else {
        var r :| r in rows && r.hostname == h;
        assert r in after;
      }
    }
    IntentIs(after, intent);
  }

  lemma OtherHost(rows: seq<Route>, i: nat, row: Route, r: Route)
    requires IsTable(rows) && i < |rows| && row.id == rows[i].id && !HostTakenByOther(rows, row.id, row.hostname)
    requires r in rows && r.id != row.id
    ensures r.hostname != rows[i].hostname && r.hostname != row.hostname
  {
  }

  /** A delete removes the route with the id and asks for nothing else to change. */
  lemma DeleteTakesEffect(rows: seq<Route>, id: string, revision: int, now: Time, after: seq<Route>)
    requires IsTable(rows)
    requires var planned := PlanDelete(rows, id, revision);
             planned.Ok? && ApplyChange(rows, planned.value.change, now) == Ok(after)
    ensures var i := IndexOf(rows, id);
            i < |rows| && rows[i].revision == revision && Intent(after) == Intent(rows) - {rows[i].hostname}
    ensures OthersStay(rows, after, id) && id !in Ids(after)
  {
    hide Intent, ByHost, SortByHost, IsTable, OthersStay, Ids, IndexOf;
    var i := IndexOf(rows, id);
    IdInListing(rows, id);
    RemovedIntent(rows, i);
  }

  lemma RemovedIntent(rows: seq<Route>, i: nat)
    requires IsTable(rows) && i < |rows|
    ensures var after := rows[..i] + rows[i + 1..];
            && Intent(after) == Intent(rows) - {rows[i].hostname}
            && OthersStay(rows, after, rows[i].id) && rows[i].id !in Ids(after)
  {
    hide Intent, ByHost;
    var after := rows[..i] + rows[i + 1..];
    RemovedAt(rows, i);
    IntentFinds(rows);
    var intent := Intent(rows) - {rows[i].hostname};
    forall h | h in intent ensures h in Hosts(after) {
      var r :| r in rows && r.hostname == h;
      assert r in after;
    }
    forall r | r in after ensures r.hostname != rows[i].hostname {
      HostNamesOne(rows, r, rows[i]);
    }
    IntentIs(after, intent);
  }

  lemma HostNamesOne(rows: seq<Route>, a: Route, b: Route)
    requires DistinctHosts(rows) && a in rows && b in rows && a.id != b.id
    ensures a.hostname != b.hostname
  {
  }

  /** A transaction that succeeds has made its change. */
  lemma SucceededCommit(parseIp: IpParser, zone: string, rows: seq<Route>, live: Config, plan: Plan, now: Time,
                        faults: Faults)
    requires Commit(parseIp, zone, rows, live, plan, now, faults).error == None
    ensures ApplyChange(rows, plan.change, now) == Ok(Commit(parseIp, zone, rows, live, plan, now, faults).rows)
  {
    hide Push, ApplyChange;
    if plan.change.KeepRows? {
      KeptRows(rows, now);
    }
  }

  lemma KeptRows(rows: seq<Route>, now: Time)
    ensures ApplyChange(rows, KeepRows, now) == Ok(rows)
  {
  }

  // ----- The read-back failure of an update -----

  /** One route served as another: both disabled, or enabled with the same hostname, mode and proxy. */
  predicate ServesAlike(parseIp: IpParser, a: Portable, b: Portable) {
    if a.enabled then
      b.enabled && a.hostname == b.hostname && (a.publicMode == PUBLIC_HTTPS <==> b.publicMode == PUBLIC_HTTPS)
      && ProxyTo(parseIp, a.upstream) == ProxyTo(parseIp, b.upstream)
    else !b.enabled
  }

  lemma RewrittenServed(parseIp: IpParser, intent: map<string, Portable>, h: string, wanted: Portable)
    requires h in intent && intent[h].hostname == h
    requires wanted.hostname in intent ==> wanted.hostname == h
    ensures Served(parseIp, intent) == Served(parseIp, (intent - {h})[wanted.hostname := wanted])
            <==> ServesAlike(parseIp, intent[h], wanted)
  {
    hide ProxyTo;
    var after := (intent - {h})[wanted.hostname := wanted];
    var a, b := Served(parseIp, intent), Served(parseIp, after);
    assert forall g :: g != h && g != wanted.hostname ==> (g in a <==> g in b) && (g in a ==> a[g] == b[g]);
    assert h in a <==> intent[h].enabled;
    assert wanted.hostname in b <==> wanted.enabled;
    if a == b {
      assert wanted.enabled ==> wanted.hostname in a;
      assert intent[h].enabled ==> h in b;
    }
  }

  /** When store.UpdateRoute writes the row but cannot read it back, the service tries to roll the proxy
      back although the store has moved on. The two agree exactly when that push is refused, or when
      the stored route and the requested one are served alike; so after an accepted rollback an update
      that disables a route leaves it served. */
  lemma LostReadBack(parseIp: IpParser, zone: string, rows: seq<Route>, live: Config, id: string, input: RouteInput,
                     enabled: bool, revision: int, stamp: Stamp, plan: Plan, now: Time, faults: Faults)
    requires IsRoutesTable(parseIp, rows) && Admit(parseIp, input, stamp).Ok?
    requires PlanUpdate(rows, id, Admit(parseIp, input, stamp).value, enabled, revision) == Ok(plan)
    requires ValidateZone(zone).None? && faults.push == PushOk && faults.persist == ReadFault
    ensures IndexOf(rows, id) < |rows|
    ensures var outcome := Commit(parseIp, zone, rows, live, plan, now, faults);
            && outcome.error == Some(SqlFailure) && outcome.rows != rows
            && (Routes(parseIp, zone, outcome.live, Intent(outcome.rows))
                <==> faults.rollback != PushOk
                     || ServesAlike(parseIp, PortableOf(rows[IndexOf(rows, id)]), Requested(input, enabled)))
  {
    hide IsRoutesTable, IsSound, Intent, Routes, Commit, ApplyChange, Admit, Requested, SortByHost, IndexOf;
    hide Served, ServesAlike, Push, PlanUpdate, Persist, ValidateZone;
    var outcome := Commit(parseIp, zone, rows, live, plan, now, faults);
    var admitted := Admit(parseIp, input, stamp).value;
    AdmittedIsRow(parseIp, input, stamp);
    UpdateIsSound(parseIp, rows, id, admitted, enabled, revision);
    PlansPush(parseIp, zone, rows, id, admitted, enabled, revision, plan);
    CommitAgreesExactly(parseIp, zone, rows, live, {}, plan, now, faults);
    ReadBackFails(parseIp, zone, rows, live, plan, now, faults);
    ReadBackRows(parseIp, zone, rows, live, plan, now, faults);
    UpdateTakesEffect(parseIp, rows, id, input, enabled, revision, stamp, now, outcome.rows);
    TableListing(parseIp, rows);
    var i := IndexOf(rows, id);
    FreeHost(rows, id, admitted, enabled, revision);
    AdmittedRequest(parseIp, input, stamp, enabled);
    IntentFinds(rows);
    assert rows[i] in rows;
    RewrittenServed(parseIp, Intent(rows), rows[i].hostname, Requested(input, enabled));
  }

  lemma PlansPush(parseIp: IpParser, zone: string, rows: seq<Route>, id: string, admitted: Route, enabled: bool,
                  revision: int, plan: Plan)
    requires PlanUpdate(rows, id, admitted, enabled, revision) == Ok(plan) && ValidateZone(zone).None?
    ensures plan.current == SortByHost(rows) && plan.change.Rewrite?
    ensures Push(parseIp, zone, plan.next, PushOk).Ok? && Push(parseIp, zone, plan.current, PushOk).Ok?
  {
    hide SortByHost, Rendered;
  }

  lemma ReadBackFails(parseIp: IpParser, zone: string, rows: seq<Route>, live: Config, plan: Plan, now: Time,
                      faults: Faults)
    requires IsRoutesTable(parseIp, rows) && IsSound(parseIp, rows, {}, plan)
    requires plan.change.Rewrite? && faults.persist == ReadFault
    requires Push(parseIp, zone, plan.next, faults.push).Ok?
    ensures Commit(parseIp, zone, rows, live, plan, now, faults).error == Some(SqlFailure)
    ensures Intent(Commit(parseIp, zone, rows, live, plan, now, faults).rows) == Intent(plan.next)
  {
    hide Push, Persist, Intent, IsRoutesTable, IsSound;
    ReadBackError(parseIp, rows, {}, plan, now);
    PersistIntent(parseIp, rows, {}, plan, now, ReadFault);
  }

  lemma ReadBackRows(parseIp: IpParser, zone: string, rows: seq<Route>, live: Config, plan: Plan, now: Time,
                     faults: Faults)
    requires IsSound(parseIp, rows, {}, plan) && plan.change.Rewrite? && faults.persist == ReadFault
    requires Push(parseIp, zone, plan.next, faults.push).Ok?
    ensures ApplyChange(rows, plan.change, now) == Ok(Commit(parseIp, zone, rows, live, plan, now, faults).rows)
  {
    hide Push;
    assert ChangeFits(parseIp, rows, {}, plan, now);
  }

  lemma TableListing(parseIp: IpParser, rows: seq<Route>)
    requires IsRoutesTable(parseIp, rows)
    ensures IsTable(rows) && Intent(SortByHost(rows)) == Intent(rows)
  {
    ListingIntent(rows);
  }

  /** The hostname an update asks for is its own or nobody's. */
  lemma FreeHost(rows: seq<Route>, id: string, admitted: Route, enabled: bool, revision: int)
    requires IsTable(rows) && PlanUpdate(rows, id, admitted, enabled, revision).Ok?
    ensures var i := IndexOf(rows, id);
            i < |rows| && (admitted.hostname in Intent(rows) ==> admitted.hostname == rows[i].hostname)
  {
    hide Intent, SortByHost;
    IdInListing(rows, id);
    IntentFinds(rows);
    if HostTakenByOther(rows, id, admitted.hostname) {
      HostTakenAlike(rows, SortByHost(rows), id, admitted.hostname);
    }
  }

  /** A delete undoes a create: the very table is back, and with it every fingerprint taken before.
      A matching fingerprint means equal state, not that nothing ran since. */
  lemma DeleteUndoesCreate(rows: seq<Route>, route: Route, next: seq<Route>)
    requires IsTable(rows) && route.id !in Ids(rows) && route.hostname !in Hosts(rows)
    ensures InsertRow(rows, route).Ok?
    ensures var during := InsertRow(rows, route).value;
            && DeleteRow(during, route.id, route.revision) == Ok(rows)
            && PlanImport(during, SortByHost(rows), next).Err?
            && PlanImport(DeleteRow(during, route.id, route.revision).value, SortByHost(rows), next).Ok?
  {
    hide Hosts, SortByHost;
    var during := InsertRow(rows, route).value;
    NoClash(rows, route);
    var n := |rows|;
    assert during[n] in during && during[n].id == route.id;
    forall k | 0 <= k < n ensures during[k].id != route.id {
      assert rows[k] in rows;
    }
    assert during[..n] + during[n + 1..] == rows;
    SortCorrect(rows);
    SortCorrect(during);
    assert |SortByHost(during)| == n + 1 && |SortByHost(rows)| == n;
  }
}
