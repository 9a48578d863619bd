/** What an import does to a reachable table: an exact diff, an override by hostname, the identity
    on its own export. */
module ImportLaws {
  import opened Results
  import opened Text
  import opened Domain
  import opened Listing
  import opened Store
  import opened Caddy
  import opened Import

  /** ExportConfig's routes. */
  function Export(listing: seq<Route>): seq<Portable> {
    seq(|listing|, i requires 0 <= i < |listing| => PortableOf(listing[i]))
  }

  /** Every hostname an import mentions, with the last normalised route under it. */
  function Wanted(entries: seq<Entry>): map<string, Portable> {
    if entries == [] then map[]
    else
      var normal := NormalPortable(entries[|entries| - 1].portable);
      Wanted(entries[..|entries| - 1])[normal.hostname := normal]
  }

  function Normals(entries: seq<Entry>): seq<Portable> {
    seq(|entries|, i requires 0 <= i < |entries| => NormalPortable(entries[i].portable))
  }

  // ----- One resolved import -----

  lemma AdmittedIsRow(parseIp: IpParser, input: RouteInput, stamp: Stamp)
    requires Admit(parseIp, input, stamp).Ok?
    ensures IsRow(parseIp, Admit(parseIp, input, stamp).value)
  {
    NewRouteFixpoint(parseIp, input, stamp, stamp);
  }

  /** The same identity, one revision on. */
  predicate IsNextRevision(row: Route, route: Route) {
    route.id == row.id && route.revision == row.revision + 1 && route.createdAt == row.createdAt
  }

  /** Against a reachable listing, an import meets its hostname's holder in one of three ways:
      there is none, it repeats it exactly, or it moves it one revision on. */
  ghost predicate ThreeWay(existing: map<string, Route>, entry: Entry, route: Route) {
    if route.hostname !in existing then
      route.id == entry.stamp.id && route.revision == 1 && route.createdAt == route.updatedAt == entry.stamp.at
    else
      var previous := existing[route.hostname];
      if SamePortable(previous, entry.portable) then route == previous
      else IsNextRevision(previous, route) && route.updatedAt == entry.stamp.at
  }

  /** A map from hostnames to the reachable rows that hold them. */
  ghost predicate ReachableIndex(parseIp: IpParser, existing: map<string, Route>) {
    forall h :: h in existing ==> existing[h].hostname == h && IsRow(parseIp, existing[h])
  }

  lemma ResolvedThreeWay(parseIp: IpParser, existing: map<string, Route>, entry: Entry, route: Route)
    requires ReachableIndex(parseIp, existing)
    requires ResolvesTo(parseIp, existing, entry, route)
    ensures ThreeWay(existing, entry, route) && IsRow(parseIp, route)
  {
    var admitted := Admit(parseIp, PortableInput(entry.portable), entry.stamp).value;
    AdmittedIsRow(parseIp, PortableInput(entry.portable), entry.stamp);
    RowFields(parseIp, admitted, route);
    if route.hostname in existing {
      var previous := existing[route.hostname];
      if SamePortable(previous, entry.portable) {
        assert InputOf(previous) == PortableInput(entry.portable);
        RepeatedRoute(parseIp, previous, entry, route);
      }
    }
  }

  lemma RowFields(parseIp: IpParser, admitted: Route, route: Route)
    requires IsRow(parseIp, admitted)
    requires InputOf(route) == InputOf(admitted) && route.health == HealthUnknown && route.revision >= 1
    ensures IsRow(parseIp, route)
  {
  }

  lemma RepeatedRoute(parseIp: IpParser, previous: Route, entry: Entry, route: Route)
    requires IsRow(parseIp, previous) && SamePortable(previous, entry.portable)
    requires route.id == previous.id && route.revision == previous.revision && route.health == HealthUnknown
    requires route.createdAt == previous.createdAt && route.updatedAt == previous.updatedAt
    requires PortableOf(route) == NormalPortable(entry.portable)
    ensures route == previous
  {
    hide Normalise, Validate;
    NormalInputIsFixed(parseIp, InputOf(previous));
  }

  lemma IndexOfTable(parseIp: IpParser, current: seq<Route>)
    requires IsRoutesTable(parseIp, current)
    ensures ReachableIndex(parseIp, ByHost(current))
  {
    ByHostFinds(current);
    forall h | h in ByHost(current) ensures IsRow(parseIp, ByHost(current)[h]) {
      assert ByHost(current)[h] in current;
    }
  }

  /** All resolved imports at once. */
  lemma ResolvedAll(parseIp: IpParser, current: seq<Route>, entries: seq<Entry>)
    requires IsRoutesTable(parseIp, current) && Resolved(parseIp, ByHost(current), entries).Ok?
    ensures var existing := ByHost(current);
            var done := Resolved(parseIp, existing, entries).value;
            && DistinctHosts(done)
            && forall i :: 0 <= i < |entries| ==>
                 && ThreeWay(existing, entries[i], done[i])
                 && IsRow(parseIp, done[i])
                 && PortableOf(done[i]) == NormalPortable(entries[i].portable)
  {
    var existing := ByHost(current);
    var done := Resolved(parseIp, existing, entries).value;
    ResolvedFacts(parseIp, existing, entries);
    IndexOfTable(parseIp, current);
    forall i | 0 <= i < |entries|
      ensures ThreeWay(existing, entries[i], done[i]) && IsRow(parseIp, done[i])
      ensures PortableOf(done[i]) == NormalPortable(entries[i].portable)
    {
      assert ResolvesTo(parseIp, existing, entries[i], done[i]);
      ResolvedThreeWay(parseIp, existing, entries[i], done[i]);
    }
  }

  // ----- The next list is a reachable table again -----

  /** Each route of the next list is carried over, moves a carried id one revision on, or is new and
      at its first revision. */
  ghost predicate Succeeds(rows: seq<Route>, reserved: set<string>, route: Route) {
    || route in rows
    || (exists row :: row in rows && IsNextRevision(row, route))
    || (route.id in reserved && route.revision == 1)
  }

  lemma NewIdsAreDistinct(current: seq<Route>, entries: seq<Entry>, done: seq<Route>)
    requires IsTable(current) && DistinctHosts(done) && |done| == |entries|
    requires FreshEntries(entries, Ids(current))
    requires forall i :: 0 <= i < |entries| ==> ThreeWay(ByHost(current), entries[i], done[i])
    ensures DistinctIds(done)
    ensures forall i :: 0 <= i < |done| ==>
              (if done[i].hostname in ByHost(current) then ByHost(current)[done[i].hostname].id == done[i].id
               else done[i].id in StampIds(entries) && done[i].id !in Ids(current))
  {
    var existing := ByHost(current);
    ByHostFinds(current);
    forall i | 0 <= i < |done|
      ensures if done[i].hostname in existing then existing[done[i].hostname].id == done[i].id
              else done[i].id in StampIds(entries) && done[i].id !in Ids(current)
    {
      assert ThreeWay(existing, entries[i], done[i]) && entries[i] in entries;
    }
    forall i, j | 0 <= i < j < |done| ensures done[i].id != done[j].id {
      assert ThreeWay(existing, entries[i], done[i]) && ThreeWay(existing, entries[j], done[j]);
      if done[i].hostname in existing && done[j].hostname in existing {
        var a, b := existing[done[i].hostname], existing[done[j].hostname];
        if a.id == b.id {
          DistinctRows(current, a, b);
        }
      }
    }
  }

  lemma DistinctRows(rows: seq<Route>, a: Route, b: Route)
    requires DistinctIds(rows) && a in rows && b in rows && a.id == b.id
    ensures a == b
  {
  }

  /** An import builds a reachable table, sorted, whose routes succeed those of the listing. */
  lemma BuildIsTable(parseIp: IpParser, current: seq<Route>, entries: seq<Entry>, mode: string)
    requires IsRoutesTable(parseIp, current) && FreshEntries(entries, Ids(current))
    requires Build(parseIp, current, entries, mode).Ok?
    ensures var next := Build(parseIp, current, entries, mode).value.routes;
            && Sorted(next) && IsRoutesTable(parseIp, next)
            && forall r :: r in next ==> Succeeds(current, StampIds(entries), r)
  {
    var done := Resolved(parseIp, ByHost(current), entries).value;
    var built := Build(parseIp, current, entries, mode).value;
    BuildAssembles(parseIp, current, entries, mode);
    AssembledIds(current, entries, mode, done, built);
    ResolvedAll(parseIp, current, entries);
    RowsOf(parseIp, current, done, built.routes);
  }

  lemma RowsOf(parseIp: IpParser, current: seq<Route>, done: seq<Route>, next: seq<Route>)
    requires AllRows(parseIp, current)
    requires forall i :: 0 <= i < |done| ==> IsRow(parseIp, done[i])
    requires forall r :: r in next ==> r in done || r in current
    ensures AllRows(parseIp, next)
  {
  }

  lemma AssembledIds(current: seq<Route>, entries: seq<Entry>, mode: string, done: seq<Route>, built: Built)
    requires IsTable(current) && FreshEntries(entries, Ids(current))
    requires Assembled(current, entries, mode, done, built)
    ensures DistinctIds(built.routes)
    ensures forall r :: r in built.routes ==> Succeeds(current, StampIds(entries), r)
  {
    var existing, next := ByHost(current), built.routes;
    ByHostFinds(current);
    NewIdsAreDistinct(current, entries, done);
    forall r | r in next ensures Succeeds(current, StampIds(entries), r) {
      if r in done {
        var i :| 0 <= i < |done| && done[i] == r;
        assert ThreeWay(existing, entries[i], done[i]);
      }
    }
    forall i, j | 0 <= i < j < |next| ensures next[i].id != next[j].id {
      assert next[i] in next && next[j] in next;
      if next[i].id == next[j].id {
        MergedIds(current, entries, mode, done, next[i], next[j]);
      }
    }
  }

  lemma MergedIds(current: seq<Route>, entries: seq<Entry>, mode: string, done: seq<Route>, a: Route, b: Route)
    requires IsTable(current) && DistinctHosts(done) && |done| == |entries|
    requires FreshEntries(entries, Ids(current))
    requires forall i :: 0 <= i < |entries| ==> ThreeWay(ByHost(current), entries[i], done[i])
    requires a in done || (a in current && a.hostname !in Hosts(done))
    requires b in done || (b in current && b.hostname !in Hosts(done))
    requires a.id == b.id
    ensures a == b
  {
    NewIdsAreDistinct(current, entries, done);
    if a !in done && b !in done {
      DistinctRows(current, a, b);
    } else if a in done && b !in done {
      CarriedIdDiffers(current, done, b, a);
    } else if a !in done && b in done {
      CarriedIdDiffers(current, done, a, b);
    }
  }

  /** A stored route kept under another hostname has another id than any resolved import. */
  lemma CarriedIdDiffers(current: seq<Route>, done: seq<Route>, stored: Route, resolved: Route)
    requires IsTable(current) && stored in current && stored.hostname !in Hosts(done) && resolved in done
    requires forall i :: 0 <= i < |done| ==>
               (if done[i].hostname in ByHost(current) then ByHost(current)[done[i].hostname].id == done[i].id
                else done[i].id !in Ids(current))
    ensures stored.id != resolved.id
  {
    ByHostFinds(current);
    var i :| 0 <= i < |done| && done[i] == resolved;
    if resolved.hostname in ByHost(current) {
      var holder := ByHost(current)[resolved.hostname];
      if holder.id == stored.id {
        DistinctRows(current, stored, holder);
      }
    }
  }

  // ----- The counts are the exact diff -----

  function Changed(before: map<string, Route>, after: map<string, Route>): set<string> {
    set h | h in after && h in before && before[h] != after[h]
  }

  /** What a successful build assembles, apart from how its routes were validated. */
  ghost predicate Assembled(current: seq<Route>, entries: seq<Entry>, mode: string, done: seq<Route>, built: Built) {
    && |done| == |entries| && DistinctHosts(done)
    && (forall i :: 0 <= i < |entries| ==> ThreeWay(ByHost(current), entries[i], done[i]))
    && Sorted(built.routes) && DistinctHosts(built.routes)
    && (forall r :: r in built.routes <==> r in done || (mode == MERGE && r in current && r.hostname !in Hosts(done)))
    && Hosts(built.routes) == Hosts(done) + (if mode == MERGE then Hosts(current) else {})
    && built.counts.added == CountAdded(ByHost(current), done)
    && built.counts.updated == CountUpdated(ByHost(current), entries, done)
    && built.counts.deleted == (if mode == REPLACE then |Hosts(current) - Hosts(done)| else 0)
  }

  lemma BuildAssembles(parseIp: IpParser, current: seq<Route>, entries: seq<Entry>, mode: string)
    requires IsRoutesTable(parseIp, current) && Build(parseIp, current, entries, mode).Ok?
    ensures Resolved(parseIp, ByHost(current), entries).Ok?
    ensures Assembled(current, entries, mode, Resolved(parseIp, ByHost(current), entries).value,
                      Build(parseIp, current, entries, mode).value)
  {
    var done := Resolved(parseIp, ByHost(current), entries).value;
    var all := Kept(current, mode, done) + done;
    ResolvedAll(parseIp, current, entries);
    MergedFacts(current, mode, done);
    SortCorrect(all);
    SortedHasDistinctHosts(SortByHost(all));
    ByHostFinds(current);
    SameHosts(SortByHost(all), all);
  }

  lemma SameHosts(a: seq<Route>, b: seq<Route>)
    requires SameRoutes(a, b)
    ensures Hosts(a) == Hosts(b)
  {
  }

  lemma OneMore(hosts: set<string>, h: string, known: set<string>)
    requires h !in hosts
    ensures |hosts + {h} - known| == |hosts - known| + if h in known then 0 else 1
  {
    if h in known {
      assert hosts + {h} - known == hosts - known;
    } else {
      assert hosts + {h} - known == (hosts - known) + {h};
    }
  }

  lemma SplitLast(routes: seq<Route>)
    requires DistinctHosts(routes) && routes != []
    ensures var front, last := routes[..|routes| - 1], routes[|routes| - 1];
            && DistinctHosts(front)
            && last.hostname !in Hosts(front)
            && Hosts(routes) == Hosts(front) + {last.hostname}
  {
    var front, last := routes[..|routes| - 1], routes[|routes| - 1];
    assert routes == front + [last];
    AppendHosts(front, last);
  }

  lemma {:induction false} CountAddedIsDiff(existing: map<string, Route>, done: seq<Route>)
    requires DistinctHosts(done)
    ensures CountAdded(existing, done) == |Hosts(done) - existing.Keys|
  {
    if done != [] {
      var front, last := done[..|done| - 1], done[|done| - 1];
      SplitLast(done);
      CountAddedIsDiff(existing, front);
      OneMore(Hosts(front), last.hostname, existing.Keys);
    }
  }

  /** One more resolved import changes the set of changed hostnames by its own at most. */
  lemma ChangedByOne(existing: map<string, Route>, before: map<string, Route>, entry: Entry, last: Route)
    requires last.hostname !in before && ThreeWay(existing, entry, last)
    ensures |Changed(existing, before[last.hostname := last])| ==
              |Changed(existing, before)|
              + if last.hostname in existing && !SamePortable(existing[last.hostname], entry.portable) then 1 else 0
  {
    var h := last.hostname;
    var after := Changed(existing, before[h := last]);
    if h in existing && !SamePortable(existing[h], entry.portable) {
      assert after == Changed(existing, before) + {h};
    } else {
      assert after == Changed(existing, before);
    }
  }

  lemma {:induction false} CountUpdatedIsDiff(existing: map<string, Route>, entries: seq<Entry>, done: seq<Route>)
    requires DistinctHosts(done) && |done| == |entries|
    requires forall i :: 0 <= i < |entries| ==> ThreeWay(existing, entries[i], done[i])
    ensures CountUpdated(existing, entries, done) == |Changed(existing, ByHost(done))|
  {
    if done == [] {
      assert Changed(existing, ByHost(done)) == {};
    } else {
      var n := |done| - 1;
      var front, last := done[..n], done[n];
      SplitLast(done);
      forall i | 0 <= i < n ensures ThreeWay(existing, entries[..n][i], front[i]) {
        assert entries[..n][i] == entries[i] && front[i] == done[i];
      }
      CountUpdatedIsDiff(existing, entries[..n], front);
      ByHostFinds(front);
      ChangedByOne(existing, ByHost(front), entries[n], last);
    }
  }

  lemma DiffSizes(before: set<string>, after: set<string>)
    ensures |after| == |before| + |after - before| - |before - after|
  {
    assert after == (after * before) + (after - before);
    assert before == (after * before) + (before - after);
  }

  /** The preview counts are the numbers of hostnames only in the next list, in both with a
      different route, and only in the current one; so the sizes add up, in both modes. */
  lemma CountsAreTheDiff(parseIp: IpParser, current: seq<Route>, entries: seq<Entry>, mode: string)
    requires IsRoutesTable(parseIp, current) && (mode == MERGE || mode == REPLACE)
    requires Build(parseIp, current, entries, mode).Ok?
    ensures IsDiff(current, Build(parseIp, current, entries, mode).value)
  {
    BuildAssembles(parseIp, current, entries, mode);
    AssembledCounts(current, entries, mode, Resolved(parseIp, ByHost(current), entries).value,
                    Build(parseIp, current, entries, mode).value);
  }

  ghost predicate IsDiff(current: seq<Route>, built: Built) {
    && built.counts.added == |Hosts(built.routes) - Hosts(current)|
    && built.counts.updated == |Changed(ByHost(current), ByHost(built.routes))|
    && built.counts.deleted == |Hosts(current) - Hosts(built.routes)|
    && |built.routes| == |current| + built.counts.added - built.counts.deleted
  }

  lemma AssembledCounts(current: seq<Route>, entries: seq<Entry>, mode: string, done: seq<Route>, built: Built)
    requires IsTable(current) && (mode == MERGE || mode == REPLACE)
    requires Assembled(current, entries, mode, done, built)
    ensures IsDiff(current, built)
  {
    var existing := ByHost(current);
    ByHostFinds(current);
    CountAddedIsDiff(existing, done);
    CountUpdatedIsDiff(existing, entries, done);
    ChangedAmongResolved(current, mode, done, built.routes);
    HostDiff(Hosts(current), Hosts(done), if mode == MERGE then Hosts(current) else {});
    HostCount(built.routes);
    HostCount(current);
    DiffSizes(Hosts(current), Hosts(built.routes));
  }

  lemma HostDiff(current: set<string>, done: set<string>, kept: set<string>)
    requires kept == current || kept == {}
    ensures (done + kept) - current == done - current
    ensures current - (done + kept) == if kept == current then {} else current - done
  {
  }

  lemma ChangedAmongResolved(current: seq<Route>, mode: string, done: seq<Route>, next: seq<Route>)
    requires DistinctHosts(current) && DistinctHosts(done) && DistinctHosts(next)
    requires forall r :: r in next <==> r in done || (mode == MERGE && r in current && r.hostname !in Hosts(done))
    ensures Changed(ByHost(current), ByHost(next)) == Changed(ByHost(current), ByHost(done))
  {
    ByHostFinds(current);
    ByHostFinds(done);
    ByHostFinds(next);
    forall h ensures h in Changed(ByHost(current), ByHost(next)) <==> h in Changed(ByHost(current), ByHost(done)) {
      if h in ByHost(next) {
        assert ByHost(next)[h] in next;
      }
      if h in ByHost(done) {
        assert ByHost(done)[h] in next;
      }
    }
  }

  // ----- Merge overrides, replace replaces -----

  lemma NoIntent()
    ensures Intent([]) == map[]
  {
  }

  lemma IntentOneMore(routes: seq<Route>)
    requires routes != []
    ensures var last := routes[|routes| - 1];
            Intent(routes) == Intent(routes[..|routes| - 1])[last.hostname := PortableOf(last)]
  {
  }

  lemma {:induction false} WantedIsIntent(entries: seq<Entry>, done: seq<Route>)
    requires |done| == |entries| && DistinctHosts(done)
    requires forall i :: 0 <= i < |entries| ==> PortableOf(done[i]) == NormalPortable(entries[i].portable)
    ensures Intent(done) == Wanted(entries)
  {
    hide Intent, ByHost, NormalPortable, Hosts;
    if entries == [] {
      assert done == [];
      NoIntent();
    } else {
      var n := |entries| - 1;
      var front, last := done[..n], done[n];
      SplitLast(done);
      forall i | 0 <= i < n ensures PortableOf(front[i]) == NormalPortable(entries[..n][i].portable) {
        assert entries[..n][i] == entries[i] && front[i] == done[i];
      }
      WantedIsIntent(entries[..n], front);
      IntentOneMore(done);
    }
  }

  /** Merge is right-biased override by hostname; replace keeps nothing else. */
  lemma ImportIsOverride(parseIp: IpParser, current: seq<Route>, entries: seq<Entry>, mode: string)
    requires IsRoutesTable(parseIp, current) && (mode == MERGE || mode == REPLACE)
    requires Build(parseIp, current, entries, mode).Ok?
    ensures Intent(Build(parseIp, current, entries, mode).value.routes) ==
              (if mode == MERGE then Intent(current) else map[]) + Wanted(entries)
  {
    BuildAssembles(parseIp, current, entries, mode);
    ResolvedAsks(parseIp, current, entries);
    AssembledIntent(current, entries, mode, Resolved(parseIp, ByHost(current), entries).value,
                    Build(parseIp, current, entries, mode).value);
  }

  lemma ResolvedAsks(parseIp: IpParser, current: seq<Route>, entries: seq<Entry>)
    requires IsRoutesTable(parseIp, current) && Resolved(parseIp, ByHost(current), entries).Ok?
    ensures var done := Resolved(parseIp, ByHost(current), entries).value;
            Intent(done) == Wanted(entries) && Export(done) == Normals(entries)
  {
    var done := Resolved(parseIp, ByHost(current), entries).value;
    ResolvedAll(parseIp, current, entries);
    WantedIsIntent(entries, done);
    assert Export(done) == Normals(entries);
  }

  lemma AssembledIntent(current: seq<Route>, entries: seq<Entry>, mode: string, done: seq<Route>, built: Built)
    requires DistinctHosts(current) && Assembled(current, entries, mode, done, built)
    ensures Intent(built.routes) == (if mode == MERGE then Intent(current) else map[]) + Intent(done)
  {
    hide Intent, ByHost, CountAdded, CountUpdated, ThreeWay, Sorted, DistinctHosts;
    var next := built.routes;
    var base := if mode == MERGE then Intent(current) else map[];
    IntentFinds(current);
    IntentFinds(done);
    IntentFinds(next);
    assert Intent(next).Keys == base.Keys + Intent(done).Keys;
    forall h | h in Intent(next) ensures Intent(next)[h] == (base + Intent(done))[h] {
      if h in Intent(done) {
        CarriedIntent(done, next, h);
      } else {
        KeptIntentOf(current, done, next, h);
      }
    }
  }

  lemma KeptIntentOf(current: seq<Route>, done: seq<Route>, next: seq<Route>, h: string)
    requires DistinctHosts(current) && DistinctHosts(next) && h in Hosts(current) && h !in Hosts(done)
    requires forall r :: r in current && r.hostname !in Hosts(done) ==> r in next
    ensures h in Intent(current) && h in Intent(next) && Intent(next)[h] == Intent(current)[h]
  {
    hide Intent;
    IntentFinds(current);
    IntentFinds(next);
    var r :| r in current && r.hostname == h;
  }

  lemma CarriedIntent(some: seq<Route>, all: seq<Route>, h: string)
    requires DistinctHosts(some) && DistinctHosts(all) && h in Intent(some)
    requires forall r :: r in some ==> r in all
    ensures h in Intent(all) && Intent(all)[h] == Intent(some)[h]
  {
    IntentFinds(some);
    IntentFinds(all);
    var r :| r in some && r.hostname == h;
  }

  /** The same portables, as many, in strict hostname order. */
  ghost predicate IsSortedExport(exported: seq<Portable>, portables: seq<Portable>) {
    && |exported| == |portables|
    && (forall i, j :: 0 <= i < j < |exported| ==> StrLess(exported[i].hostname, exported[j].hostname))
    && (forall p :: p in exported <==> p in portables)
  }

  /** Applying a replace import and then exporting yields the imported routes, normalised, one per
      import, in strict hostname order. */
  lemma ReplaceThenExport(parseIp: IpParser, current: seq<Route>, entries: seq<Entry>)
    requires IsRoutesTable(parseIp, current) && Build(parseIp, current, entries, REPLACE).Ok?
    ensures IsSortedExport(Export(Build(parseIp, current, entries, REPLACE).value.routes), Normals(entries))
  {
    hide ByHost, Resolved, CountAdded, CountUpdated, Intent, IsRoutesTable, SortByHost, Normals, Wanted, IsSortedExport;
    hide Export, Kept;
    var done := Resolved(parseIp, ByHost(current), entries).value;
    BuildAssembles(parseIp, current, entries, REPLACE);
    ResolvedAsks(parseIp, current, entries);
    ReplaceKeepsNone(current, done);
    SortedExport(done, Normals(entries));
  }

  lemma ReplaceKeepsNone(current: seq<Route>, done: seq<Route>)
    ensures Kept(current, REPLACE, done) + done == done
  {
    hide KeepOthers, Hosts;
    assert |MERGE| != |REPLACE|;
  }

  lemma SortedExport(done: seq<Route>, portables: seq<Portable>)
    requires DistinctHosts(done) && portables == Export(done)
    ensures IsSortedExport(Export(SortByHost(done)), portables)
  {
    var next := SortByHost(done);
    var exported := Export(next);
    SortCorrect(done);
    forall p | p in exported ensures p in portables {
      var k :| 0 <= k < |exported| && exported[k] == p;
      assert next[k] in done;
      var i :| 0 <= i < |done| && done[i] == next[k];
      assert portables[i] == p;
    }
    forall p | p in portables ensures p in exported {
      var i :| 0 <= i < |portables| && portables[i] == p;
      assert done[i] in next;
      var k :| 0 <= k < |next| && next[k] == done[i];
      assert exported[k] == p;
    }
  }

  // ----- Importing what is already there -----

  predicate IsNormalPortable(portable: Portable) {
    NormalPortable(portable) == portable
  }

  /** An import that repeats a stored route of a reachable listing resolves to that very route. */
  lemma RepeatResolves(parseIp: IpParser, existing: map<string, Route>, entry: Entry, previous: Route)
    requires IsRow(parseIp, previous) && previous.hostname in existing && existing[previous.hostname] == previous
    requires entry.portable == PortableOf(previous)
    ensures ResolvesTo(parseIp, existing, entry, previous)
  {
    hide Normalise, Validate;
    NormalInputIsFixed(parseIp, InputOf(previous));
    assert PortableInput(entry.portable) == InputOf(previous);
    assert SamePortable(previous, entry.portable);
    var admitted := Admit(parseIp, InputOf(previous), entry.stamp);
    assert admitted.Ok?;
    assert Resolve(existing, entry.portable, admitted.value) == previous;
  }

  lemma {:induction false} NothingCounted(existing: map<string, Route>, entries: seq<Entry>, done: seq<Route>)
    requires |entries| == |done|
    requires forall i :: 0 <= i < |done| ==>
               && done[i].hostname in existing
               && SamePortable(existing[done[i].hostname], entries[i].portable)
    ensures CountAdded(existing, done) == 0 && CountUpdated(existing, entries, done) == 0
  {
    if done != [] {
      NothingCounted(existing, entries[..|done| - 1], done[..|done| - 1]);
    }
  }

  /** Importing some of the stored routes back resolves to them, and counts nothing new or changed. */
  lemma RepeatedImports(parseIp: IpParser, current: seq<Route>, entries: seq<Entry>, done: seq<Route>)
    requires IsRoutesTable(parseIp, current) && |done| == |entries| && DistinctHosts(done)
    requires forall i :: 0 <= i < |done| ==> done[i] in current && entries[i].portable == PortableOf(done[i])
    ensures Resolved(parseIp, ByHost(current), entries) == Ok(done)
    ensures CountAdded(ByHost(current), done) == 0 && CountUpdated(ByHost(current), entries, done) == 0
  {
    ByHostFinds(current);
    forall i | 0 <= i < |done| ensures ResolvesTo(parseIp, ByHost(current), entries[i], done[i]) {
      RepeatResolves(parseIp, ByHost(current), entries[i], done[i]);
    }
    ResolvedBy(parseIp, ByHost(current), entries, done);
    NothingCounted(ByHost(current), entries, done);
  }

  /** Export then import is the identity: in either mode the preview of a table's own export counts
      nothing and proposes the listing itself, ids, revisions and times included. */
  lemma ExportImportIdentity(parseIp: IpParser, rows: seq<Route>, entries: seq<Entry>, mode: string)
    requires IsRoutesTable(parseIp, rows) && (mode == MERGE || mode == REPLACE)
    requires var exported := Export(SortByHost(rows));
             |entries| == |exported| && forall i :: 0 <= i < |entries| ==> entries[i].portable == exported[i]
    ensures var listing := SortByHost(rows);
            Build(parseIp, listing, entries, mode) == Ok(Built(listing, Counts(0, 0, 0)))
  {
    var listing := SortByHost(rows);
    SortCorrect(rows);
    SortedTable(rows);
    RepeatedImports(parseIp, listing, entries, listing);
    MergedFacts(listing, mode, listing);
    var all := Kept(listing, mode, listing) + listing;
    ByHostFinds(listing);
    SortDependsOnContent(all, listing);
    SortOfSorted(listing);
    assert ByHost(listing).Keys - Hosts(listing) == {};
  }

  /** Importing the same configuration a second time changes nothing exactly when every route in it
      is already in normal form: an un-normalised route moves its revision on again. */
  lemma SecondImport(parseIp: IpParser, current: seq<Route>, entries: seq<Entry>, again: seq<Entry>, mode: string)
    requires IsRoutesTable(parseIp, current) && FreshEntries(entries, Ids(current))
    requires mode == MERGE || mode == REPLACE
    requires Build(parseIp, current, entries, mode).Ok?
    requires |again| == |entries| && forall i :: 0 <= i < |again| ==> again[i].portable == entries[i].portable
    ensures var next := Build(parseIp, current, entries, mode).value.routes;
            Build(parseIp, next, again, mode) == Ok(Built(next, Counts(0, 0, 0)))
            <==> forall i :: 0 <= i < |entries| ==> IsNormalPortable(entries[i].portable)
  {
    var done := Resolved(parseIp, ByHost(current), entries).value;
    var next := Build(parseIp, current, entries, mode).value.routes;
    ResolvedAll(parseIp, current, entries);
    BuildAssembles(parseIp, current, entries, mode);
    BuildIsTable(parseIp, current, entries, mode);
    forall i | 0 <= i < |again|
      ensures done[i] in next && PortableOf(done[i]) == NormalPortable(again[i].portable)
    {
      assert again[i].portable == entries[i].portable;
      assert done[i] in done;
    }
    SecondOfSame(parseIp, current, next, again, mode, done);
  }

  lemma UpperCaseEntry(parseIp: IpParser, stamp: Stamp)
    ensures var portable := Portable("APP", true, "http", Upstream("http", "app", 80, false));
            Admit(parseIp, PortableInput(portable), stamp).Ok? && NormalPortable(portable).hostname == "app"
  {
    hide IsDnsName, Trim, TrimSpace, ToLower;
    UpperCaseNormal();
    LowerCaseName();
  }

  lemma UpperCaseNormal()
    ensures var upstream := Upstream("http", "app", 80, false);
            Normalise(RouteInput("APP", "http", upstream)) == RouteInput("app", "http", upstream)
  {
    hide TrimSpace;
    TrimSpaceKeeps("APP");
    TrimSpaceKeeps("http");
    TrimSpaceKeeps("app");
    assert ToLower("APP") == "app" && ToLower("http") == "http";
  }

  lemma LowerCaseName()
    ensures ValidateRelativeHostname("app").None? && IsDnsName("app") && !HasUrlChar("app")
  {
    SplitAtom("app", '.');
  }

  /** An import of "APP" into an empty table, imported again: it counts an update although the content
      is the same, for the import is compared as it was written. */
  lemma UpperCaseImportCountsAgain(parseIp: IpParser, stamp: Stamp, mode: string)
    requires mode == MERGE || mode == REPLACE
    ensures var entries := [Entry(Portable("APP", true, "http", Upstream("http", "app", 80, false)), stamp)];
            var first := Build(parseIp, [], entries, mode);
            && first.Ok?
            && Build(parseIp, first.value.routes, entries, mode) != Ok(Built(first.value.routes, Counts(0, 0, 0)))
  {
    hide Admit, Normalise, IsNormalInput;
    var portable := Portable("APP", true, "http", Upstream("http", "app", 80, false));
    var entries := [Entry(portable, stamp)];
    UpperCaseEntry(parseIp, stamp);
    NoHosts();
    AdmittedResolves(parseIp, ByHost([]), entries[0]);
    assert entries[..0] == [] && Resolved(parseIp, ByHost([]), []) == Ok([]);
    assert Build(parseIp, [], entries, mode).Ok?;
    assert !IsNormalPortable(entries[0].portable);
    SecondImport(parseIp, [], entries, entries, mode);
  }

  lemma SecondOfSame(parseIp: IpParser, current: seq<Route>, next: seq<Route>, again: seq<Entry>, mode: string,
                     done: seq<Route>)
    requires IsTable(current) && IsRoutesTable(parseIp, next) && Sorted(next)
    requires mode == MERGE || mode == REPLACE
    requires |done| == |again| && DistinctHosts(done)
    requires next == SortByHost(Kept(current, mode, done) + done)
    requires forall i :: 0 <= i < |again|
               ==> done[i] in next && PortableOf(done[i]) == NormalPortable(again[i].portable)
    ensures Build(parseIp, next, again, mode) == Ok(Built(next, Counts(0, 0, 0)))
            <==> forall i :: 0 <= i < |again| ==> IsNormalPortable(again[i].portable)
  {
    hide IsTable, Sorted, SortByHost, Kept, ByHost, DistinctHosts, Hosts, NormalPortable, Resolved, CountAdded;
    hide CountUpdated;
    SortedIsDistinct(next);
    SortedIsDistinct(current);
    if forall i :: 0 <= i < |again| ==> IsNormalPortable(again[i].portable) {
      RepeatedImports(parseIp, next, again, done);
      SecondMerge(current, next, mode, done);
    } else {
      var k :| 0 <= k < |again| && !IsNormalPortable(again[k].portable);
      if Build(parseIp, next, again, mode).Ok? {
        UnnormalisedMovesOn(parseIp, next, again, mode, done, k);
      }
    }
  }

  lemma SortedIsDistinct(routes: seq<Route>)
    ensures Sorted(routes) || IsTable(routes) ==> DistinctHosts(routes)
  {
    if Sorted(routes) {
      SortedHasDistinctHosts(routes);
    }
  }

  lemma SecondMerge(current: seq<Route>, next: seq<Route>, mode: string, done: seq<Route>)
    requires DistinctHosts(current) && DistinctHosts(done) && Sorted(next) && DistinctHosts(next)
    requires mode == MERGE || mode == REPLACE
    requires next == SortByHost(Kept(current, mode, done) + done)
    ensures SortByHost(Kept(next, mode, done) + done) == next
    ensures mode == REPLACE ==> ByHost(next).Keys - Hosts(done) == {}
  {
    MergedFacts(current, mode, done);
    SortCorrect(Kept(current, mode, done) + done);
    MergedFacts(next, mode, done);
    ByHostFinds(next);
    var all := Kept(next, mode, done) + done;
    forall r ensures r in all <==> r in next {
      if r in next && r !in done && mode == MERGE {
        assert r in current && r.hostname !in Hosts(done);
      }
    }
    SortDependsOnContent(all, next);
    SortOfSorted(next);
  }

  lemma UnnormalisedMovesOn(parseIp: IpParser, next: seq<Route>, again: seq<Entry>, mode: string, done: seq<Route>,
                            k: nat)
    requires IsRoutesTable(parseIp, next) && Build(parseIp, next, again, mode).Ok?
    requires |done| == |again| && k < |again|
    requires done[k] in next && PortableOf(done[k]) == NormalPortable(again[k].portable)
    requires !IsNormalPortable(again[k].portable)
    ensures Build(parseIp, next, again, mode).value.routes != next
  {
    var second := Resolved(parseIp, ByHost(next), again).value;
    var built := Build(parseIp, next, again, mode).value;
    ResolvedAll(parseIp, next, again);
    BuildAssembles(parseIp, next, again, mode);
    ByHostFinds(next);
    assert PortableOf(second[k]) == PortableOf(done[k]);
    OutgrownRoute(next, again[k], done[k], second[k]);
    assert second[k] in second;
  }

  lemma OutgrownRoute(next: seq<Route>, entry: Entry, stored: Route, second: Route)
    requires DistinctHosts(next) && stored in next && PortableOf(second) == PortableOf(stored) != entry.portable
    requires ThreeWay(ByHost(next), entry, second)
    ensures second !in next
  {
    ByHostFinds(next);
    assert second.hostname == PortableOf(second).hostname == stored.hostname;
    assert second.revision == stored.revision + 1;
  }
}
