/** buildImportedRoutes of internal/controller/config.go: a whole next route list from a listing,
    an imported configuration and a mode, with the counts shown in the preview. */
module Import {
  import opened Results
  import opened Domain
  import opened Listing
  import opened Caddy

  const MERGE: string := "merge"
  const REPLACE: string := "replace"

  /** One imported route with the id and time its NewRoute call draws. */
  datatype Entry = Entry(portable: Portable, stamp: Stamp)

  datatype Counts = Counts(added: nat, updated: nat, deleted: nat)

  datatype Built = Built(routes: seq<Route>, counts: Counts)

  function PortableInput(portable: Portable): RouteInput {
    RouteInput(portable.hostname, portable.publicMode, portable.upstream)
  }

  /** An imported route as NewRoute rewrites it. */
  function NormalPortable(portable: Portable): Portable {
    var input := Normalise(PortableInput(portable));
    Portable(input.hostname, portable.enabled, input.publicMode, input.upstream)
  }

  /** A row NewRoute would accept again unchanged, at a revision some writer gave it. */
  predicate IsRow(parseIp: IpParser, route: Route) {
    route.revision >= 1 && route.health == HealthUnknown && IsNormalInput(parseIp, InputOf(route))
  }

  ghost predicate AllRows(parseIp: IpParser, rows: seq<Route>) {
    forall row {:trigger IsRow(parseIp, row)} :: row in rows ==> IsRow(parseIp, row)
  }

  /** What every reachable table is. */
  ghost predicate IsRoutesTable(parseIp: IpParser, rows: seq<Route>) {
    IsTable(rows) && AllRows(parseIp, rows)
  }

  function StampIds(entries: seq<Entry>): set<string> {
    set entry | entry in entries :: entry.stamp.id
  }

  predicate FreshEntries(entries: seq<Entry>, taken: set<string>) {
    && (forall i, j :: 0 <= i < j < |entries| ==> entries[i].stamp.id != entries[j].stamp.id)
    && (forall i :: 0 <= i < |entries| ==> entries[i].stamp.id !in taken)
  }

  // ----- The specification -----

  predicate SamePortable(route: Route, portable: Portable) {
    && route.hostname == portable.hostname
    && route.enabled == portable.enabled
    && route.publicMode == portable.publicMode
    && route.upstream == portable.upstream
  }

  /** The route an admitted import stands for, given what already has its hostname. */
  function Resolve(existing: map<string, Route>, portable: Portable, admitted: Route): Route {
    var validated := admitted.(enabled := portable.enabled);
    if validated.hostname !in existing then validated
    else
      var previous := existing[validated.hostname];
      if SamePortable(previous, portable) then
        validated.(id := previous.id, createdAt := previous.createdAt, revision := previous.revision,
            updatedAt := previous.updatedAt)
      else
        validated.(id := previous.id, createdAt := previous.createdAt, revision := previous.revision + 1)
  }

  /** The resolved imports in order, or the first error met. */
  function Resolved(parseIp: IpParser, existing: map<string, Route>,
                    entries: seq<Entry>): (r: Result<seq<Route>, Error>)
    ensures r.Ok? ==> |r.value| == |entries|
  {
    if entries == [] then Ok([])
    else
      var last := entries[|entries| - 1];
      match Resolved(parseIp, existing, entries[..|entries| - 1])
      case Err(error) => Err(error)
      case Ok(done) =>
        match Admit(parseIp, PortableInput(last.portable), last.stamp)
        case Err(error) => Err(InRoute(last.portable.hostname, error))
        case Ok(admitted) =>
          if admitted.hostname in Hosts(done) then Err(DuplicateImportedHostname(admitted.hostname))
          else Ok(done + [Resolve(existing, last.portable, admitted)])
  }

  function CountAdded(existing: map<string, Route>, done: seq<Route>): nat {
    if done == [] then 0
    else
      CountAdded(existing, done[..|done| - 1]) + if done[|done| - 1].hostname in existing then 0 else 1
  }

  function CountUpdated(existing: map<string, Route>, entries: seq<Entry>, done: seq<Route>): nat
    requires |entries| == |done|
  {
    if done == [] then 0
    else
      var n := |done| - 1;
      var h := done[n].hostname;
      CountUpdated(existing, entries[..n], done[..n])
      + if h in existing && !SamePortable(existing[h], entries[n].portable) then 1 else 0
  }

  /** The routes of a listing whose hostname is not in the set. */
  function KeepOthers(routes: seq<Route>, hosts: set<string>): seq<Route> {
    if routes == [] then []
    else if routes[0].hostname in hosts then KeepOthers(routes[1..], hosts)
    else [routes[0]] + KeepOthers(routes[1..], hosts)
  }

  function Kept(current: seq<Route>, mode: string, done: seq<Route>): seq<Route> {
    if mode == MERGE then KeepOthers(current, Hosts(done)) else []
  }

  function Build(parseIp: IpParser, current: seq<Route>, entries: seq<Entry>, mode: string): Result<Built, Error> {
    var existing := ByHost(current);
    match Resolved(parseIp, existing, entries)
    case Err(error) => Err(error)
    case Ok(done) =>
      Ok(Built(
        SortByHost(Kept(current, mode, done) + done),
        Counts(
          CountAdded(existing, done),
          CountUpdated(existing, entries, done),
          if mode == REPLACE then |existing.Keys - Hosts(done)| else 0)))
  }

  // ----- Facts about the pieces -----

  lemma {:induction false} KeepOthersMembers(routes: seq<Route>, hosts: set<string>)
    ensures forall r :: r in KeepOthers(routes, hosts) <==> r in routes && r.hostname !in hosts
    ensures DistinctHosts(routes) ==> DistinctHosts(KeepOthers(routes, hosts))
  {
    if routes != [] {
      var rest := KeepOthers(routes[1..], hosts);
      KeepOthersMembers(routes[1..], hosts);
      assert routes == [routes[0]] + routes[1..];
      if DistinctHosts(routes) {
        forall i | 0 <= i < |rest| ensures rest[i].hostname != routes[0].hostname {
          assert rest[i] in routes[1..];
        }
      }
    }
  }

  lemma AppendHosts(routes: seq<Route>, last: Route)
    ensures Hosts(routes + [last]) == Hosts(routes) + {last.hostname}
    ensures DistinctHosts(routes + [last]) <==> DistinctHosts(routes) && last.hostname !in Hosts(routes)
  {
    var all := routes + [last];
    assert forall r :: r in all <==> r in routes || r == last;
    if DistinctHosts(all) {
      forall i | 0 <= i < |routes| ensures routes[i].hostname != last.hostname {
        assert all[i] == routes[i] && all[|routes|] == last;
      }
      forall i, j | 0 <= i < j < |routes| ensures routes[i].hostname != routes[j].hostname {
        assert all[i] == routes[i] && all[j] == routes[j];
      }
    }
    if DistinctHosts(routes) && last.hostname !in Hosts(routes) {
      forall i | 0 <= i < |routes| ensures routes[i].hostname != last.hostname {
        assert routes[i] in routes;
      }
    }
  }

  /** What resolution of one entry yields. */
  ghost predicate ResolvesTo(parseIp: IpParser, existing: map<string, Route>, entry: Entry, route: Route) {
    var admitted := Admit(parseIp, PortableInput(entry.portable), entry.stamp);
    && admitted.Ok?
    && route == Resolve(existing, entry.portable, admitted.value)
    && PortableOf(route) == NormalPortable(entry.portable)
  }

  lemma AdmittedResolves(parseIp: IpParser, existing: map<string, Route>, entry: Entry)
    requires Admit(parseIp, PortableInput(entry.portable), entry.stamp).Ok?
    ensures var admitted := Admit(parseIp, PortableInput(entry.portable), entry.stamp).value;
            var route := Resolve(existing, entry.portable, admitted);
            ResolvesTo(parseIp, existing, entry, route) && route.hostname == admitted.hostname
  {
    hide Normalise, Validate;
  }

  lemma {:induction false} ResolvedFacts(parseIp: IpParser, existing: map<string, Route>, entries: seq<Entry>)
    requires Resolved(parseIp, existing, entries).Ok?
    ensures var done := Resolved(parseIp, existing, entries).value;
            && DistinctHosts(done)
            && forall i :: 0 <= i < |entries| ==> ResolvesTo(parseIp, existing, entries[i], done[i])
  {
    hide Admit, Resolve, ResolvesTo, Hosts, DistinctHosts;
    if entries == [] {
      assert DistinctHosts([]) by {
        NoHosts();
      }
    } else {
      var front, last := entries[..|entries| - 1], entries[|entries| - 1];
      ResolvedFacts(parseIp, existing, front);
      var done := Resolved(parseIp, existing, front).value;
      var admitted := Admit(parseIp, PortableInput(last.portable), last.stamp).value;
      AdmittedResolves(parseIp, existing, last);
      AppendHosts(done, Resolve(existing, last.portable, admitted));
      forall i | 0 <= i < |front| ensures ResolvesTo(parseIp, existing, entries[i], done[i]) {
        assert entries[i] == front[i];
      }
    }
  }

  lemma NoHosts()
    ensures DistinctHosts([])
  {
  }

  lemma ResolvedOneMore(parseIp: IpParser, existing: map<string, Route>, entries: seq<Entry>, entry: Entry,
                        done: seq<Route>, route: Route)
    requires Resolved(parseIp, existing, entries) == Ok(done)
    requires ResolvesTo(parseIp, existing, entry, route) && route.hostname !in Hosts(done)
    ensures Resolved(parseIp, existing, entries + [entry]) == Ok(done + [route])
  {
    hide Normalise, Validate, Hosts;
    var all := entries + [entry];
    assert all[..|all| - 1] == entries && all[|all| - 1] == entry;
  }

  /** Conversely, entries that are admitted with distinct hostnames resolve. */
  lemma {:induction false} ResolvedBy(parseIp: IpParser, existing: map<string, Route>, entries: seq<Entry>,
                                      done: seq<Route>)
    requires |done| == |entries| && DistinctHosts(done)
    requires forall i :: 0 <= i < |entries| ==> ResolvesTo(parseIp, existing, entries[i], done[i])
    ensures Resolved(parseIp, existing, entries) == Ok(done)
  {
    hide ResolvesTo, Admit, Resolve, Hosts, DistinctHosts;
    if entries == [] {
      assert done == [];
    } else {
      var n := |entries| - 1;
      var front, routes := entries[..n], done[..n];
      forall i | 0 <= i < n ensures ResolvesTo(parseIp, existing, front[i], routes[i]) {
        assert front[i] == entries[i] && routes[i] == done[i];
      }
      assert entries == front + [entries[n]] && done == routes + [done[n]];
      AppendHosts(routes, done[n]);
      ResolvedBy(parseIp, existing, front, routes);
      ResolvedOneMore(parseIp, existing, front, entries[n], routes, done[n]);
    }
  }

  lemma MergedFacts(current: seq<Route>, mode: string, done: seq<Route>)
    requires DistinctHosts(current) && DistinctHosts(done)
    ensures var all := Kept(current, mode, done) + done;
            && DistinctHosts(all)
            && (forall r :: r in all <==> r in done || (mode == MERGE && r in current && r.hostname !in Hosts(done)))
            && Hosts(all) == Hosts(done) + if mode == MERGE then Hosts(current) else {}
  {
    var kept := Kept(current, mode, done);
    KeepOthersMembers(current, Hosts(done));
    var all := kept + done;
    assert forall r :: r in all <==> r in kept || r in done;
    forall i, j | 0 <= i < j < |all| ensures all[i].hostname != all[j].hostname {
      if i < |kept| && j >= |kept| {
        assert all[i] == kept[i] && kept[i] in kept;
        assert all[j] == done[j - |kept|] && done[j - |kept|] in done;
      }
    }
  }

  // ----- The method -----

  method IndexByHost(routes: seq<Route>) returns (index: map<string, Route>)
    ensures index == ByHost(routes)
  {
    index := map[];
    for i := 0 to |routes|
      invariant index == ByHost(routes[..i])
    {
      assert routes[..i + 1][..i] == routes[..i];
      index := index[routes[i].hostname := routes[i]];
    }
    assert routes[..|routes|] == routes;
  }

  /** The visited hostnames that no import mentioned. */
  function UnseenAmong(keys: set<string>, pending: set<string>, seen: set<string>): nat {
    |keys - pending - seen|
  }

  lemma VisitStarts(keys: set<string>, seen: set<string>)
    ensures UnseenAmong(keys, keys, seen) == 0
    ensures UnseenAmong(keys, {}, seen) == |keys - seen|
  {
    assert keys - keys - seen == {};
    assert keys - {} - seen == keys - seen;
  }

  lemma VisitOne(keys: set<string>, pending: set<string>, seen: set<string>, h: string)
    requires pending <= keys && h in pending
    ensures UnseenAmong(keys, pending - {h}, seen) == UnseenAmong(keys, pending, seen) + if h in seen then 0 else 1
  {
    if h in seen {
      assert keys - (pending - {h}) - seen == keys - pending - seen;
    } else {
      assert keys - (pending - {h}) - seen == (keys - pending - seen) + {h};
    }
  }

  method CountUnseen(existing: map<string, Route>, seen: set<string>) returns (deleted: nat)
    ensures deleted == |existing.Keys - seen|
  {
    hide UnseenAmong;
    deleted := 0;
    var keys := existing.Keys;
    var pending := keys;
    VisitStarts(keys, seen);
    while pending != {}
      invariant pending <= keys
      invariant deleted == UnseenAmong(keys, pending, seen)
    {
      var h :| h in pending;
      VisitOne(keys, pending, seen, h);
      if h !in seen {
        deleted := deleted + 1;
      }
      pending := pending - {h};
    }
  }

  /** One import met by what already has its hostname: it takes over the identity, and the revision
      moves on unless nothing changed. Counts 1 for a new hostname, 1 for a change. */
  method ResolveImported(existing: map<string, Route>, portable: Portable, admitted: Route)
    returns (validated: Route, added: nat, updated: nat)
    ensures validated == Resolve(existing, portable, admitted)
    ensures added == if admitted.hostname in existing then 0 else 1
    ensures updated ==
              if admitted.hostname in existing && !SamePortable(existing[admitted.hostname], portable) then 1 else 0
  {
    added, updated := 0, 0;
    validated := admitted.(enabled := portable.enabled);
    if validated.hostname in existing {
      var previous := existing[validated.hostname];
      validated := validated.(id := previous.id, createdAt := previous.createdAt);
      validated := validated.(revision := previous.revision + 1);
      if !SamePortable(previous, portable) {
        updated := 1;
      } else {
        validated := validated.(revision := previous.revision, updatedAt := previous.updatedAt);
      }
    } else {
      added := 1;
    }
  }

  /** The loop's progress after `i` entries. */
  ghost predicate ResolvedSoFar(parseIp: IpParser, existing: map<string, Route>, entries: seq<Entry>, i: nat,
                                done: seq<Route>, added: nat, updated: nat)
    requires i <= |entries|
  {
    && Resolved(parseIp, existing, entries[..i]) == Ok(done)
    && added == CountAdded(existing, done)
    && updated == CountUpdated(existing, entries[..i], done)
  }

  lemma ResolveNext(parseIp: IpParser, existing: map<string, Route>, entries: seq<Entry>, i: nat,
                    done: seq<Route>, added: nat, updated: nat)
    requires i < |entries| && ResolvedSoFar(parseIp, existing, entries, i, done, added, updated)
    ensures var portable := entries[i].portable;
            var through := Resolved(parseIp, existing, entries[..i + 1]);
            var admitted := Admit(parseIp, PortableInput(portable), entries[i].stamp);
            && (admitted.Err? ==> through == Err(InRoute(portable.hostname, admitted.error)))
            && (admitted.Ok? && admitted.value.hostname in Hosts(done) ==>
                  through == Err(DuplicateImportedHostname(admitted.value.hostname)))
            && (admitted.Ok? && admitted.value.hostname !in Hosts(done) ==>
                  ResolvedSoFar(parseIp, existing, entries, i + 1, done + [Resolve(existing, portable, admitted.value)],
                    if admitted.value.hostname in existing then added else added + 1,
                    if admitted.value.hostname in existing && !SamePortable(existing[admitted.value.hostname], portable)
                    then updated + 1 else updated))
  {
    hide Admit, Resolve, Hosts, SamePortable, CountAdded, CountUpdated;
    var upTo := entries[..i + 1];
    assert upTo == entries[..i] + [entries[i]];
    assert upTo[..|upTo| - 1] == entries[..i] && upTo[|upTo| - 1] == entries[i];
    var admitted := Admit(parseIp, PortableInput(entries[i].portable), entries[i].stamp);
    if admitted.Ok? {
      var route := Resolve(existing, entries[i].portable, admitted.value);
      ResolveKeepsHost(existing, entries[i].portable, admitted.value);
      CountOneMore(existing, entries[..i], done, entries[i], route);
    }
  }

  lemma ResolveKeepsHost(existing: map<string, Route>, portable: Portable, admitted: Route)
    ensures Resolve(existing, portable, admitted).hostname == admitted.hostname
  {
  }

  lemma CountOneMore(existing: map<string, Route>, entries: seq<Entry>, done: seq<Route>, entry: Entry, route: Route)
    requires |entries| == |done|
    ensures CountAdded(existing, done + [route])
              == CountAdded(existing, done) + if route.hostname in existing then 0 else 1
    ensures CountUpdated(existing, entries + [entry], done + [route])
              == CountUpdated(existing, entries, done)
                 + if route.hostname in existing && !SamePortable(existing[route.hostname], entry.portable)
                   then 1 else 0
  {
    hide SamePortable;
    assert (done + [route])[..|done|] == done && (entries + [entry])[..|done|] == entries;
  }

  lemma NothingResolved(parseIp: IpParser, existing: map<string, Route>, base: map<string, Route>, entries: seq<Entry>)
    ensures ResolvedSoFar(parseIp, existing, entries, 0, [], 0, 0)
    ensures base + ByHost([]) == base && Hosts([]) == {}
  {
    assert entries[..0] == [];
  }

  /** The loop over the imported routes: it stops at the first bad one, and otherwise overlays the
      map it was given. */
  method OverlayImports(parseIp: IpParser, existing: map<string, Route>, base: map<string, Route>, entries: seq<Entry>)
    returns (failure: Option<Error>, nextByHost: map<string, Route>, seen: set<string>, added: nat, updated: nat,
             ghost done: seq<Route>)
    ensures failure.Some? ==> Resolved(parseIp, existing, entries) == Err(failure.value)
    ensures failure.None? ==>
              && ResolvedSoFar(parseIp, existing, entries, |entries|, done, added, updated)
              && seen == Hosts(done)
              && nextByHost == base + ByHost(done)
  {
    hide Admit, Resolve, SamePortable, Resolved, ByHost, DistinctHosts, Hosts, ResolvedSoFar;
    failure, nextByHost, seen, added, updated, done := None, base, {}, 0, 0, [];
    NothingResolved(parseIp, existing, base, entries);
    for i := 0 to |entries|
      invariant failure == None
      invariant ResolvedSoFar(parseIp, existing, entries, i, done, added, updated)
      invariant seen == Hosts(done)
      invariant nextByHost == base + ByHost(done)
    {
      ResolveNext(parseIp, existing, entries, i, done, added, updated);
      var portable := entries[i].portable;
      var admitted := NewRoute(parseIp, PortableInput(portable), entries[i].stamp);
      if admitted.Err? {
        ErrorPersists(parseIp, existing, entries, i + 1);
        failure := Some(InRoute(portable.hostname, admitted.error));
        return;
      }
      var validated := admitted.value;
      if validated.hostname in seen {
        ErrorPersists(parseIp, existing, entries, i + 1);
        failure := Some(DuplicateImportedHostname(validated.hostname));
        return;
      }
      seen := seen + {validated.hostname};
      ResolveKeepsHost(existing, portable, validated);
      var isNew, isChanged;
      validated, isNew, isChanged := ResolveImported(existing, portable, validated);
      added := added + isNew;
      updated := updated + isChanged;
      nextByHost := nextByHost[validated.hostname := validated];
      AppendHosts(done, validated);
      ByHostAppend(base, done, validated);
      done := done + [validated];
    }
  }

  /** buildImportedRoutes: three maps, three counters, and a final sort. */
  method BuildImportedRoutes(parseIp: IpParser, current: seq<Route>, entries: seq<Entry>, mode: string)
    returns (result: Result<Built, Error>)
    requires DistinctHosts(current)
    ensures result == Build(parseIp, current, entries, mode)
  {
    var existing := IndexByHost(current);
    var nextByHost: map<string, Route> := map[];
    if mode == MERGE {
      nextByHost := IndexByHost(current);
    }
    var failure, seen, added, updated;
    ghost var done;
    failure, nextByHost, seen, added, updated, done := OverlayImports(parseIp, existing, nextByHost, entries);
    if failure.Some? {
      return Err(failure.value);
    }
    assert entries[..|entries|] == entries;
    var deleted := 0;
    if mode == REPLACE {
      deleted := CountUnseen(existing, seen);
    }
    ResolvedFacts(parseIp, existing, entries);
    MergedFacts(current, mode, done);
    CollectedRoutes(current, mode, done, nextByHost);
    var next := Collect(nextByHost);
    SortDependsOnContent(next, Kept(current, mode, done) + done);
    return Ok(Built(SortByHost(next), Counts(added, updated, deleted)));
  }

  lemma ByHostAppend(base: map<string, Route>, routes: seq<Route>, last: Route)
    ensures base + ByHost(routes + [last]) == (base + ByHost(routes))[last.hostname := last]
  {
    assert (routes + [last])[..|routes|] == routes;
  }

  /** The routes of the map, in whatever order its iteration takes. */
  method Collect(nextByHost: map<string, Route>) returns (next: seq<Route>)
    requires forall h :: h in nextByHost ==> nextByHost[h].hostname == h
    ensures DistinctHosts(next)
    ensures forall r :: r in next <==> r.hostname in nextByHost && nextByHost[r.hostname] == r
  {
    next := [];
    var pending := nextByHost.Keys;
    while pending != {}
      invariant pending <= nextByHost.Keys
      invariant DistinctHosts(next)
      invariant forall r :: r in next <==> r.hostname in nextByHost.Keys - pending && nextByHost[r.hostname] == r
    {
      var h :| h in pending;
      assert forall i :: 0 <= i < |next| ==> next[i] in next;
      next := next + [nextByHost[h]];
      pending := pending - {h};
    }
  }

  lemma {:induction false} ErrorPersists(parseIp: IpParser, existing: map<string, Route>, entries: seq<Entry>, k: nat)
    requires k <= |entries| && Resolved(parseIp, existing, entries[..k]).Err?
    ensures Resolved(parseIp, existing, entries) == Resolved(parseIp, existing, entries[..k])
    decreases |entries|
  {
    if k == |entries| {
      assert entries[..k] == entries;
    } else {
      var front := entries[..|entries| - 1];
      assert front[..k] == entries[..k];
      ErrorPersists(parseIp, existing, front, k);
    }
  }

  lemma CollectedRoutes(current: seq<Route>, mode: string, done: seq<Route>, nextByHost: map<string, Route>)
    requires DistinctHosts(current) && DistinctHosts(done)
    requires nextByHost == (if mode == MERGE then ByHost(current) else map[]) + ByHost(done)
    ensures forall h :: h in nextByHost ==> nextByHost[h].hostname == h
    ensures forall r :: r in Kept(current, mode, done) + done
              <==> r.hostname in nextByHost && nextByHost[r.hostname] == r
  {
    ByHostFinds(current);
    ByHostFinds(done);
    MergedFacts(current, mode, done);
  }
}
