/** When the service accepts a call and which error it reports otherwise, said on the input and the
    stored rows alone. */
module Acceptance {
  import opened Results
  import opened Domain
  import opened Listing
  import opened Store
  import opened Caddy
  import opened Import
  import opened ImportLaws
  import opened Transactions

  // ----- Imports -----

  /** The hostname an imported route asks for, once normalised. */
  function HostOf(entry: Entry): string {
    Normalise(PortableInput(entry.portable)).hostname
  }

  /** The import at `i` asks for a route, on a hostname no import before it asks for. */
  predicate EntryFits(parseIp: IpParser, entries: seq<Entry>, i: nat)
    requires i < |entries|
  {
    && IsAcceptable(parseIp, PortableInput(entries[i].portable))
    && forall j :: 0 <= j < i ==> HostOf(entries[j]) != HostOf(entries[i])
  }

  ghost predicate AllFit(parseIp: IpParser, entries: seq<Entry>) {
    forall i {:trigger EntryFits(parseIp, entries, i)} :: 0 <= i < |entries| ==> EntryFits(parseIp, entries, i)
  }

  lemma FitsInPrefix(parseIp: IpParser, entries: seq<Entry>, n: nat, i: nat)
    requires i < n <= |entries|
    ensures EntryFits(parseIp, entries[..n], i) <==> EntryFits(parseIp, entries, i)
  {
    hide IsAcceptable, Normalise;
    assert forall j :: 0 <= j < n ==> entries[..n][j] == entries[j];
  }

  /** The resolved routes hold exactly the hostnames asked for. */
  lemma ResolvedHosts(parseIp: IpParser, existing: map<string, Route>, entries: seq<Entry>, done: seq<Route>)
    requires Resolved(parseIp, existing, entries) == Ok(done)
    ensures forall h :: h in Hosts(done) <==> exists i :: 0 <= i < |entries| && HostOf(entries[i]) == h
  {
    hide Resolved, ResolvesTo, Normalise, DistinctHosts, Hosts;
    ResolvedFacts(parseIp, existing, entries);
    forall i | 0 <= i < |entries| ensures done[i].hostname == HostOf(entries[i]) {
      ResolvedHost(parseIp, existing, entries[i], done[i]);
    }
    HostsAt(done);
    forall h ensures h in Hosts(done) <==> exists i :: 0 <= i < |entries| && HostOf(entries[i]) == h {
      if h in Hosts(done) {
        var i :| 0 <= i < |done| && done[i].hostname == h;
        assert HostOf(entries[i]) == h;
      }
      if i :| 0 <= i < |entries| && HostOf(entries[i]) == h {
        assert done[i].hostname == h;
      }
    }
  }

  lemma ResolvedHost(parseIp: IpParser, existing: map<string, Route>, entry: Entry, route: Route)
    requires ResolvesTo(parseIp, existing, entry, route)
    ensures route.hostname == HostOf(entry)
  {
    hide Normalise, Admit;
    assert PortableOf(route).hostname == NormalPortable(entry.portable).hostname;
  }

  lemma HostsAt(routes: seq<Route>)
    ensures forall h :: h in Hosts(routes) <==> exists i :: 0 <= i < |routes| && routes[i].hostname == h
  {
    forall h | exists i :: 0 <= i < |routes| && routes[i].hostname == h ensures h in Hosts(routes) {
      var i :| 0 <= i < |routes| && routes[i].hostname == h;
      assert routes[i] in routes;
    }
  }

  /** The last of some entries whose front resolves decides. */
  lemma LastDecides(parseIp: IpParser, existing: map<string, Route>, entries: seq<Entry>, done: seq<Route>)
    requires entries != [] && Resolved(parseIp, existing, entries[..|entries| - 1]) == Ok(done)
    ensures var n := |entries| - 1;
            var last := entries[n];
            var admitted := Admit(parseIp, PortableInput(last.portable), last.stamp);
            var all := Resolved(parseIp, existing, entries);
            && (EntryFits(parseIp, entries, n) <==> all.Ok?)
            && (admitted.Err? ==> all == Err(InRoute(last.portable.hostname, admitted.error)))
            && (admitted.Ok? && !EntryFits(parseIp, entries, n) ==> all == Err(DuplicateImportedHostname(HostOf(last))))
  {
    hide IsAcceptable, Hosts, Normalise, Validate, Resolve;
    var n := |entries| - 1;
    var last := entries[n];
    AdmitsExactly(parseIp, PortableInput(last.portable), last.stamp);
    ResolvedHosts(parseIp, existing, entries[..n], done);
    forall h ensures h in Hosts(done) <==> exists j :: 0 <= j < n && HostOf(entries[j]) == h {
      assert forall j :: 0 <= j < n ==> entries[..n][j] == entries[j];
    }
    AdmittedHost(parseIp, last);
  }

  lemma AdmittedHost(parseIp: IpParser, entry: Entry)
    ensures var admitted := Admit(parseIp, PortableInput(entry.portable), entry.stamp);
            admitted.Ok? ==> admitted.value.hostname == HostOf(entry)
  {
    hide Normalise, Validate;
  }

  lemma {:induction false} ResolvesExactly(parseIp: IpParser, existing: map<string, Route>, entries: seq<Entry>)
    ensures Resolved(parseIp, existing, entries).Ok? <==> AllFit(parseIp, entries)
  {
    hide EntryFits, Resolved, AllFit;
    if entries == [] {
      NothingResolves(parseIp, existing);
    } else {
      var n := |entries| - 1;
      ResolvesExactly(parseIp, existing, entries[..n]);
      FrontFits(parseIp, entries);
      if Resolved(parseIp, existing, entries[..n]).Ok? {
        LastDecides(parseIp, existing, entries, Resolved(parseIp, existing, entries[..n]).value);
      } else {
        ErrorPersists(parseIp, existing, entries, n);
      }
    }
  }

  lemma NothingResolves(parseIp: IpParser, existing: map<string, Route>)
    ensures Resolved(parseIp, existing, []) == Ok([]) && AllFit(parseIp, [])
  {
  }

  lemma FrontFits(parseIp: IpParser, entries: seq<Entry>)
    requires entries != []
    ensures AllFit(parseIp, entries)
            <==> AllFit(parseIp, entries[..|entries| - 1]) && EntryFits(parseIp, entries, |entries| - 1)
  {
    hide EntryFits;
    var n := |entries| - 1;
    forall i | 0 <= i < n ensures EntryFits(parseIp, entries[..n], i) <==> EntryFits(parseIp, entries, i) {
      FitsInPrefix(parseIp, entries, n, i);
    }
    if AllFit(parseIp, entries[..n]) && EntryFits(parseIp, entries, n) {
      forall i | 0 <= i < |entries| ensures EntryFits(parseIp, entries, i) {
        assert i < n ==> EntryFits(parseIp, entries[..n], i);
      }
    }
    if AllFit(parseIp, entries) {
      forall i | 0 <= i < n ensures EntryFits(parseIp, entries[..n], i) {
        assert EntryFits(parseIp, entries, i);
      }
      assert EntryFits(parseIp, entries, n);
    }
  }

  /** An import builds, whatever is stored and in either mode, exactly when each of its routes asks for
      a route and no two for the same hostname. */
  lemma BuildsExactly(parseIp: IpParser, current: seq<Route>, entries: seq<Entry>, mode: string)
    ensures Build(parseIp, current, entries, mode).Ok? <==> AllFit(parseIp, entries)
  {
    hide Resolved, AllFit;
    ResolvesExactly(parseIp, ByHost(current), entries);
  }

  /** The error is that of the first route that does not fit: what NewRoute says of it, or, if it is
      acceptable by itself, that its hostname is a duplicate. */
  ghost predicate ReportsMisfit(parseIp: IpParser, entries: seq<Entry>, error: Error) {
    exists i: nat :: FirstMisfit(parseIp, entries, i) && error == MisfitError(parseIp, entries[i])
  }

  function MisfitError(parseIp: IpParser, entry: Entry): Error {
    var input := PortableInput(entry.portable);
    match Admit(parseIp, input, entry.stamp)
    case Ok(_) => DuplicateImportedHostname(HostOf(entry))
    case Err(error) => InRoute(entry.portable.hostname, error)
  }

  ghost predicate FirstMisfit(parseIp: IpParser, entries: seq<Entry>, i: nat) {
    && i < |entries| && !EntryFits(parseIp, entries, i)
    && forall j :: 0 <= j < i ==> EntryFits(parseIp, entries, j)
  }

  /** Otherwise the error is that of the first route that does not fit. */
  lemma BuildErrors(parseIp: IpParser, current: seq<Route>, entries: seq<Entry>, mode: string, i: nat)
    requires FirstMisfit(parseIp, entries, i)
    ensures var entry := entries[i];
            var built := Build(parseIp, current, entries, mode);
            var admitted := Admit(parseIp, PortableInput(entry.portable), entry.stamp);
            && built.Err?
            && (IsAcceptable(parseIp, PortableInput(entry.portable)) ==>
                  built.error == DuplicateImportedHostname(HostOf(entry)))
            && (!IsAcceptable(parseIp, PortableInput(entry.portable)) ==>
                  admitted.Err? && built.error == InRoute(entry.portable.hostname, admitted.error))
  {
    hide Resolved, EntryFits, IsAcceptable, Admit;
    var existing := ByHost(current);
    var entry := entries[i];
    AdmitsExactly(parseIp, PortableInput(entry.portable), entry.stamp);
    var through := entries[..i + 1];
    forall j | 0 <= j < i ensures EntryFits(parseIp, entries[..i], j) {
      FitsInPrefix(parseIp, entries, i, j);
    }
    ResolvesExactly(parseIp, existing, entries[..i]);
    assert through[..i] == entries[..i];
    FitsInPrefix(parseIp, entries, i + 1, i);
    LastDecides(parseIp, existing, through, Resolved(parseIp, existing, entries[..i]).value);
    ErrorPersists(parseIp, existing, entries, i + 1);
    BuildFails(parseIp, current, entries, mode);
  }

  lemma {:induction false} SomeMisfit(parseIp: IpParser, entries: seq<Entry>, i: nat) returns (first: nat)
    requires i < |entries| && !EntryFits(parseIp, entries, i)
    ensures FirstMisfit(parseIp, entries, first)
  {
    hide EntryFits;
    first := i;
    if k :| 0 <= k < i && !EntryFits(parseIp, entries, k) {
      first := SomeMisfit(parseIp, entries, k);
    }
  }

  lemma MisfitIsReported(parseIp: IpParser, current: seq<Route>, entries: seq<Entry>, mode: string)
    ensures !AllFit(parseIp, entries) ==>
              Build(parseIp, current, entries, mode).Err?
              && ReportsMisfit(parseIp, entries, Build(parseIp, current, entries, mode).error)
  {
    hide Build, EntryFits, Admit, IsAcceptable;
    if !AllFit(parseIp, entries) {
      var i :| 0 <= i < |entries| && !EntryFits(parseIp, entries, i);
      var first := SomeMisfit(parseIp, entries, i);
      var entry := entries[first];
      AdmitsExactly(parseIp, PortableInput(entry.portable), entry.stamp);
      BuildErrors(parseIp, current, entries, mode, first);
    }
  }

  lemma BuildFails(parseIp: IpParser, current: seq<Route>, entries: seq<Entry>, mode: string)
    ensures Resolved(parseIp, ByHost(current), entries).Err? ==>
              Build(parseIp, current, entries, mode) == Err(Resolved(parseIp, ByHost(current), entries).error)
  {
    hide Resolved;
  }

  // ----- Mutations -----

  /** A create is planned exactly when no stored route has its hostname. */
  lemma CreatePlansExactly(rows: seq<Route>, route: Route)
    ensures PlanCreate(rows, route).Ok? <==> forall row :: row in rows ==> row.hostname != route.hostname
    ensures PlanCreate(rows, route).Err? ==> PlanCreate(rows, route).error == HostnameConflict
  {
    SortCorrect(rows);
  }

  /** An update is planned exactly when its id is stored at its revision and nobody else has its
      hostname; a conflict of hostnames is reported before a missing id, and that before a stale one. */
  lemma UpdatePlansExactly(rows: seq<Route>, id: string, admitted: Route, enabled: bool, revision: int)
    requires IsTable(rows)
    ensures var planned := PlanUpdate(rows, id, admitted, enabled, revision);
            var free := forall row :: row in rows && row.hostname == admitted.hostname ==> row.id == id;
            && (planned.Ok? <==> free && exists row :: row in rows && row.id == id && row.revision == revision)
            && (!free ==> planned == Err(HostnameConflict))
            && (free && (forall row :: row in rows ==> row.id != id) ==> planned == Err(NotFound))
            && (free && (exists row :: row in rows && row.id == id && row.revision != revision) ==>
                  planned == Err(RevisionConflict))
  {
    hide SortByHost;
    var current := SortByHost(rows);
    IdInListing(rows, id);
    IdOf(rows, id);
    TakenByOther(current, id, admitted.hostname);
  }

  lemma TakenByOther(routes: seq<Route>, id: string, hostname: string)
    ensures HostTakenByOther(routes, id, hostname)
            <==> exists row :: row in routes && row.hostname == hostname && row.id != id
  {
    if row :| row in routes && row.hostname == hostname && row.id != id {
      var i :| 0 <= i < |routes| && routes[i] == row;
      assert routes[i].id != id && routes[i].hostname == hostname;
    }
    if HostTakenByOther(routes, id, hostname) {
      var i :| 0 <= i < |routes| && routes[i].id != id && routes[i].hostname == hostname;
      assert routes[i] in routes;
    }
  }

  /** The position of an id, said on the rows. */
  lemma IdOf(rows: seq<Route>, id: string)
    requires DistinctIds(rows)
    ensures var i := IndexOf(rows, id);
            && (i < |rows| <==> exists row :: row in rows && row.id == id)
            && (i < |rows| ==> rows[i] in rows && rows[i].id == id)
            && (i < |rows| ==> forall row :: row in rows && row.id == id ==> row == rows[i])
  {
    var i := IndexOf(rows, id);
    if i < |rows| {
      assert rows[i] in rows;
    }
  }

  /** A delete is planned exactly when its id is stored at its revision. */
  lemma DeletePlansExactly(rows: seq<Route>, id: string, revision: int)
    requires IsTable(rows)
    ensures var planned := PlanDelete(rows, id, revision);
            && (planned.Ok? <==> exists row :: row in rows && row.id == id && row.revision == revision)
            && ((forall row :: row in rows ==> row.id != id) ==> planned == Err(NotFound))
            && ((exists row :: row in rows && row.id == id && row.revision != revision) ==>
                  planned == Err(RevisionConflict))
  {
    hide SortByHost;
    IdInListing(rows, id);
    IdOf(rows, id);
  }

  // ----- Statements of the store -----

  /** An INSERT goes in exactly when neither its id nor its hostname is stored. */
  lemma InsertsExactly(rows: seq<Route>, route: Route)
    ensures InsertRow(rows, route).Ok?
            <==> forall row :: row in rows ==> row.id != route.id && row.hostname != route.hostname
    ensures InsertRow(rows, route).Err? ==> InsertRow(rows, route).error == HostnameConflict
  {
  }

  /** The UPDATE is a compare-and-swap on the revision under the UNIQUE hostname, and moves the row one
      revision on. */
  lemma UpdatesExactly(rows: seq<Route>, route: Route, expected: int, now: Time)
    requires IsTable(rows)
    ensures var updated := UpdateRow(rows, route, expected, now);
            var current := exists row :: row in rows && row.id == route.id && row.revision == expected;
            var free := forall row :: row in rows && row.hostname == route.hostname ==> row.id == route.id;
            && (updated.Ok? <==> current && free)
            && ((forall row :: row in rows ==> row.id != route.id) ==> updated == Err(NotFound))
            && ((exists row :: row in rows && row.id == route.id && row.revision != expected) ==>
                  updated == Err(RevisionConflict))
            && (current && !free ==> updated == Err(HostnameConflict))
    ensures var updated := UpdateRow(rows, route, expected, now);
            updated.Ok? ==>
              exists before, after :: before in rows && before.id == route.id && after in updated.value
                && after == Route(route.id, route.hostname, route.enabled, route.publicMode, route.upstream,
                                  expected + 1, before.createdAt, now, HealthUnknown)
                && forall r :: r in updated.value <==> r == after || (r in rows && r.id != route.id)
  {
    IdOf(rows, route.id);
    var i := IndexOf(rows, route.id);
    if i < |rows| {
      OthersAt(rows, route.id, route.hostname);
    }
    if UpdateRow(rows, route, expected, now).Ok? {
      var row := UpdatedRow(rows[i], route, now);
      TakenByOther(rows, route.id, route.hostname);
      ReplacedAt(rows, i, row);
      assert rows[i := row][i] == row;
    }
  }

  lemma OthersAt(rows: seq<Route>, id: string, hostname: string)
    requires IsTable(rows) && IndexOf(rows, id) < |rows|
    ensures var i := IndexOf(rows, id);
            (exists j :: 0 <= j < |rows| && j != i && rows[j].hostname == hostname)
            <==> exists row :: row in rows && row.hostname == hostname && row.id != id
  {
    var i := IndexOf(rows, id);
    if row :| row in rows && row.hostname == hostname && row.id != id {
      var j :| 0 <= j < |rows| && rows[j] == row;
      assert j != i && rows[j].hostname == hostname;
    }
    if j :| 0 <= j < |rows| && j != i && rows[j].hostname == hostname {
      assert rows[j] in rows && rows[j].id != rows[i].id;
    }
  }

  /** The DELETE takes out the row with the id at the expected revision, and no other. */
  lemma DeletesExactly(rows: seq<Route>, id: string, expected: int)
    requires IsTable(rows)
    ensures var deleted := DeleteRow(rows, id, expected);
            && (deleted.Ok? <==> exists row :: row in rows && row.id == id && row.revision == expected)
            && (deleted.Ok? ==> forall r :: r in deleted.value <==> r in rows && r.id != id)
            && ((forall row :: row in rows ==> row.id != id) ==> deleted == Err(NotFound))
            && ((exists row :: row in rows && row.id == id && row.revision != expected) ==>
                  deleted == Err(RevisionConflict))
  {
    IdOf(rows, id);
    if DeleteRow(rows, id, expected).Ok? {
      RemovedAt(rows, IndexOf(rows, id));
    }
  }

  // ----- Transactions -----

  /** A planned transaction reports the first thing that fails: reading the settings, the zone, Caddy,
      the write, or the read-back of an update. */
  lemma CommitErrors(parseIp: IpParser, zone: string, rows: seq<Route>, live: Config, reserved: set<string>,
                     plan: Plan, now: Time, faults: Faults)
    requires IsRoutesTable(parseIp, rows) && IsSound(parseIp, rows, reserved, plan)
    ensures Commit(parseIp, zone, rows, live, plan, now, faults).error ==
              if faults.push == SettingsFault then Some(SqlFailure)
              else if ValidateZone(zone).Some? then ValidateZone(zone)
              else if faults.push == LoadFault then Some(CaddyRejected)
              else if plan.change.KeepRows? then None
              else if faults.persist == WriteFault then Some(SqlFailure)
              else if faults.persist == ReadFault && plan.change.Rewrite? then Some(SqlFailure)
              else None
  {
    hide ValidateZone, Rendered, Intent, IsRoutesTable;
    assert ChangeFits(parseIp, rows, reserved, plan, now);
  }

  lemma ZoneErrors(zone: string)
    ensures ValidateZone(zone).Some? ==>
              ValidateZone(zone).value == ZoneNotUnderTest || ValidateZone(zone).value == ZoneLabels
  {
  }
}
