/** What revisions and fingerprints tell a client, over whole runs: a revision counts the changes of
    its row, an update overwrites only what its client saw, and a matching fingerprint means that no
    previewed row was touched in between. */
module Revisions {
  import opened Results
  import opened Domain
  import opened Listing
  import opened Store
  import opened Caddy
  import opened Import
  import opened ImportLaws
  import opened Transactions
  import opened Effects
  import opened Protocol
  import opened ProtocolRuns

  lemma ReachableTable(parseIp: IpParser, s: State)
    requires Invariant(parseIp, s)
    ensures IsTable(s.rows) && History(s.rows, s.past) && NoGaps(s.past)
  {
  }

  // ----- What a matching fingerprint rules out -----

  /** A row that is there at two moments was there in between. */
  lemma KeptInBetween(parseIp: IpParser, zone: string, run: Run, i: nat, k: nat, j: nat, row: Route)
    requires IsRun(parseIp, zone, run) && i <= k <= j < |run.states| && Invariant(parseIp, run.states[0])
    requires row in run.states[i].rows && row in run.states[j].rows
    ensures row in run.states[k].rows
  {
    hide Invariant, IsRun, IsTable, NoGaps;
    RunKeeps(parseIp, zone, run, i);
    RunKeeps(parseIp, zone, run, k);
    RunKeeps(parseIp, zone, run, j);
    ReachableTable(parseIp, run.states[i]);
    ReachableTable(parseIp, run.states[k]);
    ReachableTable(parseIp, run.states[j]);
    PastGrows(parseIp, zone, run, i, k);
    PastGrows(parseIp, zone, run, k, j);
    if row.id !in Ids(run.states[k].rows) {
      RemovedIdNeverReturns(parseIp, zone, run, k, j, row.id);
    } else {
      var holder :| holder in run.states[k].rows && holder.id == row.id;
      assert row in run.states[k].past && holder in run.states[j].past;
      assert holder.revision == row.revision;
    }
  }

  ghost predicate KeptThroughout(run: Run, i: nat, j: nat)
    requires j < |run.states| && i <= j
  {
    forall k, row :: i <= k <= j && row in run.states[i].rows ==> row in run.states[k].rows
  }

  /** The table at one moment and at a later one fingerprint alike exactly when none of its rows was
      touched at any moment in between and no new id is left: only ids born since and already gone
      can have come between a preview and its apply. */
  lemma MatchingFingerprint(parseIp: IpParser, zone: string, run: Run, i: nat, j: nat)
    requires IsRun(parseIp, zone, run) && i <= j < |run.states| && Invariant(parseIp, run.states[0])
    ensures SortByHost(run.states[i].rows) == SortByHost(run.states[j].rows)
            <==> KeptThroughout(run, i, j) && Ids(run.states[j].rows) <= Ids(run.states[i].rows)
  {
    hide Invariant, IsRun, SortByHost, Ids, NoGaps, History;
    var before, after := run.states[i].rows, run.states[j].rows;
    RunKeeps(parseIp, zone, run, i);
    RunKeeps(parseIp, zone, run, j);
    ReachableTable(parseIp, run.states[i]);
    ReachableTable(parseIp, run.states[j]);
    SortCorrect(before);
    SortCorrect(after);
    SameIds(before, after);
    if SortByHost(before) == SortByHost(after) {
      forall k, row | i <= k <= j && row in before ensures row in run.states[k].rows {
        KeptInBetween(parseIp, zone, run, i, k, j, row);
      }
    }
    if KeptThroughout(run, i, j) && Ids(after) <= Ids(before) {
      NothingNew(before, after);
      SortDependsOnContent(before, after);
    }
  }

  lemma SameIds(a: seq<Route>, b: seq<Route>)
    ensures SameRoutes(a, b) ==> Ids(a) == Ids(b)
  {
  }

  lemma NothingNew(before: seq<Route>, after: seq<Route>)
    requires DistinctIds(after) && Ids(after) <= Ids(before)
    requires forall row :: row in before ==> row in after
    ensures SameRoutes(before, after)
  {
    forall row | row in after ensures row in before {
      assert row.id in Ids(before);
      var holder :| holder in before && holder.id == row.id;
      DistinctRows(after, holder, row);
    }
  }

  // ----- A revision counts the changes of its row -----

  lemma PastStep(parseIp: IpParser, zone: string, s: State, e: Event, s': State)
    requires s' == Next(parseIp, zone, s, e)
    ensures forall row :: row in s'.past ==> row in s.past || row in s'.rows
  {
    hide Next, Persist;
    if e.PersistStep? && s.lock.Held? {
      NextPersists(parseIp, zone, s, e.sqlFault);
    } else {
      OnlyPersistWrites(parseIp, zone, s, e);
    }
  }

  /** The history records stored rows only. */
  lemma {:induction false} PastWasStored(parseIp: IpParser, zone: string, live: Config, clock: Time, run: Run, i: nat,
                                         row: Route)
    requires IsRun(parseIp, zone, run) && run.states[0] == Init(live, clock)
    requires i < |run.states| && row in run.states[i].past
    ensures exists k :: 0 <= k <= i && row in run.states[k].rows
  {
    hide Next;
    if i > 0 {
      assert StepsAt(parseIp, zone, run, i - 1);
      PastStep(parseIp, zone, run.states[i - 1], run.events[i - 1], run.states[i]);
      if row in run.states[i - 1].past {
        PastWasStored(parseIp, zone, live, clock, run, i - 1, row);
      }
    }
  }

  lemma {:induction false} EveryRevision(past: set<Route>, row: Route, n: int)
    requires NoGaps(past) && row in past && 1 <= n <= row.revision
    ensures exists earlier :: earlier in past && earlier.id == row.id && earlier.revision == n
    decreases row.revision - n
  {
    if n < row.revision {
      assert HasOrigin(past, row);
      var before :| before in past && IsNextRevision(before, row);
      EveryRevision(past, before, n);
    }
  }

  /** Every revision from 1 to the stored one was stored before it, so a revision counts the changes
      its row has been through. */
  lemma RevisionCountsChanges(parseIp: IpParser, zone: string, live: Config, clock: Time, run: Run, i: nat, row: Route,
                              n: int)
    requires IsRun(parseIp, zone, run) && run.states[0] == Init(live, clock)
    requires i < |run.states| && row in run.states[i].rows && 1 <= n <= row.revision
    ensures exists k, earlier :: 0 <= k <= i && earlier in run.states[k].rows && earlier.id == row.id
              && earlier.revision == n
  {
    hide Invariant, IsRun, Init, IsTable;
    InitHolds(parseIp, live, clock);
    RunKeeps(parseIp, zone, run, i);
    ReachableTable(parseIp, run.states[i]);
    EveryRevision(run.states[i].past, row, n);
    var earlier :| earlier in run.states[i].past && earlier.id == row.id && earlier.revision == n;
    PastWasStored(parseIp, zone, live, clock, run, i, earlier);
  }

  // ----- No update is lost -----

  lemma PlannedUpdate(parseIp: IpParser, zone: string, s: State, s': State, id: string, input: RouteInput,
                      enabled: bool, revision: int, stamp: Stamp)
    requires IsTable(s.rows) && s.lock.Free? && s'.lock.Held?
    requires s' == Next(parseIp, zone, s, BeginUpdate(id, input, enabled, revision, stamp))
    ensures exists row :: row in s.rows && row.id == id && row.revision == revision
    ensures var change := s'.lock.plan.change;
            change.Rewrite? && change.route.id == id && change.expected == revision
            && PortableOf(change.route) == Requested(input, enabled)
  {
    hide Admit, Requested, SortByHost;
    var admitted := Admit(parseIp, input, stamp).value;
    AdmittedRequest(parseIp, input, stamp, enabled);
    IdInListing(s.rows, id);
    var i := IndexOf(s.rows, id);
    assert PlanUpdate(s.rows, id, admitted, enabled, revision).Ok?;
    var row := s.rows[i];
    assert row in s.rows && row.id == id && row.revision == revision;
  }

  /** If a client saw a row, and its update with that row's revision takes the lock, then the row the
      update is about to overwrite is the one the client saw. */
  lemma UpdateTakesWhatWasSeen(parseIp: IpParser, zone: string, live: Config, clock: Time, run: Run, i: nat, j: nat,
                               seen: Route, input: RouteInput, enabled: bool, stamp: Stamp)
    requires IsRun(parseIp, zone, run) && run.states[0] == Init(live, clock)
    requires i <= j < |run.events| && seen in run.states[i].rows
    requires run.events[j] == BeginUpdate(seen.id, input, enabled, seen.revision, stamp)
    requires run.states[j].lock.Free? && run.states[j + 1].lock.Held?
    ensures seen in run.states[j].rows
    ensures var change := run.states[j + 1].lock.plan.change;
            change.Rewrite? && change.route.id == seen.id && change.expected == seen.revision
            && PortableOf(change.route) == Requested(input, enabled)
  {
    hide Invariant, Next, Init, IsTable, Requested;
    InitHolds(parseIp, live, clock);
    RunKeeps(parseIp, zone, run, j);
    ReachableTable(parseIp, run.states[j]);
    assert StepsAt(parseIp, zone, run, j);
    PlannedUpdate(parseIp, zone, run.states[j], run.states[j + 1], seen.id, input, enabled, seen.revision, stamp);
    var row :| row in run.states[j].rows && row.id == seen.id && row.revision == seen.revision;
    RevisionNamesContent(parseIp, zone, live, clock, run, i, j, seen, row);
  }

  lemma RewriteTarget(parseIp: IpParser, rows: seq<Route>, reserved: set<string>, plan: Plan, now: Time,
                      fault: SqlFault)
    requires IsSound(parseIp, rows, reserved, plan) && plan.change.Rewrite?
    ensures var i := IndexOf(rows, plan.change.route.id);
            && i < |rows| && rows[i] in rows && rows[i].revision == plan.change.expected
            && Persist(rows, plan.change, now, fault).rows
                 == if fault == WriteFault then rows else rows[i := UpdatedRow(rows[i], plan.change.route, now)]
  {
    assert ChangeFits(parseIp, rows, reserved, plan, now);
    assert rows[IndexOf(rows, plan.change.route.id)] in rows;
  }

  /** What one rewritten position does to the table. */
  lemma RewrittenRow(rows: seq<Route>, i: nat, route: Route, now: Time)
    requires DistinctIds(rows) && i < |rows| && rows[i].id == route.id
    ensures var after := rows[i := UpdatedRow(rows[i], route, now)];
            && OthersStay(rows, after, route.id)
            && exists row :: row in after && IsNextRevision(rows[i], row) && PortableOf(row) == PortableOf(route)
  {
    var row := UpdatedRow(rows[i], route, now);
    var after := rows[i := row];
    assert after[i] in after && IsNextRevision(rows[i], row) && PortableOf(row) == PortableOf(route);
    forall r: Route | r.id != route.id ensures r in after <==> r in rows {
      if r in rows {
        var k :| 0 <= k < |rows| && rows[k] == r;
        assert after[k] == r;
      }
    }
  }

  /** No update is lost: when an update of a seen row persists, the very row that was seen is still
      stored, and it alone is replaced, by what was asked for, one revision on. */
  lemma NoLostUpdate(parseIp: IpParser, zone: string, live: Config, clock: Time, run: Run, i: nat, k: nat,
                     seen: Route, fault: SqlFault)
    requires IsRun(parseIp, zone, run) && run.states[0] == Init(live, clock)
    requires i <= k < |run.events| && seen in run.states[i].rows && run.events[k] == PersistStep(fault)
    requires run.states[k].lock.Held? && run.states[k].lock.phase.Pushed?
    requires var change := run.states[k].lock.plan.change;
             change.Rewrite? && change.route.id == seen.id && change.expected == seen.revision
    ensures seen in run.states[k].rows
    ensures OthersStay(run.states[k].rows, run.states[k + 1].rows, seen.id)
    ensures if fault == WriteFault then run.states[k + 1].rows == run.states[k].rows
            else exists row :: row in run.states[k + 1].rows && IsNextRevision(seen, row)
                               && PortableOf(row) == PortableOf(run.states[k].lock.plan.change.route)
  {
    hide Invariant, Next, Init, Persist, IsSound, IsRun;
    StepOf(parseIp, zone, run, k);
    var s := run.states[k];
    var route := s.lock.plan.change.route;
    InitHolds(parseIp, live, clock);
    RunKeeps(parseIp, zone, run, k);
    ReachableTable(parseIp, s);
    NextPersists(parseIp, zone, s, fault);
    PushedIsSound(parseIp, s);
    RewriteTarget(parseIp, s.rows, s.lock.reserved, s.lock.plan, s.clock, fault);
    var at := IndexOf(s.rows, route.id);
    RevisionNamesContent(parseIp, zone, live, clock, run, i, k, seen, s.rows[at]);
    RewrittenRow(s.rows, at, route, s.clock);
  }

  lemma StepOf(parseIp: IpParser, zone: string, run: Run, k: nat)
    requires IsRun(parseIp, zone, run) && k < |run.events|
    ensures k + 1 < |run.states| && run.states[k + 1] == Next(parseIp, zone, run.states[k], run.events[k])
  {
    hide Next;
    assert StepsAt(parseIp, zone, run, k);
  }
}
