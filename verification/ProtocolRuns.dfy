/** What holds over whole runs of the protocol. */
module ProtocolRuns {
  import opened Results
  import opened Domain
  import opened Listing
  import opened Store
  import opened Caddy
  import opened Import
  import opened ImportLaws
  import opened Transactions
  import opened Protocol

  // ----- A revision names its content -----

  /** What one step may do to the table. */
  ghost predicate RowsMove(s: State, s': State) {
    && s.past <= s'.past
    && (forall a, b :: a in s.rows && b in s'.rows && a.id == b.id ==> b == a || IsNextRevision(a, b))
    && (forall b :: b in s'.rows ==> b.id in Ids(s.rows) || b.id !in PastIds(s.past))
  }

  lemma RowsStay(parseIp: IpParser, s: State, s': State)
    requires Invariant(parseIp, s) && s'.rows == s.rows && s'.past == s.past
    ensures RowsMove(s, s')
  {
    forall b | b in s.rows ensures b.id in Ids(s.rows) {}
    forall a, b | a in s.rows && b in s.rows && a.id == b.id ensures a == b {
      DistinctRows(s.rows, a, b);
    }
  }

  lemma PersistMoves(parseIp: IpParser, s: State, fault: SqlFault)
    requires Invariant(parseIp, s) && s.lock.Held?
    ensures RowsMove(s, DoPersist(s, Persist(s.rows, s.lock.plan.change, s.clock, fault)))
  {
    var s' := DoPersist(s, Persist(s.rows, s.lock.plan.change, s.clock, fault));
    if s.lock.phase.Pushed? {
      PersistSucceeds(parseIp, s.rows, s.lock.reserved, s.lock.plan, s.clock, fault);
      SuccessorsMove(s.rows, s.past, s.lock.reserved, s'.rows);
    } else {
      RowsStay(parseIp, s, s');
    }
  }

  lemma SuccessorsMove(rows: seq<Route>, past: set<Route>, reserved: set<string>, after: seq<Route>)
    requires IsTable(rows) && reserved !! PastIds(past)
    requires forall row :: row in rows ==> row in past
    requires forall row :: row in after ==> Succeeds(rows, reserved, row)
    ensures forall a, b :: a in rows && b in after && a.id == b.id ==> b == a || IsNextRevision(a, b)
    ensures forall b :: b in after ==> b.id in Ids(rows) || b.id !in PastIds(past)
  {
    forall a, b | a in rows && b in after && a.id == b.id ensures b == a || IsNextRevision(a, b) {
      assert a.id in PastIds(past);
      assert Succeeds(rows, reserved, b);
      if b in rows {
        DistinctRows(rows, a, b);
      } else {
        var row :| row in rows && IsNextRevision(row, b);
        DistinctRows(rows, a, row);
      }
    }
    forall b | b in after ensures b.id in Ids(rows) || b.id !in PastIds(past) {
      assert Succeeds(rows, reserved, b);
    }
  }

  /** An id's revision rises by exactly one whenever its row changes, its creation time stays, and a row
      with a new id has an id that was never stored. */
  lemma StepMoves(parseIp: IpParser, zone: string, s: State, e: Event, s': State)
    requires Invariant(parseIp, s) && s' == Next(parseIp, zone, s, e)
    ensures RowsMove(s, s')
  {
    hide *;
    if e.PersistStep? && s.lock.Held? {
      NextPersists(parseIp, zone, s, e.sqlFault);
      PersistMoves(parseIp, s, e.sqlFault);
    } else {
      OnlyPersistWrites(parseIp, zone, s, e);
      RowsStay(parseIp, s, s');
    }
  }

  lemma NextPersists(parseIp: IpParser, zone: string, s: State, fault: SqlFault)
    requires s.lock.Held?
    ensures Next(parseIp, zone, s, PersistStep(fault))
              == DoPersist(s, Persist(s.rows, s.lock.plan.change, s.clock, fault))
  {
    hide Admit, Build, Push, Persist, DoPark, DoTake, DoAbandon, DoPreview, DoApply, DoCreate, DoUpdate, DoPush;
    hide DoPersist, DoRollback, Begin, PlanDelete, PlanReconcile, SortByHost;
  }

  predicate TakesLock(e: Event) {
    e.BeginCreate? || e.BeginUpdate? || e.BeginDelete? || e.BeginReconcile? || e.BeginImport?
  }

  lemma OnlyPersistWrites(parseIp: IpParser, zone: string, s: State, e: Event)
    requires !(e.PersistStep? && s.lock.Held?)
    ensures Next(parseIp, zone, s, e).rows == s.rows && Next(parseIp, zone, s, e).past == s.past
  {
    if e.BeginCreate? || e.BeginUpdate? {
      WriteBeginsWriteNothing(parseIp, zone, s, e);
    } else if TakesLock(e) {
      OtherBeginsWriteNothing(parseIp, zone, s, e);
    } else {
      OthersWriteNothing(parseIp, zone, s, e);
    }
  }

  lemma WriteBeginsWriteNothing(parseIp: IpParser, zone: string, s: State, e: Event)
    requires e.BeginCreate? || e.BeginUpdate?
    ensures Next(parseIp, zone, s, e).rows == s.rows && Next(parseIp, zone, s, e).past == s.past
  {
    hide Admit, PlanCreate, PlanUpdate;
  }

  lemma OtherBeginsWriteNothing(parseIp: IpParser, zone: string, s: State, e: Event)
    requires e.BeginDelete? || e.BeginReconcile? || e.BeginImport?
    ensures Next(parseIp, zone, s, e).rows == s.rows && Next(parseIp, zone, s, e).past == s.past
  {
    hide PlanDelete, PlanReconcile, PlanImport, StampIds;
  }

  lemma OthersWriteNothing(parseIp: IpParser, zone: string, s: State, e: Event)
    requires !TakesLock(e) && !(e.PersistStep? && s.lock.Held?)
    ensures Next(parseIp, zone, s, e).rows == s.rows && Next(parseIp, zone, s, e).past == s.past
  {
    hide Push, Persist, Build, SortByHost, FreshEntries, StampIds;
  }

  /** The same along a run. */
  lemma RunMoves(parseIp: IpParser, zone: string, run: Run, i: nat)
    requires IsRun(parseIp, zone, run) && i + 1 < |run.states| && Invariant(parseIp, run.states[0])
    ensures RowsMove(run.states[i], run.states[i + 1])
  {
    hide Invariant, Next, RowsMove;
    RunKeeps(parseIp, zone, run, i);
    assert StepsAt(parseIp, zone, run, i);
    StepMoves(parseIp, zone, run.states[i], run.events[i], run.states[i + 1]);
  }

  lemma {:induction false} PastGrows(parseIp: IpParser, zone: string, run: Run, i: nat, j: nat)
    requires IsRun(parseIp, zone, run) && i <= j < |run.states| && Invariant(parseIp, run.states[0])
    ensures run.states[i].past <= run.states[j].past
    decreases j
  {
    hide Invariant, Next, IsRun;
    if i < j {
      PastGrows(parseIp, zone, run, i, j - 1);
      RunMoves(parseIp, zone, run, j - 1);
    }
  }

  /** Revision names content: in any run from a new installation, whatever faults, crashes and
      interleavings it holds, rows of one id at two moments are in revision order, share their
      creation time, and are equal as soon as their revisions are. */
  lemma RevisionNamesContent(parseIp: IpParser, zone: string, live: Config, clock: Time, run: Run,
                             i: nat, j: nat, a: Route, b: Route)
    requires IsRun(parseIp, zone, run) && run.states[0] == Init(live, clock)
    requires i <= j < |run.states| && a in run.states[i].rows && b in run.states[j].rows && a.id == b.id
    ensures a.revision <= b.revision && a.createdAt == b.createdAt
    ensures a.revision == b.revision ==> a == b
  {
    hide IsRun, Init, IsRoutesTable, JobsFit, LockFits;
    InitHolds(parseIp, live, clock);
    RunKeeps(parseIp, zone, run, i);
    RunKeeps(parseIp, zone, run, j);
    PastGrows(parseIp, zone, run, i, j);
  }

  /** A removed id never returns. */
  lemma {:induction false} RemovedIdNeverReturns(parseIp: IpParser, zone: string, run: Run, i: nat, j: nat, id: string)
    requires IsRun(parseIp, zone, run) && i <= j < |run.states| && Invariant(parseIp, run.states[0])
    requires id in PastIds(run.states[i].past) && id !in Ids(run.states[i].rows)
    ensures id !in Ids(run.states[j].rows)
    decreases j
  {
    hide Invariant, Next, IsRun;
    if i < j {
      RemovedIdNeverReturns(parseIp, zone, run, i, j - 1, id);
      RunMoves(parseIp, zone, run, j - 1);
      PastGrows(parseIp, zone, run, i, j - 1);
    }
  }

  lemma FixedRow(parseIp: IpParser, row: Route, stamp: Stamp)
    requires IsRow(parseIp, row)
    ensures row.revision >= 1 && ValidateRelativeHostname(row.hostname).None?
    ensures IsAcceptable(parseIp, InputOf(row))
    ensures row.upstream.skipTlsVerify ==> row.upstream.scheme == "https"
    ensures Admit(parseIp, InputOf(row), stamp)
              == Ok(Route(stamp.id, row.hostname, true, row.publicMode, row.upstream, 1, stamp.at, stamp.at,
                  HealthUnknown))
  {
    hide Normalise, ValidateRelativeHostname, IsAcceptable, HasUrlChar, IsDnsName;
    NormalInputIsFixed(parseIp, InputOf(row));
    AdmitsExactly(parseIp, InputOf(row), stamp);
  }

  /** The table of every run has distinct ids and hostnames, and each of its rows is at a revision of
      at least 1 and a fixpoint of NewRoute: it is acceptable, and validating it again gives the same
      content. So a route that skips verification has an https upstream. */
  lemma StoredRoutesAreFixpoints(parseIp: IpParser, zone: string, live: Config, clock: Time, run: Run, i: nat,
                                 row: Route, stamp: Stamp)
    requires IsRun(parseIp, zone, run) && run.states[0] == Init(live, clock)
    requires i < |run.states| && row in run.states[i].rows
    ensures IsTable(run.states[i].rows)
    ensures row.revision >= 1 && IsAcceptable(parseIp, InputOf(row))
    ensures row.upstream.skipTlsVerify ==> row.upstream.scheme == "https"
    ensures Admit(parseIp, InputOf(row), stamp)
              == Ok(Route(stamp.id, row.hostname, true, row.publicMode, row.upstream, 1, stamp.at, stamp.at,
                  HealthUnknown))
    ensures ValidateZone(zone).None? ==> ValidateZone(FullHost(row.hostname, zone)).None?
  {
    hide IsRun, Init, History, JobsFit, LockFits, ValidateZone, ValidateRelativeHostname, Admit, IsRow, IsAcceptable;
    InitHolds(parseIp, live, clock);
    RunKeeps(parseIp, zone, run, i);
    RowIn(parseIp, run.states[i].rows, row);
    FixedRow(parseIp, row, stamp);
    if ValidateZone(zone).None? {
      HostUnderZoneIsZone(row.hostname, zone);
    }
  }

  // ----- An import is linearised at its apply -----

  /** A successful apply leaves exactly what the import would build from the store at that moment,
      whatever ran since its preview, and the counts of that preview are the difference it makes. */
  lemma ImportIsLinearised(parseIp: IpParser, zone: string, s: State, fault: SqlFault)
    requires Invariant(parseIp, s)
    requires s.lock.Held? && s.lock.phase.Pushed? && s.lock.job.Some?
    requires Next(parseIp, zone, s, PersistStep(fault)).lock.Free?
    ensures var request := s.lock.job.value.request;
            var listing := SortByHost(s.rows);
            var built := Build(parseIp, listing, request.entries, request.mode);
            && built.Ok?
            && SortByHost(Next(parseIp, zone, s, PersistStep(fault)).rows) == built.value.routes
            && IsDiff(listing, built.value)
  {
    var job := s.lock.job.value;
    JobAtPush(parseIp, s);
    PersistedReplacement(parseIp, zone, s, fault);
    JobRoutes(parseIp, job);
    ListedAgain(parseIp, job.next);
    CountsAreTheDiff(parseIp, job.base, job.request.entries, job.request.mode);
  }

  /** The import an apply has pushed was previewed on the listing the store has now. */
  lemma JobAtPush(parseIp: IpParser, s: State)
    requires Invariant(parseIp, s) && s.lock.Held? && s.lock.phase.Pushed? && s.lock.job.Some?
    ensures s.lock.job.value.base == SortByHost(s.rows)
    ensures IsPreviewed(parseIp, s.lock.job.value)
    ensures s.lock.plan.change == ReplaceAll(s.lock.job.value.next)
  {
  }

  lemma JobRoutes(parseIp: IpParser, job: Job)
    requires IsPreviewed(parseIp, job)
    ensures Sorted(job.next) && IsRoutesTable(parseIp, job.next)
  {
    BuildIsTable(parseIp, job.base, job.request.entries, job.request.mode);
  }

  lemma PersistedReplacement(parseIp: IpParser, zone: string, s: State, fault: SqlFault)
    requires s.lock.Held? && s.lock.phase.Pushed? && s.lock.plan.change.ReplaceAll?
    requires Next(parseIp, zone, s, PersistStep(fault)).lock.Free?
    ensures ReplaceRows(s.lock.plan.change.routes) == Ok(Next(parseIp, zone, s, PersistStep(fault)).rows)
  {
    hide Next;
    NextPersists(parseIp, zone, s, fault);
  }

  lemma ListedAgain(parseIp: IpParser, routes: seq<Route>)
    requires IsRoutesTable(parseIp, routes) && Sorted(routes)
    ensures ReplaceRows(routes) == Ok(routes) && SortByHost(routes) == routes
  {
    forall i | 0 <= i < |routes| ensures routes[i].health == HealthUnknown {
      assert IsRow(parseIp, routes[i]);
    }
    ReplacedListing(routes);
    assert AsRows(routes) == routes;
  }

  /** Once a plan is pushed, a working database persists it: nothing is left for it to refuse. */
  lemma PersistCannotFail(parseIp: IpParser, zone: string, s: State)
    requires Invariant(parseIp, s) && s.lock.Held? && s.lock.phase.Pushed?
    ensures Next(parseIp, zone, s, PersistStep(NoFault)).lock == Free
    ensures Intent(Next(parseIp, zone, s, PersistStep(NoFault)).rows) == Intent(s.lock.plan.next)
  {
    PushedIsSound(parseIp, s);
    SoundPersists(parseIp, s.rows, s.lock.reserved, s.lock.plan, s.clock);
    PersistedStep(parseIp, zone, s, NoFault);
  }

  lemma PushedIsSound(parseIp: IpParser, s: State)
    requires Invariant(parseIp, s) && s.lock.Held? && !s.lock.phase.RollingBack?
    ensures IsSound(parseIp, s.rows, s.lock.reserved, s.lock.plan)
  {
  }

  lemma PersistedStep(parseIp: IpParser, zone: string, s: State, fault: SqlFault)
    requires s.lock.Held? && s.lock.phase.Pushed?
    ensures var persisted := Persist(s.rows, s.lock.plan.change, s.clock, fault);
            var after := Next(parseIp, zone, s, PersistStep(fault));
            after.rows == persisted.rows && (after.lock == Free <==> persisted.error == None)
  {
    hide Next, Persist;
    NextPersists(parseIp, zone, s, fault);
  }
}
