/** When the proxy routes as the store asks: at every step of an undamaged run, and again after any
    transaction that succeeds or rolls back, whatever came before. */
module Agreement {
  import opened Results
  import opened Domain
  import opened Listing
  import opened Store
  import opened Caddy
  import opened Import
  import opened Transactions
  import opened Protocol
  import opened ProtocolRuns

  /** Between its push and its end, the holder of the lock has the proxy on its next list. */
  ghost predicate Agrees(parseIp: IpParser, zone: string, s: State) {
    match s.lock
    case Free => Routes(parseIp, zone, s.live, Intent(s.rows))
    case Held(plan, Planned, _, _) => Routes(parseIp, zone, s.live, Intent(s.rows))
    case Held(plan, Pushed, _, _) => Routes(parseIp, zone, s.live, Intent(plan.next))
    case Held(plan, RollingBack, _, _) =>
      Routes(parseIp, zone, s.live, Intent(plan.next)) && plan.current == SortByHost(s.rows)
  }

  /** The steps after which the proxy may be left on another list than the store's: a crash between
      push and persist, a lost rollback, the read-back failure of a rewrite, a proxy that restarts. */
  predicate Damages(parseIp: IpParser, zone: string, s: State, e: Event) {
    match e
    case ProxyReset(_) => true
    case Crash => s.lock.Held? && !s.lock.phase.Planned?
    case RollbackStep(fault) =>
      s.lock.Held? && s.lock.phase.RollingBack? && Push(parseIp, zone, s.lock.plan.current, fault).Err?
    case PersistStep(fault) =>
      s.lock.Held? && s.lock.phase.Pushed? && s.lock.plan.change.Rewrite? && fault == ReadFault
    case _ => false
  }

  ghost predicate DamagedAt(parseIp: IpParser, zone: string, run: Run, i: nat) {
    |run.states| == |run.events| + 1 && i < |run.events| && Damages(parseIp, zone, run.states[i], run.events[i])
  }

  /** No damage from the state at `i` to the state at `j`. */
  ghost predicate Undamaged(parseIp: IpParser, zone: string, run: Run, i: nat, j: nat) {
    forall k {:trigger DamagedAt(parseIp, zone, run, k)} :: i <= k < j ==> !DamagedAt(parseIp, zone, run, k)
  }

  // ----- Each step of the holder -----

  lemma PushAgrees(parseIp: IpParser, zone: string, s: State, fault: PushFault)
    requires Invariant(parseIp, s) && Agrees(parseIp, zone, s) && s.lock.Held?
    ensures Agrees(parseIp, zone, DoPush(s, Push(parseIp, zone, s.lock.plan.next, fault)))
  {
    hide Push, Routes, Intent, Persist, JobsFit, History;
    var pushed := Push(parseIp, zone, s.lock.plan.next, fault);
    if s.lock.phase.Planned? && pushed.Ok? {
      PushedRoutes(parseIp, zone, s.lock.plan.next, fault);
      if s.lock.plan.change.KeepRows? {
        KeptIntent(parseIp, s.rows, s.lock.reserved, s.lock.plan);
      }
    }
  }

  lemma KeptIntent(parseIp: IpParser, rows: seq<Route>, reserved: set<string>, plan: Plan)
    requires IsSound(parseIp, rows, reserved, plan) && plan.change.KeepRows?
    ensures Intent(rows) == Intent(plan.next)
  {
    assert ChangeFits(parseIp, rows, reserved, plan, 0);
  }

  lemma PersistAgrees(parseIp: IpParser, zone: string, s: State, fault: SqlFault)
    requires Invariant(parseIp, s) && Agrees(parseIp, zone, s) && s.lock.Held?
    requires !Damages(parseIp, zone, s, PersistStep(fault))
    ensures Agrees(parseIp, zone, DoPersist(s, Persist(s.rows, s.lock.plan.change, s.clock, fault)))
  {
    hide Push, Routes, Intent, Persist, JobsFit, History;
    if s.lock.phase.Pushed? {
      PersistIntent(parseIp, s.rows, s.lock.reserved, s.lock.plan, s.clock, fault);
    }
  }

  lemma RollbackAgrees(parseIp: IpParser, zone: string, s: State, fault: PushFault)
    requires Invariant(parseIp, s) && Agrees(parseIp, zone, s) && s.lock.Held?
    requires !Damages(parseIp, zone, s, RollbackStep(fault))
    ensures Agrees(parseIp, zone, DoRollback(s, Push(parseIp, zone, s.lock.plan.current, fault)))
  {
    hide Push, Routes, Intent, Persist, JobsFit, History;
    if s.lock.phase.RollingBack? {
      PushedRoutes(parseIp, zone, s.lock.plan.current, fault);
      ListingIntent(s.rows);
    }
  }

  /** The steps that change neither the proxy nor the table, nor move the holder on. */
  lemma QuietAgrees(parseIp: IpParser, zone: string, s: State, s': State)
    requires Agrees(parseIp, zone, s) && s'.live == s.live && s'.rows == s.rows
    requires || s'.lock == s.lock
             || (s.lock.Free? && s'.lock.Held? && s'.lock.phase.Planned?)
             || (s'.lock.Free? && s.lock.Held? && s.lock.phase.Planned?)
    ensures Agrees(parseIp, zone, s')
  {
    hide Routes, Intent;
  }

  lemma BeginIsQuiet(parseIp: IpParser, zone: string, s: State, e: Event, s': State)
    requires s' == Next(parseIp, zone, s, e) && TakesLock(e)
    ensures s'.live == s.live && s'.rows == s.rows
    ensures s'.lock == s.lock || (s.lock.Free? && s'.lock.Held? && s'.lock.phase.Planned?)
  {
    hide Admit, PlanCreate, PlanUpdate, PlanDelete, PlanImport, PlanReconcile, StampIds;
  }

  lemma OtherIsQuiet(parseIp: IpParser, zone: string, s: State, e: Event, s': State)
    requires s' == Next(parseIp, zone, s, e)
    requires e.PreviewRead? || e.PreviewPark? || e.TakeImport? || e.CheckExpiry? || e.Abandon? || e.Tick? || e.Crash?
    requires !Damages(parseIp, zone, s, e)
    ensures s'.live == s.live && s'.rows == s.rows
    ensures s'.lock == s.lock || (s'.lock.Free? && s.lock.Held? && s.lock.phase.Planned?)
  {
    hide Build, SortByHost, FreshEntries, StampIds, Push, Persist, Admit;
  }

  lemma HolderStepAgrees(parseIp: IpParser, zone: string, s: State, e: Event, s': State)
    requires Invariant(parseIp, s) && Agrees(parseIp, zone, s) && !Damages(parseIp, zone, s, e)
    requires s' == Next(parseIp, zone, s, e) && (e.PushStep? || e.PersistStep? || e.RollbackStep?)
    ensures Agrees(parseIp, zone, s')
  {
    hide Invariant, Agrees, Damages, Push, Persist, DoPush, DoPersist, DoRollback;
    if s.lock.Held? {
      if e.PushStep? {
        PushAgrees(parseIp, zone, s, e.pushFault);
      } else if e.PersistStep? {
        PersistAgrees(parseIp, zone, s, e.sqlFault);
      } else {
        RollbackAgrees(parseIp, zone, s, e.rollbackFault);
      }
    }
  }

  lemma StepAgrees(parseIp: IpParser, zone: string, s: State, e: Event, s': State)
    requires Invariant(parseIp, s) && Agrees(parseIp, zone, s) && !Damages(parseIp, zone, s, e)
    requires s' == Next(parseIp, zone, s, e)
    ensures Agrees(parseIp, zone, s')
  {
    hide Invariant, Agrees, Next;
    if TakesLock(e) {
      BeginIsQuiet(parseIp, zone, s, e, s');
      QuietAgrees(parseIp, zone, s, s');
    } else if e.PushStep? || e.PersistStep? || e.RollbackStep? {
      HolderStepAgrees(parseIp, zone, s, e, s');
    } else {
      OtherIsQuiet(parseIp, zone, s, e, s');
      QuietAgrees(parseIp, zone, s, s');
    }
  }

  // ----- Whole runs -----

  lemma {:induction false} RunAgrees(parseIp: IpParser, zone: string, run: Run, i: nat, j: nat)
    requires IsRun(parseIp, zone, run) && i <= j < |run.states| && Invariant(parseIp, run.states[0])
    requires Agrees(parseIp, zone, run.states[i]) && Undamaged(parseIp, zone, run, i, j)
    ensures Agrees(parseIp, zone, run.states[j])
    decreases j
  {
    hide Invariant, Agrees, Next, Damages;
    if i < j {
      RunAgrees(parseIp, zone, run, i, j - 1);
      RunKeeps(parseIp, zone, run, j - 1);
      assert StepsAt(parseIp, zone, run, j - 1) && !DamagedAt(parseIp, zone, run, j - 1);
      StepAgrees(parseIp, zone, run.states[j - 1], run.events[j - 1], run.states[j]);
    }
  }

  /** Step-level agreement: once proxy and store agree with the lock free, then at every later moment
      of the run before the next damage the proxy routes as the store asks, or as the next list of the
      one mutation that holds the lock; and as the store asks whenever the lock is free. */
  lemma AgreementAtEveryStep(parseIp: IpParser, zone: string, run: Run, i: nat, j: nat)
    requires IsRun(parseIp, zone, run) && i <= j < |run.states| && Invariant(parseIp, run.states[0])
    requires run.states[i].lock.Free? && Routes(parseIp, zone, run.states[i].live, Intent(run.states[i].rows))
    requires Undamaged(parseIp, zone, run, i, j)
    ensures var now := run.states[j];
            && (now.lock.Free? ==> Routes(parseIp, zone, now.live, Intent(now.rows)))
            && (now.lock.Held? ==> Routes(parseIp, zone, now.live, Intent(now.rows))
                                   || Routes(parseIp, zone, now.live, Intent(now.lock.plan.next)))
  {
    hide Invariant, Routes, Intent, Next, Damages, IsRun;
    RunAgrees(parseIp, zone, run, i, j);
  }

  // ----- What damage costs -----

  /** Past its push, the holder of the lock has the proxy on its next list, wherever the table is. */
  ghost predicate ServesPlan(parseIp: IpParser, zone: string, s: State) {
    s.lock.Held? && !s.lock.phase.Planned? ==> Routes(parseIp, zone, s.live, Intent(s.lock.plan.next))
  }

  lemma HolderServesPlan(parseIp: IpParser, zone: string, s: State, e: Event, s': State)
    requires Invariant(parseIp, s) && ServesPlan(parseIp, zone, s)
    requires s' == Next(parseIp, zone, s, e) && (e.PushStep? || e.PersistStep? || e.RollbackStep?)
    ensures ServesPlan(parseIp, zone, s')
  {
    hide Invariant, Routes, Intent, Push, Persist;
    if e.PushStep? && s.lock.Held? && s.lock.phase.Planned? && Push(parseIp, zone, s.lock.plan.next, e.pushFault).Ok? {
      PushedLists(parseIp, s);
      PushedRoutes(parseIp, zone, s.lock.plan.next, e.pushFault);
    }
  }

  lemma StepServesPlan(parseIp: IpParser, zone: string, s: State, e: Event, s': State)
    requires Invariant(parseIp, s) && ServesPlan(parseIp, zone, s)
    requires s' == Next(parseIp, zone, s, e) && !e.ProxyReset?
    ensures ServesPlan(parseIp, zone, s')
  {
    hide Invariant, Next, Routes, Intent;
    if TakesLock(e) {
      BeginIsQuiet(parseIp, zone, s, e, s');
    } else if e.PushStep? || e.PersistStep? || e.RollbackStep? {
      HolderServesPlan(parseIp, zone, s, e, s');
    } else {
      OtherKeepsPlan(parseIp, zone, s, e, s');
    }
  }

  lemma OtherKeepsPlan(parseIp: IpParser, zone: string, s: State, e: Event, s': State)
    requires s' == Next(parseIp, zone, s, e)
    requires !TakesLock(e) && !e.PushStep? && !e.PersistStep? && !e.RollbackStep? && !e.ProxyReset?
    ensures s'.live == s.live && (s'.lock == s.lock || s'.lock == Free)
  {
    hide Build, SortByHost, FreshEntries, StampIds, Push, Persist, Admit;
  }

  predicate Resets(e: Event) {
    e.ProxyReset?
  }

  /** As long as the proxy does not restart. */
  lemma {:induction false} RunServesPlan(parseIp: IpParser, zone: string, run: Run, i: nat, j: nat)
    requires IsRun(parseIp, zone, run) && i <= j < |run.states| && Invariant(parseIp, run.states[0])
    requires ServesPlan(parseIp, zone, run.states[i])
    requires forall k {:trigger Resets(run.events[k])} :: i <= k < j ==> !Resets(run.events[k])
    ensures ServesPlan(parseIp, zone, run.states[j])
    decreases j
  {
    hide Invariant, ServesPlan, Next;
    if i < j {
      RunServesPlan(parseIp, zone, run, i, j - 1);
      RunKeeps(parseIp, zone, run, j - 1);
      assert StepsAt(parseIp, zone, run, j - 1) && !Resets(run.events[j - 1]);
      StepServesPlan(parseIp, zone, run.states[j - 1], run.events[j - 1], run.states[j]);
    }
  }

  /** When proxy and store agree after a crash past the push, or after the rollback step, whichever
      way it goes and whatever the persist did to the table, its failed read-back included: exactly
      when the list the proxy is left on serves what the stored one does. */
  lemma DamageShows(parseIp: IpParser, zone: string, s: State, e: Event)
    requires ServesPlan(parseIp, zone, s) && s.lock.Held? && DistinctHosts(s.lock.plan.current)
    requires (e.Crash? && !s.lock.phase.Planned?) || (e.RollbackStep? && s.lock.phase.RollingBack?)
    ensures var s' := Next(parseIp, zone, s, e);
            var undone := e.RollbackStep? && e.rollbackFault == PushOk && ValidateZone(zone).None?;
            var onProxy := if undone then s.lock.plan.current else s.lock.plan.next;
            && s'.lock.Free? && s'.rows == s.rows
            && (Routes(parseIp, zone, s'.live, Intent(s'.rows))
                <==> Served(parseIp, Intent(onProxy)) == Served(parseIp, Intent(s.rows)))
  {
    hide Push, Routes, Intent, Served, ValidateZone;
    if e.RollbackStep? {
      PushOutcome(parseIp, zone, s.lock.plan.current, e.rollbackFault);
      if e.rollbackFault == PushOk && ValidateZone(zone).None? {
        PushedRoutes(parseIp, zone, s.lock.plan.current, PushOk);
        RoutesExactly(parseIp, zone, Push(parseIp, zone, s.lock.plan.current, PushOk).value,
                      Intent(s.lock.plan.current), Intent(s.rows));
      }
    }
    RoutesExactly(parseIp, zone, s.live, Intent(s.lock.plan.next), Intent(s.rows));
  }

  // ----- A proxy that restarts -----

  /** What Caddy is started with: no servers at all. */
  const BOOTSTRAP: Config := Config(map[], None)

  lemma BootstrapServesNothing(parseIp: IpParser, zone: string)
    ensures Routes(parseIp, zone, BOOTSTRAP, map[])
  {
    forall port: nat, host ensures Dispatch(BOOTSTRAP, port, host) == Direct(parseIp, zone, map[], port, host) {}
  }

  /** A freshly started proxy agrees with the store exactly when the store has nothing enabled. */
  lemma BootstrapAgrees(parseIp: IpParser, zone: string, rows: seq<Route>)
    ensures Routes(parseIp, zone, BOOTSTRAP, Intent(rows)) <==> Served(parseIp, Intent(rows)) == map[]
  {
    hide Routes, Intent;
    BootstrapServesNothing(parseIp, zone);
    RoutesExactly(parseIp, zone, BOOTSTRAP, map[], Intent(rows));
    assert Served(parseIp, map[]) == map[];
  }

  /** The steps that give the proxy a configuration. */
  predicate Loads(parseIp: IpParser, zone: string, s: State, e: Event) {
    || e.ProxyReset?
    || (e.PushStep? && s.lock.Held? && s.lock.phase.Planned? && Push(parseIp, zone, s.lock.plan.next, e.pushFault).Ok?)
    || (e.RollbackStep? && s.lock.Held? && s.lock.phase.RollingBack?
        && Push(parseIp, zone, s.lock.plan.current, e.rollbackFault).Ok?)
  }

  predicate LoadsAt(parseIp: IpParser, zone: string, run: Run, i: nat) {
    |run.states| == |run.events| + 1 && i < |run.events| && Loads(parseIp, zone, run.states[i], run.events[i])
  }

  lemma LiveStays(parseIp: IpParser, zone: string, s: State, e: Event, s': State)
    requires s' == Next(parseIp, zone, s, e) && !Loads(parseIp, zone, s, e)
    ensures s'.live == s.live
  {
    hide Push, Persist;
    if TakesLock(e) {
      BeginIsQuiet(parseIp, zone, s, e, s');
    } else if !e.PushStep? && !e.PersistStep? && !e.RollbackStep? {
      OtherKeepsPlan(parseIp, zone, s, e, s');
    }
  }

  lemma {:induction false} LiveStaysAlong(parseIp: IpParser, zone: string, run: Run, i: nat, j: nat)
    requires IsRun(parseIp, zone, run) && i <= j < |run.states|
    requires forall k {:trigger LoadsAt(parseIp, zone, run, k)} :: i <= k < j ==> !LoadsAt(parseIp, zone, run, k)
    ensures run.states[j].live == run.states[i].live
    decreases j
  {
    hide Next, Loads;
    if i < j {
      LiveStaysAlong(parseIp, zone, run, i, j - 1);
      assert StepsAt(parseIp, zone, run, j - 1) && !LoadsAt(parseIp, zone, run, j - 1);
      LiveStays(parseIp, zone, run.states[j - 1], run.events[j - 1], run.states[j]);
    }
  }

  /** A restart of the proxy alone does not converge by itself: until some push is accepted, it agrees
      with the store exactly while the store has nothing enabled. */
  lemma ProxyRestartLasts(parseIp: IpParser, zone: string, run: Run, i: nat, j: nat)
    requires IsRun(parseIp, zone, run) && i < j < |run.states| && run.events[i] == ProxyReset(BOOTSTRAP)
    requires forall k {:trigger LoadsAt(parseIp, zone, run, k)} :: i < k < j ==> !LoadsAt(parseIp, zone, run, k)
    ensures Routes(parseIp, zone, run.states[j].live, Intent(run.states[j].rows))
            <==> Served(parseIp, Intent(run.states[j].rows)) == map[]
  {
    hide Routes, Intent, Loads, Served;
    assert StepsAt(parseIp, zone, run, i);
    LiveStaysAlong(parseIp, zone, run, i + 1, j);
    BootstrapAgrees(parseIp, zone, run.states[j].rows);
  }

  // ----- Healing -----

  /** The steps of a mutation that nothing interrupts are the whole transaction. */
  lemma UninterruptedIsCommit(parseIp: IpParser, zone: string, s: State, faults: Faults)
    requires s.lock.Held? && s.lock.phase.Planned? && !s.lock.plan.change.KeepRows?
    ensures var pushed := Next(parseIp, zone, s, PushStep(faults.push));
            var persisted := Next(parseIp, zone, pushed, PersistStep(faults.persist));
            var ended := Next(parseIp, zone, persisted, RollbackStep(faults.rollback));
            var outcome := Commit(parseIp, zone, s.rows, s.live, s.lock.plan, s.clock, faults);
            ended.lock == Free && ended.rows == outcome.rows && ended.live == outcome.live
  {
    hide Push, Persist;
  }

  lemma UninterruptedReconcile(parseIp: IpParser, zone: string, s: State, faults: Faults)
    requires s.lock.Held? && s.lock.phase.Planned? && s.lock.plan.change.KeepRows?
    ensures var ended := Next(parseIp, zone, s, PushStep(faults.push));
            var outcome := Commit(parseIp, zone, s.rows, s.live, s.lock.plan, s.clock, faults);
            ended.lock == Free && ended.rows == outcome.rows && ended.live == outcome.live
  {
    hide Push;
  }

  lemma PushRestores(parseIp: IpParser, zone: string, s: State, fault: PushFault, s': State)
    requires Invariant(parseIp, s) && s.lock.Held? && s.lock.phase.Planned?
    requires Push(parseIp, zone, s.lock.plan.next, fault).Ok? && s' == Next(parseIp, zone, s, PushStep(fault))
    ensures Agrees(parseIp, zone, s')
  {
    hide Invariant, Routes, Intent, Damages, Push, IsSound;
    PushedIsSound(parseIp, s);
    PushedLists(parseIp, s);
    PushedRoutes(parseIp, zone, s.lock.plan.next, fault);
    if s.lock.plan.change.KeepRows? {
      KeptIntent(parseIp, s.rows, s.lock.reserved, s.lock.plan);
    }
  }

  /** Self-healing: in any run, whatever the proxy held before, one accepted push restores agreement,
      at every step of the mutation that made it and of everything that follows, under any
      interleaving, until something damages it again. */
  lemma AcceptedPushHeals(parseIp: IpParser, zone: string, run: Run, i: nat, j: nat)
    requires IsRun(parseIp, zone, run) && i < j < |run.states| && Invariant(parseIp, run.states[0])
    requires run.states[i].lock.Held? && run.states[i].lock.phase.Planned?
    requires run.events[i] == PushStep(PushOk) && ValidateZone(zone).None?
    requires Undamaged(parseIp, zone, run, i + 1, j)
    ensures Agrees(parseIp, zone, run.states[j])
    ensures run.states[j].lock.Free? ==> Routes(parseIp, zone, run.states[j].live, Intent(run.states[j].rows))
  {
    hide Invariant, Routes, Intent, Damages, Push, Undamaged, Next;
    RunKeeps(parseIp, zone, run, i);
    assert StepsAt(parseIp, zone, run, i);
    PushAccepted(parseIp, zone, run.states[i].lock.plan.next);
    PushRestores(parseIp, zone, run.states[i], PushOk, run.states[i + 1]);
    RunAgrees(parseIp, zone, run, i + 1, j);
  }

  lemma PushAccepted(parseIp: IpParser, zone: string, routes: seq<Route>)
    requires ValidateZone(zone).None?
    ensures Push(parseIp, zone, routes, PushOk).Ok?
  {
  }

  lemma PushedLists(parseIp: IpParser, s: State)
    requires Invariant(parseIp, s) && s.lock.Held?
    ensures DistinctHosts(s.lock.plan.next) && DistinctHosts(s.lock.plan.current)
  {
  }

  /** The same for Reconcile, which only pushes: after a restart of the controller, which reconciles
      first, the two converge by themselves. */
  lemma ReconcileHealsForGood(parseIp: IpParser, zone: string, run: Run, i: nat, j: nat)
    requires IsRun(parseIp, zone, run) && i + 2 <= j < |run.states| && Invariant(parseIp, run.states[0])
    requires run.states[i].lock.Free? && ValidateZone(zone).None?
    requires run.events[i] == BeginReconcile && run.events[i + 1] == PushStep(PushOk)
    requires Undamaged(parseIp, zone, run, i + 2, j)
    ensures var ended := run.states[i + 2];
            ended.lock.Free? && ended.rows == run.states[i].rows
                && Routes(parseIp, zone, ended.live, Intent(ended.rows))
    ensures Agrees(parseIp, zone, run.states[j])
  {
    hide Invariant, Routes, Intent, Damages, Undamaged, Next;
    RunKeeps(parseIp, zone, run, i);
    assert StepsAt(parseIp, zone, run, i) && StepsAt(parseIp, zone, run, i + 1);
    ReconcileEnds(parseIp, zone, run.states[i], run.states[i + 2]);
    RunAgrees(parseIp, zone, run, i + 2, j);
  }

  lemma ReconcileEnds(parseIp: IpParser, zone: string, s: State, ended: State)
    requires Invariant(parseIp, s) && s.lock.Free? && ValidateZone(zone).None?
    requires ended == Next(parseIp, zone, Next(parseIp, zone, s, BeginReconcile), PushStep(PushOk))
    ensures ended.lock.Free? && ended.rows == s.rows && Routes(parseIp, zone, ended.live, Intent(ended.rows))
  {
    hide Invariant, Routes, Intent, Next, SortByHost, Push;
    ReconcileRun(parseIp, zone, s);
    TableOfReachable(parseIp, s);
    SortedTable(s.rows);
    PushedRoutes(parseIp, zone, SortByHost(s.rows), PushOk);
    ListingIntent(s.rows);
  }

  lemma ReconcileRun(parseIp: IpParser, zone: string, s: State)
    requires s.lock.Free? && ValidateZone(zone).None?
    ensures Push(parseIp, zone, SortByHost(s.rows), PushOk).Ok?
    ensures Next(parseIp, zone, Next(parseIp, zone, s, BeginReconcile), PushStep(PushOk))
              == s.(live := Push(parseIp, zone, SortByHost(s.rows), PushOk).value)
  {
    hide SortByHost, Rendered;
  }

  lemma TableOfReachable(parseIp: IpParser, s: State)
    requires Invariant(parseIp, s)
    ensures IsRoutesTable(parseIp, s.rows) && IsTable(s.rows)
  {
  }
}
