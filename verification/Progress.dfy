/** What can be counted on when nothing fails: a planned mutation succeeds, and a previewed import can be
    applied. Every conclusion the safety theorems draw about a held lock is about states that occur. */
module Progress {
  import opened Results
  import opened Domain
  import opened Listing
  import opened Store
  import opened Caddy
  import opened Import
  import opened ImportLaws
  import opened Transactions
  import opened Protocol
  import opened ProtocolRuns
  import opened Agreement

  /** In a zone that renders, a sound plan without faults succeeds, and the proxy serves it. */
  lemma FaultlessCommit(parseIp: IpParser, zone: string, rows: seq<Route>, live: Config, reserved: set<string>,
                        plan: Plan, now: Time)
    requires IsRoutesTable(parseIp, rows) && IsSound(parseIp, rows, reserved, plan) && ValidateZone(zone).None?
    ensures var outcome := Commit(parseIp, zone, rows, live, plan, now, Faults(PushOk, NoFault, PushOk));
            && outcome.error == None
            && Intent(outcome.rows) == Intent(plan.next)
            && Routes(parseIp, zone, outcome.live, Intent(outcome.rows))
  {
    hide IsRoutesTable, IsSound, Intent, Routes, Persist;
    SoundPersists(parseIp, rows, reserved, plan, now);
    CommitHeals(parseIp, zone, rows, live, reserved, plan, now, Faults(PushOk, NoFault, PushOk));
  }

  // ----- Mutations -----

  /** The step by which a create, update or delete takes the lock. */
  function BeginOf(call: Call): Event
    requires call.CreateCall? || call.UpdateCall? || call.DeleteCall?
  {
    match call
    case CreateCall(input, stamp) => BeginCreate(input, stamp)
    case UpdateCall(id, input, enabled, revision, stamp) => BeginUpdate(id, input, enabled, revision, stamp)
    case DeleteCall(id, revision) => BeginDelete(id, revision)
  }

  /** A mutation takes the free lock exactly when its checks pass. */
  lemma ChecksDecide(parseIp: IpParser, zone: string, s: State, call: Call, s': State)
    requires s.lock.Free? && (call.CreateCall? || call.UpdateCall? || call.DeleteCall?)
    requires call.CreateCall? ==> call.stamp.id !in s.issued
    requires s' == Next(parseIp, zone, s, BeginOf(call))
    ensures s'.rows == s.rows
    ensures s'.lock.Held? <==> PlanFor(parseIp, s.rows, call).Ok?
    ensures s'.lock.Held? ==>
              s'.lock.phase.Planned? && s'.lock.plan == PlanFor(parseIp, s.rows, call).value
                  && !s'.lock.plan.change.KeepRows?
  {
    hide Admit, SortByHost, Push, Persist, Build, IndexOf, HostTakenByOther;
  }

  lemma PushStepTaken(parseIp: IpParser, zone: string, s: State, s': State)
    requires s.lock.Held? && s.lock.phase.Planned? && !s.lock.plan.change.KeepRows? && ValidateZone(zone).None?
    requires s' == Next(parseIp, zone, s, PushStep(PushOk))
    ensures s'.lock == s.lock.(phase := Pushed) && s'.rows == s.rows
  {
    hide Admit, Build, Persist, Rendered, SortByHost;
  }

  /** Wherever the lock is free, a create, update or delete whose checks pass can take the lock, push
      and persist, and then the store asks for what was planned and the proxy serves it. */
  lemma MutationGoesThrough(parseIp: IpParser, zone: string, run: Run, call: Call)
    requires IsRun(parseIp, zone, run) && |run.events| == 3 && Invariant(parseIp, run.states[0])
    requires run.states[0].lock.Free? && ValidateZone(zone).None?
    requires call.CreateCall? || call.UpdateCall? || call.DeleteCall?
    requires call.CreateCall? ==> call.stamp.id !in run.states[0].issued
    requires PlanFor(parseIp, run.states[0].rows, call).Ok?
    requires run.events == [BeginOf(call), PushStep(PushOk), PersistStep(NoFault)]
    ensures var after := run.states[3];
            && after.lock.Free?
            && Intent(after.rows) == Intent(PlanFor(parseIp, run.states[0].rows, call).value.next)
            && Routes(parseIp, zone, after.live, Intent(after.rows))
  {
    hide Invariant, Next, PlanFor, Routes, Intent, Undamaged, Agrees, ValidateZone, BeginOf;
    assert StepsAt(parseIp, zone, run, 0) && StepsAt(parseIp, zone, run, 1) && StepsAt(parseIp, zone, run, 2);
    var s := run.states;
    ChecksDecide(parseIp, zone, s[0], call, s[1]);
    PushStepTaken(parseIp, zone, s[1], s[2]);
    RunKeeps(parseIp, zone, run, 2);
    PersistCannotFail(parseIp, zone, s[2]);
    NoDamageYet(parseIp, zone, run, 2);
    AcceptedPushHeals(parseIp, zone, run, 1, 3);
  }

  // ----- Imports -----

  /** The state after a preview that nothing disturbed has read and parked. */
  lemma PreviewToParked(parseIp: IpParser, zone: string, s: State, digest: string, request: Request, built: Built,
                        s1: State, s2: State)
    requires digest !in s.drawn && FreshEntries(request.entries, s.issued)
    requires request.mode == MERGE || request.mode == REPLACE
    requires Build(parseIp, SortByHost(s.rows), request.entries, request.mode) == Ok(built)
    requires s1 == Next(parseIp, zone, s, PreviewRead(digest, request))
    requires s2 == Next(parseIp, zone, s1, PreviewPark(digest, {}))
    ensures digest in s2.jobs
    ensures s2.jobs[digest] == Job(request, SortByHost(s.rows), built.routes, Parked(s.clock + TEN_MINUTES))
    ensures s2.rows == s.rows && s2.live == s.live && s2.lock == s.lock && s2.clock == s.clock
  {
    hide Build, SortByHost, FreshEntries, StampIds, Admit, Push, Persist;
  }

  /** Taken and checked at once, a parked import is cleared. */
  lemma ParkedToCleared(parseIp: IpParser, zone: string, s2: State, digest: string, s3: State, s4: State)
    requires digest in s2.jobs && s2.jobs[digest].status.Parked? && s2.clock <= s2.jobs[digest].status.expiresAt
    requires s3 == Next(parseIp, zone, s2, TakeImport(digest))
    requires s4 == Next(parseIp, zone, s3, CheckExpiry(digest))
    ensures digest in s4.jobs && s4.jobs[digest] == s2.jobs[digest].(status := Cleared)
    ensures s4.rows == s2.rows && s4.live == s2.live && s4.lock == s2.lock && s4.clock == s2.clock
  {
    hide Build, SortByHost, Admit, Push, Persist;
  }

  lemma ClearedToPushed(parseIp: IpParser, zone: string, s3: State, digest: string, job: Job, s4: State, s5: State)
    requires digest in s3.jobs && s3.jobs[digest] == job && job.status.Cleared? && s3.lock.Free?
    requires job.base == SortByHost(s3.rows) && ValidateZone(zone).None?
    requires s4 == Next(parseIp, zone, s3, BeginImport(digest))
    requires s5 == Next(parseIp, zone, s4, PushStep(PushOk))
    ensures s5.lock
              == Held(Plan(job.base, job.next, ReplaceAll(job.next)), Pushed, StampIds(job.request.entries), Some(job))
    ensures s5.rows == s3.rows && s4.lock.Held? && s4.lock.phase.Planned? && s4.lock.plan.next == job.next
    ensures Push(parseIp, zone, job.next, PushOk).Ok?
  {
    hide SortByHost, Rendered, StampIds, Build, Admit, Persist;
  }

  lemma PersistReplacement(parseIp: IpParser, zone: string, s5: State, s6: State)
    requires Invariant(parseIp, s5) && s5.lock.Held? && s5.lock.phase.Pushed? && s5.lock.job.Some?
    requires s6 == Next(parseIp, zone, s5, PersistStep(NoFault))
    ensures s6.lock.Free? && SortByHost(s6.rows) == s5.lock.job.value.next
  {
    hide Invariant, Next, Intent, SortByHost;
    PersistCannotFail(parseIp, zone, s5);
    JobAtPush(parseIp, s5);
    PersistedReplacement(parseIp, zone, s5, NoFault);
    JobRoutes(parseIp, s5.lock.job.value);
    ListedAgain(parseIp, s5.lock.job.value.next);
  }

  /** Wherever the lock is free, an import that builds can be previewed, parked, taken, begun, pushed
      and persisted, and then the store lists exactly what was built and the proxy serves it. */
  lemma ImportGoesThrough(parseIp: IpParser, zone: string, run: Run, digest: string, request: Request, built: Built)
    requires IsRun(parseIp, zone, run) && |run.events| == 7 && Invariant(parseIp, run.states[0])
    requires run.states[0].lock.Free? && ValidateZone(zone).None?
    requires digest !in run.states[0].drawn && FreshEntries(request.entries, run.states[0].issued)
    requires request.mode == MERGE || request.mode == REPLACE
    requires Build(parseIp, SortByHost(run.states[0].rows), request.entries, request.mode) == Ok(built)
    requires run.events == [PreviewRead(digest, request), PreviewPark(digest, {}), TakeImport(digest),
                            CheckExpiry(digest), BeginImport(digest), PushStep(PushOk), PersistStep(NoFault)]
    ensures var after := run.states[7];
            && after.lock.Free?
            && SortByHost(after.rows) == built.routes
            && Routes(parseIp, zone, after.live, Intent(after.rows))
  {
    hide Invariant, Next, Build, SortByHost, FreshEntries, Routes, Intent, Push, Undamaged, Agrees, ValidateZone;
    assert StepsAt(parseIp, zone, run, 0) && StepsAt(parseIp, zone, run, 1) && StepsAt(parseIp, zone, run, 2);
    assert StepsAt(parseIp, zone, run, 3) && StepsAt(parseIp, zone, run, 4) && StepsAt(parseIp, zone, run, 5);
    assert StepsAt(parseIp, zone, run, 6);
    var s := run.states;
    PreviewToParked(parseIp, zone, s[0], digest, request, built, s[1], s[2]);
    ParkedToCleared(parseIp, zone, s[2], digest, s[3], s[4]);
    ClearedToPushed(parseIp, zone, s[4], digest, s[4].jobs[digest], s[5], s[6]);
    RunKeeps(parseIp, zone, run, 6);
    PersistReplacement(parseIp, zone, s[6], s[7]);
    NoDamageYet(parseIp, zone, run, 6);
    AcceptedPushHeals(parseIp, zone, run, 5, 7);
  }

  lemma NoDamageYet(parseIp: IpParser, zone: string, run: Run, i: nat)
    requires i < |run.events| && run.events[i] == PersistStep(NoFault)
    ensures Undamaged(parseIp, zone, run, i, i + 1)
  {
  }
}
