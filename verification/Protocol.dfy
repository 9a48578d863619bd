/** The controller as a protocol between a store and a proxy: mutations that hold the service lock
    step by step, previews and applies of imports around it, faults, crashes and restarts. */
module Protocol {
  import opened Results
  import opened Domain
  import opened Listing
  import opened Store
  import opened Caddy
  import opened Import
  import opened ImportLaws
  import opened Transactions

  const SECOND: Time := 1_000_000_000
  const TEN_MINUTES: Time := 10 * 60 * SECOND

  datatype Request = Request(entries: seq<Entry>, mode: string)

  /** An import between its preview and its apply: built but not yet parked, parked under its digest,
      taken by an apply that has not looked at the clock yet, or cleared by it and waiting for the lock. */
  datatype JobStatus = Drafted | Parked(expiresAt: Time) | Taken(expiresAt: Time) | Cleared

  datatype Job = Job(request: Request, base: seq<Route>, next: seq<Route>, status: JobStatus)

  datatype Phase = Planned | Pushed | RollingBack

  /** The service lock: who holds it has read the listing and decided on a plan. `reserved` are the
      ids that plan may bring into the table; `job` is the import it applies, if it applies one. */
  datatype Lock = Free | Held(plan: Plan, phase: Phase, reserved: set<string>, job: Option<Job>)

  /** The rows and the live configuration survive a crash of the controller. `issued`, `drawn`,
      `past`, `ledger` and `used` only record history: the ids and digests drawn so far, every row
      ever stored, when each digest was parked, and which digests an apply has asked for since. */
  datatype State = State(
    rows: seq<Route>,
    live: Config,
    clock: Time,
    jobs: map<string, Job>,
    lock: Lock,
    issued: set<string>,
    drawn: set<string>,
    past: set<Route>,
    ledger: map<string, Time>,
    used: set<string>)

  datatype Event =
    | BeginCreate(input: RouteInput, stamp: Stamp)
    | BeginUpdate(id: string, update: RouteInput, enabled: bool, revision: int, draw: Stamp)
    | BeginDelete(target: string, expected: int)
    | BeginReconcile
    | BeginImport(taken: string)
    | PushStep(pushFault: PushFault)
    | PersistStep(sqlFault: SqlFault)
    | RollbackStep(rollbackFault: PushFault)
    | PreviewRead(digest: string, request: Request)
    | PreviewPark(parked: string, pruned: set<string>)
    | TakeImport(asked: string)
    | CheckExpiry(checked: string)
    | Abandon(dropped: string)
    | Tick(elapsed: nat)
    | Crash
    | ProxyReset(config: Config)

  // ----- The steps -----

  function Begin(s: State, plan: Result<Plan, Error>, reserved: set<string>, job: Option<Job>): State {
    if s.lock.Free? && plan.Ok? then s.(lock := Held(plan.value, Planned, reserved, job)) else s
  }

  function Draw(s: State, ids: set<string>): State {
    s.(issued := s.issued + ids)
  }

  function DoCreate(s: State, id: string, admitted: Result<Route, Error>): State {
    if id in s.issued || admitted.Err? then s
    else Begin(Draw(s, {id}), PlanCreate(s.rows, admitted.value), {id}, None)
  }

  function DoUpdate(s: State, id: string, admitted: Result<Route, Error>, enabled: bool, revision: int,
                    drawn: string): State
  {
    if admitted.Err? then s
    else Begin(Draw(s, {drawn}), PlanUpdate(s.rows, id, admitted.value, enabled, revision), {}, None)
  }

  function DoPush(s: State, pushed: Result<Config, Error>): State
    requires s.lock.Held?
  {
    if !s.lock.phase.Planned? then s
    else if pushed.Err? then s.(lock := Free)
    else s.(live := pushed.value, lock := if s.lock.plan.change.KeepRows? then Free else s.lock.(phase := Pushed))
  }

  function DoPersist(s: State, persisted: Persisted): State
    requires s.lock.Held?
  {
    if !s.lock.phase.Pushed? then s
    else
      s.(rows := persisted.rows,
         past := s.past + (set row | row in persisted.rows),
         lock := if persisted.error.None? then Free else s.lock.(phase := RollingBack))
  }

  function DoRollback(s: State, restored: Result<Config, Error>): State
    requires s.lock.Held?
  {
    if !s.lock.phase.RollingBack? then s
    else if restored.Err? then s.(lock := Free)
    else s.(live := restored.value, lock := Free)
  }

  /** PreviewImport up to its digest: it reads the store without the lock. */
  function DoPreview(s: State, digest: string, request: Request, built: Result<Built, Error>): State {
    if digest in s.drawn || !FreshEntries(request.entries, s.issued)
        || (request.mode != MERGE && request.mode != REPLACE)
       || built.Err? then s
    else
      Draw(s, StampIds(request.entries)).(
        drawn := s.drawn + {digest},
        jobs := s.jobs[digest := Job(request, SortByHost(s.rows), built.value.routes, Drafted)])
  }

  predicate IsExpired(job: Job, clock: Time) {
    job.status.Parked? && job.status.expiresAt < clock
  }

  /** The end of PreviewImport: prune some expired entries, then park the new one. */
  function DoPark(s: State, digest: string, pruned: set<string>): State {
    if digest in s.jobs && s.jobs[digest].status.Drafted?
       && (forall d :: d in pruned ==> d in s.jobs && IsExpired(s.jobs[d], s.clock)) then
      s.(jobs := (s.jobs - pruned)[digest := s.jobs[digest].(status := Parked(s.clock + TEN_MINUTES))],
         ledger := s.ledger[digest := s.clock],
         used := s.used - {digest})
    else s
  }

  predicate IsParked(s: State, digest: string) {
    digest in s.jobs && s.jobs[digest].status.Parked?
  }

  /** The lookup that starts ApplyImport: the entry leaves the map whether or not it is still good. */
  function DoTake(s: State, digest: string): State {
    var asked := s.(used := s.used + {digest});
    if IsParked(s, digest) then
      asked.(jobs := s.jobs[digest := s.jobs[digest].(status := Taken(s.jobs[digest].status.expiresAt))])
    else asked
  }

  /** The look at the clock that follows, outside any lock. */
  function DoCheck(s: State, digest: string): State {
    if digest !in s.jobs || !s.jobs[digest].status.Taken? then s
    else if s.jobs[digest].status.expiresAt < s.clock then s.(jobs := s.jobs - {digest})
    else s.(jobs := s.jobs[digest := s.jobs[digest].(status := Cleared)])
  }

  function DoApply(s: State, digest: string): State {
    if digest in s.jobs && s.jobs[digest].status.Cleared? && s.lock.Free? then
      var job := s.jobs[digest];
      Begin(s.(jobs := s.jobs - {digest}), PlanImport(s.rows, job.base, job.next), StampIds(job.request.entries),
          Some(job))
    else s
  }

  function DoAbandon(s: State, digest: string): State {
    if digest in s.jobs && !s.jobs[digest].status.Parked? then s.(jobs := s.jobs - {digest}) else s
  }

  /** One step; an event that cannot happen now leaves the state as it is. */
  function Next(parseIp: IpParser, zone: string, s: State, e: Event): State {
    match e
    case BeginCreate(input, stamp) => DoCreate(s, stamp.id, Admit(parseIp, input, stamp))
    case BeginUpdate(id, input, enabled, revision, stamp) =>
      DoUpdate(s, id, Admit(parseIp, input, stamp), enabled, revision, stamp.id)
    case BeginDelete(id, revision) => Begin(s, PlanDelete(s.rows, id, revision), {}, None)
    case BeginReconcile => Begin(s, Ok(PlanReconcile(s.rows)), {}, None)
    case BeginImport(digest) => DoApply(s, digest)
    case PushStep(fault) =>
      if s.lock.Held? then DoPush(s, Push(parseIp, zone, s.lock.plan.next, fault)) else s
    case PersistStep(fault) =>
      if s.lock.Held? then DoPersist(s, Persist(s.rows, s.lock.plan.change, s.clock, fault)) else s
    case RollbackStep(fault) =>
      if s.lock.Held? then DoRollback(s, Push(parseIp, zone, s.lock.plan.current, fault)) else s
    case PreviewRead(digest, request) =>
      DoPreview(s, digest, request, Build(parseIp, SortByHost(s.rows), request.entries, request.mode))
    case PreviewPark(digest, pruned) => DoPark(s, digest, pruned)
    case TakeImport(digest) => DoTake(s, digest)
    case CheckExpiry(digest) => DoCheck(s, digest)
    case Abandon(digest) => DoAbandon(s, digest)
    case Tick(elapsed) => s.(clock := s.clock + elapsed)
    case Crash => s.(jobs := map[], lock := Free, ledger := map[], used := {})
    case ProxyReset(config) => s.(live := config)
  }

  /** A run: the states it goes through and the events between them. */
  datatype Run = Run(states: seq<State>, events: seq<Event>)

  predicate StepsAt(parseIp: IpParser, zone: string, run: Run, i: nat) {
    && |run.states| == |run.events| + 1 && i < |run.events|
    && run.states[i + 1] == Next(parseIp, zone, run.states[i], run.events[i])
  }

  ghost predicate IsRun(parseIp: IpParser, zone: string, run: Run) {
    && |run.states| == |run.events| + 1
    && forall i {:trigger StepsAt(parseIp, zone, run, i)} :: 0 <= i < |run.events| ==> StepsAt(parseIp, zone, run, i)
  }

  /** Every schedule of events can be followed from every state. */
  lemma {:induction false} EveryScheduleRuns(parseIp: IpParser, zone: string, s: State, events: seq<Event>)
    returns (run: Run)
    ensures IsRun(parseIp, zone, run) && run.states[0] == s && run.events == events
  {
    hide Next;
    if events == [] {
      run := Run([s], []);
    } else {
      var n := |events| - 1;
      var front := EveryScheduleRuns(parseIp, zone, s, events[..n]);
      run := Run(front.states + [Next(parseIp, zone, front.states[n], events[n])], events);
      forall i | 0 <= i < |events| ensures StepsAt(parseIp, zone, run, i) {
        if i < n {
          assert StepsAt(parseIp, zone, front, i) && events[..n][i] == events[i];
        }
      }
    }
  }

  /** A new installation: an empty table in front of whatever the proxy was started with. */
  function Init(live: Config, clock: Time): State {
    State([], live, clock, map[], Free, {}, {}, {}, map[], {})
  }

  // ----- The invariant -----

  function PastIds(past: set<Route>): set<string> {
    set row | row in past :: row.id
  }

  /** One id and revision never name two rows, an id keeps its creation time, and no stored row is
      behind its own past. */
  ghost predicate History(rows: seq<Route>, past: set<Route>) {
    && (forall row :: row in rows ==> row in past)
    && (forall a, b :: a in past && b in past && a.id == b.id && a.revision == b.revision ==> a == b)
    && (forall a, b :: a in past && b in past && a.id == b.id ==> a.createdAt == b.createdAt)
    && (forall row, earlier ::
          row in rows && earlier in past && row.id == earlier.id ==> earlier.revision <= row.revision)
  }

  /** A stored row was its id's first, or another stored row came one revision before it. */
  ghost predicate HasOrigin(past: set<Route>, row: Route) {
    row.revision == 1 || exists before :: before in past && IsNextRevision(before, row)
  }

  ghost predicate NoGaps(past: set<Route>) {
    forall row {:trigger HasOrigin(past, row)} :: row in past ==> HasOrigin(past, row)
  }

  function JobIds(job: Job): set<string> {
    StampIds(job.request.entries)
  }

  /** A job still is what its preview built, on ids that were never stored. */
  ghost predicate JobFits(parseIp: IpParser, s: State, job: Job) {
    && IsPreviewed(parseIp, job)
    && JobIds(job) <= s.issued
    && JobIds(job) !! PastIds(s.past)
    && (s.lock.Held? ==> JobIds(job) !! s.lock.reserved)
  }

  ghost predicate IsPreviewed(parseIp: IpParser, job: Job) {
    var built := Build(parseIp, job.base, job.request.entries, job.request.mode);
    && built.Ok? && built.value.routes == job.next
    && IsRoutesTable(parseIp, job.base)
    && FreshEntries(job.request.entries, Ids(job.base))
    && (job.request.mode == MERGE || job.request.mode == REPLACE)
  }

  ghost predicate Apart(a: Job, b: Job) {
    JobIds(a) !! JobIds(b)
  }

  ghost predicate JobsFit(parseIp: IpParser, s: State) {
    && s.jobs.Keys <= s.drawn
    && (forall d {:trigger JobFits(parseIp, s, s.jobs[d])} :: d in s.jobs ==> JobFits(parseIp, s, s.jobs[d]))
    && (forall c, d {:trigger Apart(s.jobs[c], s.jobs[d])} ::
          c in s.jobs && d in s.jobs && c != d ==> Apart(s.jobs[c], s.jobs[d]))
  }

  /** Until it persists, the plan of the holder is sound for the table as it stands, and the ids it
      may bring in were never stored. */
  ghost predicate LockFits(parseIp: IpParser, s: State) {
    s.lock.Held? ==>
      && DistinctHosts(s.lock.plan.current) && DistinctHosts(s.lock.plan.next)
      && s.lock.reserved <= s.issued
      && (!s.lock.phase.RollingBack? ==>
            && IsSound(parseIp, s.rows, s.lock.reserved, s.lock.plan)
            && s.lock.reserved !! PastIds(s.past))
      && (s.lock.job.Some? ==>
            && IsPreviewed(parseIp, s.lock.job.value)
            && s.lock.plan == Plan(s.lock.job.value.base, s.lock.job.value.next, ReplaceAll(s.lock.job.value.next)))
      && (s.lock.job.None? ==> !s.lock.plan.change.ReplaceAll?)
  }

  ghost predicate Invariant(parseIp: IpParser, s: State) {
    && IsRoutesTable(parseIp, s.rows)
    && History(s.rows, s.past)
    && NoGaps(s.past)
    && PastIds(s.past) <= s.issued
    && JobsFit(parseIp, s)
    && LockFits(parseIp, s)
  }

  // ----- Every step keeps the invariant -----

  lemma AdvancedIds(rows: seq<Route>, past: set<Route>, reserved: set<string>, after: seq<Route>)
    requires forall row :: row in rows ==> row in past
    requires forall row :: row in after ==> Succeeds(rows, reserved, row)
    ensures PastIds(past + set row | row in after) <= PastIds(past) + reserved
  {
    forall row | row in after ensures row.id in PastIds(past) + reserved {
      assert Succeeds(rows, reserved, row);
    }
  }

  lemma GapsStayClosed(rows: seq<Route>, past: set<Route>, reserved: set<string>, after: seq<Route>)
    requires NoGaps(past) && forall row :: row in rows ==> row in past
    requires forall row :: row in after ==> Succeeds(rows, reserved, row)
    ensures NoGaps(past + set row | row in after)
  {
    var past' := past + set row | row in after;
    forall row | row in past' ensures HasOrigin(past', row) {
      if row in past {
        assert HasOrigin(past, row);
      } else {
        assert Succeeds(rows, reserved, row);
      }
    }
  }

  /** The heart of "a revision names its content": persisting rows that succeed the stored ones, on
      reserved ids that were never stored, keeps the history coherent. */
  lemma HistoryAdvances(rows: seq<Route>, past: set<Route>, reserved: set<string>, after: seq<Route>)
    requires History(rows, past) && IsTable(rows) && IsTable(after)
    requires reserved !! PastIds(past)
    requires forall row :: row in after ==> Succeeds(rows, reserved, row)
    ensures History(after, past + set row | row in after)
  {
    var past' := past + set row | row in after;
    forall a, b | a in past' && b in past' && a.id == b.id
      ensures a.createdAt == b.createdAt && (a.revision == b.revision ==> a == b)
    {
      if a in after && b in after {
        DistinctRows(after, a, b);
      } else if a in after {
        SucceedsPast(rows, past, reserved, a, b);
      } else if b in after {
        SucceedsPast(rows, past, reserved, b, a);
      }
    }
    forall row, earlier | row in after && earlier in past' && row.id == earlier.id
      ensures earlier.revision <= row.revision
    {
      if earlier in after {
        DistinctRows(after, row, earlier);
      } else {
        SucceedsPast(rows, past, reserved, row, earlier);
      }
    }
  }

  lemma SucceedsPast(rows: seq<Route>, past: set<Route>, reserved: set<string>, row: Route, earlier: Route)
    requires History(rows, past) && reserved !! PastIds(past)
    requires Succeeds(rows, reserved, row) && earlier in past && row.id == earlier.id
    ensures earlier.revision <= row.revision && earlier.createdAt == row.createdAt
    ensures earlier.revision == row.revision ==> earlier == row
  {
    assert earlier.id in PastIds(past);
    if row !in rows {
      var stored :| stored in rows && IsNextRevision(stored, row);
      assert earlier.revision <= stored.revision;
    }
  }

  lemma JobsAfter(parseIp: IpParser, s: State, s': State)
    requires JobsFit(parseIp, s) && s.drawn <= s'.drawn && s.issued <= s'.issued
    requires forall d :: d in s'.jobs ==> d in s.jobs && s'.jobs[d].(status := Drafted) == s.jobs[d].(status := Drafted)
    requires forall d :: d in s'.jobs ==> JobIds(s'.jobs[d]) !! PastIds(s'.past)
    requires s'.lock.Held? ==> forall d :: d in s'.jobs ==> JobIds(s'.jobs[d]) !! s'.lock.reserved
    ensures JobsFit(parseIp, s')
  {
    forall d | d in s'.jobs ensures JobFits(parseIp, s', s'.jobs[d]) {
      assert JobFits(parseIp, s, s.jobs[d]);
    }
    forall c, d | c in s'.jobs && d in s'.jobs && c != d ensures Apart(s'.jobs[c], s'.jobs[d]) {
      assert Apart(s.jobs[c], s.jobs[d]);
    }
  }

  lemma PersistKeeps(parseIp: IpParser, s: State, fault: SqlFault)
    requires Invariant(parseIp, s) && s.lock.Held?
    ensures Invariant(parseIp, DoPersist(s, Persist(s.rows, s.lock.plan.change, s.clock, fault)))
  {
    if s.lock.phase.Pushed? {
      var s' := DoPersist(s, Persist(s.rows, s.lock.plan.change, s.clock, fault));
      var reserved := s.lock.reserved;
      PersistSucceeds(parseIp, s.rows, reserved, s.lock.plan, s.clock, fault);
      HistoryAdvances(s.rows, s.past, reserved, s'.rows);
      AdvancedIds(s.rows, s.past, reserved, s'.rows);
      GapsStayClosed(s.rows, s.past, reserved, s'.rows);
      forall d | d in s'.jobs ensures JobIds(s'.jobs[d]) !! PastIds(s'.past) && JobIds(s'.jobs[d]) !! reserved {
        assert JobFits(parseIp, s, s.jobs[d]);
      }
      JobsAfter(parseIp, s, s');
    }
  }

  lemma PersistSucceeds(parseIp: IpParser, rows: seq<Route>, reserved: set<string>, plan: Plan, now: Time,
                        fault: SqlFault)
    requires IsRoutesTable(parseIp, rows) && IsSound(parseIp, rows, reserved, plan)
    ensures var after := Persist(rows, plan.change, now, fault).rows;
            IsRoutesTable(parseIp, after) && forall row :: row in after ==> Succeeds(rows, reserved, row)
  {
    assert ChangeFits(parseIp, rows, reserved, plan, now);
  }

  /** Taking the lock with a sound plan on never-stored ids keeps the invariant. */
  lemma BeginKeeps(parseIp: IpParser, s: State, plan: Result<Plan, Error>, reserved: set<string>, job: Option<Job>)
    requires Invariant(parseIp, s)
    requires reserved <= s.issued && reserved !! PastIds(s.past)
    requires forall d :: d in s.jobs ==> JobIds(s.jobs[d]) !! reserved
    requires plan.Ok? && s.lock.Free? ==> IsSound(parseIp, s.rows, reserved, plan.value)
    requires plan.Ok? ==>
               if job.Some?
               then IsPreviewed(parseIp, job.value)
                   && plan.value == Plan(job.value.base, job.value.next, ReplaceAll(job.value.next))
               else !plan.value.change.ReplaceAll?
    ensures Invariant(parseIp, Begin(s, plan, reserved, job))
  {
    var s' := Begin(s, plan, reserved, job);
    forall d | d in s'.jobs ensures JobIds(s'.jobs[d]) !! PastIds(s'.past) {
      assert JobFits(parseIp, s, s.jobs[d]);
    }
    if s' != s {
      JobsAfter(parseIp, s, s');
    }
  }

  lemma DrawKeeps(parseIp: IpParser, s: State, ids: set<string>)
    requires Invariant(parseIp, s)
    ensures Invariant(parseIp, Draw(s, ids))
  {
    var s' := Draw(s, ids);
    forall d | d in s'.jobs ensures JobIds(s'.jobs[d]) !! PastIds(s'.past)
      ensures s'.lock.Held? ==> JobIds(s'.jobs[d]) !! s'.lock.reserved
    {
      assert JobFits(parseIp, s, s.jobs[d]);
    }
    JobsAfter(parseIp, s, s');
  }

  lemma CreateKeeps(parseIp: IpParser, s: State, input: RouteInput, stamp: Stamp)
    requires Invariant(parseIp, s)
    ensures Invariant(parseIp, DoCreate(s, stamp.id, Admit(parseIp, input, stamp)))
  {
    var admitted := Admit(parseIp, input, stamp);
    if stamp.id !in s.issued && admitted.Ok? {
      AdmittedIsRow(parseIp, input, stamp);
      AdmittedId(parseIp, input, stamp);
      FreshCreateKeeps(parseIp, s, admitted.value);
    }
  }

  lemma AdmittedId(parseIp: IpParser, input: RouteInput, stamp: Stamp)
    requires Admit(parseIp, input, stamp).Ok?
    ensures Admit(parseIp, input, stamp).value.id == stamp.id && Admit(parseIp, input, stamp).value.revision == 1
  {
  }

  lemma FreshCreateKeeps(parseIp: IpParser, s: State, route: Route)
    requires Invariant(parseIp, s) && IsRow(parseIp, route) && route.id !in s.issued && route.revision == 1
    ensures Invariant(parseIp, Begin(Draw(s, {route.id}), PlanCreate(s.rows, route), {route.id}, None))
  {
    DrawKeeps(parseIp, s, {route.id});
    var drawn := Draw(s, {route.id});
    forall d | d in drawn.jobs ensures JobIds(drawn.jobs[d]) !! {route.id} {
      assert JobFits(parseIp, s, s.jobs[d]);
    }
    assert route.id !in Ids(s.rows) by {
      assert forall row :: row in s.rows ==> row.id in PastIds(s.past);
    }
    if PlanCreate(s.rows, route).Ok? {
      CreateIsSound(parseIp, s.rows, route);
    }
    BeginKeeps(parseIp, drawn, PlanCreate(s.rows, route), {route.id}, None);
  }

  lemma UpdateKeeps(parseIp: IpParser, s: State, id: string, input: RouteInput, enabled: bool, revision: int,
                    stamp: Stamp)
    requires Invariant(parseIp, s)
    ensures Invariant(parseIp, DoUpdate(s, id, Admit(parseIp, input, stamp), enabled, revision, stamp.id))
  {
    var admitted := Admit(parseIp, input, stamp);
    if admitted.Ok? {
      AdmittedIsRow(parseIp, input, stamp);
      DrawKeeps(parseIp, s, {stamp.id});
      AdmittedUpdateKeeps(parseIp, Draw(s, {stamp.id}), id, admitted.value, enabled, revision);
    }
  }

  lemma AdmittedUpdateKeeps(parseIp: IpParser, s: State, id: string, admitted: Route, enabled: bool, revision: int)
    requires Invariant(parseIp, s) && IsRow(parseIp, admitted)
    ensures Invariant(parseIp, Begin(s, PlanUpdate(s.rows, id, admitted, enabled, revision), {}, None))
  {
    if PlanUpdate(s.rows, id, admitted, enabled, revision).Ok? {
      UpdateIsSound(parseIp, s.rows, id, admitted, enabled, revision);
    }
    BeginKeeps(parseIp, s, PlanUpdate(s.rows, id, admitted, enabled, revision), {}, None);
  }

  lemma DeleteKeeps(parseIp: IpParser, s: State, id: string, revision: int)
    requires Invariant(parseIp, s)
    ensures Invariant(parseIp, Begin(s, PlanDelete(s.rows, id, revision), {}, None))
  {
    if PlanDelete(s.rows, id, revision).Ok? {
      DeleteIsSound(parseIp, s.rows, id, revision);
    }
    BeginKeeps(parseIp, s, PlanDelete(s.rows, id, revision), {}, None);
  }

  lemma ReconcileKeeps(parseIp: IpParser, s: State)
    requires Invariant(parseIp, s)
    ensures Invariant(parseIp, Begin(s, Ok(PlanReconcile(s.rows)), {}, None))
  {
    ReconcileIsSound(parseIp, s.rows);
    BeginKeeps(parseIp, s, Ok(PlanReconcile(s.rows)), {}, None);
  }

  /** Dropping some jobs, or moving them along, keeps the invariant. */
  lemma JobsMoved(parseIp: IpParser, s: State, s': State)
    requires Invariant(parseIp, s)
    requires s'.rows == s.rows && s'.past == s.past && s'.issued == s.issued && s'.drawn == s.drawn
    requires s'.lock == s.lock || s'.lock == Free
    requires forall d :: d in s'.jobs ==> d in s.jobs && s'.jobs[d].(status := Drafted) == s.jobs[d].(status := Drafted)
    ensures Invariant(parseIp, s')
  {
    forall d | d in s'.jobs ensures JobIds(s'.jobs[d]) !! PastIds(s'.past)
      ensures s'.lock.Held? ==> JobIds(s'.jobs[d]) !! s'.lock.reserved
    {
      assert JobFits(parseIp, s, s.jobs[d]);
    }
    JobsAfter(parseIp, s, s');
  }

  lemma ApplyKeeps(parseIp: IpParser, s: State, digest: string)
    requires Invariant(parseIp, s)
    ensures Invariant(parseIp, DoApply(s, digest))
  {
    if digest in s.jobs && s.jobs[digest].status.Cleared? && s.lock.Free? {
      var job := s.jobs[digest];
      var without := s.(jobs := s.jobs - {digest});
      assert JobFits(parseIp, s, s.jobs[digest]);
      JobsMoved(parseIp, s, without);
      forall d | d in without.jobs ensures JobIds(without.jobs[d]) !! JobIds(job) {
        assert Apart(s.jobs[d], s.jobs[digest]);
      }
      var plan := PlanImport(s.rows, job.base, job.next);
      if plan.Ok? {
        ImportIsSound(parseIp, s.rows, job.base, job.request.entries, job.request.mode);
      }
      BeginKeeps(parseIp, without, plan, JobIds(job), Some(job));
    }
  }

  lemma PreviewKeeps(parseIp: IpParser, s: State, digest: string, request: Request)
    requires Invariant(parseIp, s)
    ensures Invariant(parseIp,
              DoPreview(s, digest, request, Build(parseIp, SortByHost(s.rows), request.entries, request.mode)))
  {
    var s' := DoPreview(s, digest, request, Build(parseIp, SortByHost(s.rows), request.entries, request.mode));
    if s' != s {
      ListingIsTable(parseIp, s);
      var job := s'.jobs[digest];
      FreshForListing(s, request.entries);
      assert IsPreviewed(parseIp, job);
      NewJobKeeps(parseIp, s, digest, job);
    }
  }

  lemma ListingIsTable(parseIp: IpParser, s: State)
    requires IsRoutesTable(parseIp, s.rows)
    ensures IsRoutesTable(parseIp, SortByHost(s.rows))
  {
    SortedTable(s.rows);
    SortCorrect(s.rows);
  }

  lemma FreshForListing(s: State, entries: seq<Entry>)
    requires IsTable(s.rows) && History(s.rows, s.past) && PastIds(s.past) <= s.issued
               && FreshEntries(entries, s.issued)
    ensures FreshEntries(entries, Ids(SortByHost(s.rows)))
    ensures StampIds(entries) !! s.issued
  {
    SortedTable(s.rows);
    assert forall row :: row in s.rows ==> row.id in PastIds(s.past);
    forall id | id in StampIds(entries) ensures id !in s.issued {
      var entry :| entry in entries && entry.stamp.id == id;
      var k :| 0 <= k < |entries| && entries[k] == entry;
    }
  }

  lemma NewJobKeeps(parseIp: IpParser, s: State, digest: string, job: Job)
    requires Invariant(parseIp, s) && digest !in s.drawn
    requires IsPreviewed(parseIp, job) && JobIds(job) !! s.issued
    ensures Invariant(parseIp, Draw(s, JobIds(job)).(drawn := s.drawn + {digest}, jobs := s.jobs[digest := job]))
  {
    hide IsPreviewed, IsRoutesTable, History, StampIds;
    var s' := Draw(s, JobIds(job)).(drawn := s.drawn + {digest}, jobs := s.jobs[digest := job]);
    forall d | d in s.jobs ensures JobFits(parseIp, s', s.jobs[d]) && JobIds(s.jobs[d]) !! JobIds(job) {
      assert JobFits(parseIp, s, s.jobs[d]);
    }
    assert JobFits(parseIp, s', job);
    forall d | d in s'.jobs ensures JobFits(parseIp, s', s'.jobs[d]) {
      assert d == digest || d in s.jobs;
    }
    forall c, d | c in s'.jobs && d in s'.jobs && c != d ensures Apart(s'.jobs[c], s'.jobs[d]) {
      if c != digest && d != digest {
        assert Apart(s.jobs[c], s.jobs[d]);
      }
    }
    assert JobsFit(parseIp, s');
    assert LockFits(parseIp, s');
  }

  /** Pushes change nothing but the live configuration and the phase. */
  lemma PhaseKeeps(parseIp: IpParser, s: State, s': State)
    requires Invariant(parseIp, s) && s.lock.Held?
    requires s' == s.(live := s'.live, lock := s'.lock)
    requires s'.lock == Free || (s.lock.phase.Planned? && s'.lock == s.lock.(phase := Pushed))
    ensures Invariant(parseIp, s')
  {
    forall d | d in s'.jobs ensures JobIds(s'.jobs[d]) !! PastIds(s'.past)
      ensures s'.lock.Held? ==> JobIds(s'.jobs[d]) !! s'.lock.reserved
    {
      assert JobFits(parseIp, s, s.jobs[d]);
    }
    JobsAfter(parseIp, s, s');
  }

  lemma PushKeeps(parseIp: IpParser, s: State, pushed: Result<Config, Error>)
    requires Invariant(parseIp, s) && s.lock.Held?
    ensures Invariant(parseIp, DoPush(s, pushed))
  {
    if s.lock.phase.Planned? {
      PhaseKeeps(parseIp, s, DoPush(s, pushed));
    }
  }

  lemma RollbackKeeps(parseIp: IpParser, s: State, restored: Result<Config, Error>)
    requires Invariant(parseIp, s) && s.lock.Held?
    ensures Invariant(parseIp, DoRollback(s, restored))
  {
    if s.lock.phase.RollingBack? {
      PhaseKeeps(parseIp, s, DoRollback(s, restored));
    }
  }

  /** The steps that take the lock. */
  lemma BeginStepKeeps(parseIp: IpParser, zone: string, s: State, e: Event)
    requires Invariant(parseIp, s)
    requires e.BeginCreate? || e.BeginUpdate? || e.BeginDelete? || e.BeginReconcile? || e.BeginImport?
    ensures Invariant(parseIp, Next(parseIp, zone, s, e))
  {
    if e.BeginCreate? {
      CreateKeeps(parseIp, s, e.input, e.stamp);
    } else if e.BeginUpdate? {
      UpdateKeeps(parseIp, s, e.id, e.update, e.enabled, e.revision, e.draw);
    } else if e.BeginDelete? {
      DeleteKeeps(parseIp, s, e.target, e.expected);
    } else if e.BeginReconcile? {
      ReconcileKeeps(parseIp, s);
    } else {
      ApplyKeeps(parseIp, s, e.taken);
    }
  }

  /** The steps of the holder of the lock. */
  lemma HolderStepKeeps(parseIp: IpParser, zone: string, s: State, e: Event, s': State)
    requires Invariant(parseIp, s) && s' == Next(parseIp, zone, s, e)
    requires e.PushStep? || e.PersistStep? || e.RollbackStep?
    ensures Invariant(parseIp, s')
  {
    hide Invariant, Push, Persist, DoPush, DoPersist, DoRollback;
    if s.lock.Held? {
      if e.PersistStep? {
        PersistKeeps(parseIp, s, e.sqlFault);
      } else if e.PushStep? {
        PushKeeps(parseIp, s, Push(parseIp, zone, s.lock.plan.next, e.pushFault));
      } else {
        RollbackKeeps(parseIp, s, Push(parseIp, zone, s.lock.plan.current, e.rollbackFault));
      }
    }
  }

  lemma ParkKeeps(parseIp: IpParser, s: State, s': State, digest: string, pruned: set<string>)
    requires Invariant(parseIp, s) && s' == DoPark(s, digest, pruned)
    ensures Invariant(parseIp, s')
  {
    JobsMoved(parseIp, s, s');
  }

  lemma TakeKeeps(parseIp: IpParser, s: State, s': State, digest: string)
    requires Invariant(parseIp, s) && s' == DoTake(s, digest)
    ensures Invariant(parseIp, s')
  {
    JobsMoved(parseIp, s, s');
  }

  lemma CheckKeeps(parseIp: IpParser, s: State, s': State, digest: string)
    requires Invariant(parseIp, s) && s' == DoCheck(s, digest)
    ensures Invariant(parseIp, s')
  {
    JobsMoved(parseIp, s, s');
  }

  lemma AbandonKeeps(parseIp: IpParser, s: State, s': State, digest: string)
    requires Invariant(parseIp, s) && s' == DoAbandon(s, digest)
    ensures Invariant(parseIp, s')
  {
    JobsMoved(parseIp, s, s');
  }

  /** The steps of previews and applies outside the lock. */
  lemma ImportStepKeeps(parseIp: IpParser, zone: string, s: State, e: Event, s': State)
    requires Invariant(parseIp, s) && s' == Next(parseIp, zone, s, e)
    requires e.PreviewPark? || e.TakeImport? || e.CheckExpiry? || e.Abandon?
    ensures Invariant(parseIp, s')
  {
    hide Invariant, Build, Push, Persist, Admit, DoPark, DoTake, DoCheck, DoAbandon;
    if e.PreviewPark? {
      ParkKeeps(parseIp, s, s', e.parked, e.pruned);
    } else if e.TakeImport? {
      TakeKeeps(parseIp, s, s', e.asked);
    } else if e.CheckExpiry? {
      CheckKeeps(parseIp, s, s', e.checked);
    } else {
      AbandonKeeps(parseIp, s, s', e.dropped);
    }
  }

  lemma PreviewStepKeeps(parseIp: IpParser, zone: string, s: State, e: Event, s': State)
    requires Invariant(parseIp, s) && s' == Next(parseIp, zone, s, e) && e.PreviewRead?
    ensures Invariant(parseIp, s')
  {
    hide Invariant, Build, DoPreview;
    PreviewKeeps(parseIp, s, e.digest, e.request);
  }

  /** Time passing, a crash of the controller, and the proxy coming up with some configuration. */
  lemma OutsideStepKeeps(parseIp: IpParser, zone: string, s: State, e: Event, s': State)
    requires Invariant(parseIp, s) && s' == Next(parseIp, zone, s, e)
    requires e.Tick? || e.Crash? || e.ProxyReset?
    ensures Invariant(parseIp, s')
  {
    hide Invariant, Build, Push, Persist, Admit;
    JobsMoved(parseIp, s, s');
  }

  lemma StepKeeps(parseIp: IpParser, zone: string, s: State, e: Event)
    requires Invariant(parseIp, s)
    ensures Invariant(parseIp, Next(parseIp, zone, s, e))
  {
    hide *;
    if e.BeginCreate? || e.BeginUpdate? || e.BeginDelete? || e.BeginReconcile? || e.BeginImport? {
      BeginStepKeeps(parseIp, zone, s, e);
    } else if e.PushStep? || e.PersistStep? || e.RollbackStep? {
      HolderStepKeeps(parseIp, zone, s, e, Next(parseIp, zone, s, e));
    } else if e.PreviewPark? || e.TakeImport? || e.CheckExpiry? || e.Abandon? {
      ImportStepKeeps(parseIp, zone, s, e, Next(parseIp, zone, s, e));
    } else if e.PreviewRead? {
      PreviewStepKeeps(parseIp, zone, s, e, Next(parseIp, zone, s, e));
    } else {
      OutsideStepKeeps(parseIp, zone, s, e, Next(parseIp, zone, s, e));
    }
  }

  /** Every reachable state keeps the invariant, whatever faults, crashes and interleavings led there. */
  lemma {:induction false} RunKeeps(parseIp: IpParser, zone: string, run: Run, i: nat)
    requires IsRun(parseIp, zone, run) && i < |run.states| && Invariant(parseIp, run.states[0])
    ensures Invariant(parseIp, run.states[i])
  {
    hide Invariant, Next;
    if i > 0 {
      RunKeeps(parseIp, zone, run, i - 1);
      assert StepsAt(parseIp, zone, run, i - 1);
      StepKeeps(parseIp, zone, run.states[i - 1], run.events[i - 1]);
    }
  }

  lemma InitHolds(parseIp: IpParser, live: Config, clock: Time)
    ensures Invariant(parseIp, Init(live, clock))
  {
  }
}
