/** The pending-import map against a ledger that forgets nothing: which digests an apply may use. */
module Ledger {
  import opened Results
  import opened Domain
  import opened Import
  import opened Listing
  import opened Store
  import opened Transactions
  import opened Protocol
  import opened ProtocolRuns
  import opened Caddy

  /** The digest was parked no more than ten minutes ago and no apply has asked for it since. */
  predicate IsOpen(s: State, digest: string) {
    digest in s.ledger && digest !in s.used && s.clock <= s.ledger[digest] + TEN_MINUTES
  }

  /** The map holds every open digest, and only what the ledger says it holds. */
  ghost predicate MapMatchesLedger(s: State) {
    && s.ledger.Keys <= s.drawn && s.jobs.Keys <= s.drawn
    && (forall d {:trigger s.jobs[d]} :: d in s.jobs && s.jobs[d].status.Parked? ==>
          d in s.ledger && d !in s.used && s.jobs[d].status.expiresAt == s.ledger[d] + TEN_MINUTES)
    && (forall d {:trigger IsOpen(s, d)} :: IsOpen(s, d) ==> d in s.jobs && s.jobs[d].status.Parked?)
  }

  lemma ParkMatches(s: State, digest: string, pruned: set<string>)
    requires MapMatchesLedger(s)
    ensures MapMatchesLedger(DoPark(s, digest, pruned))
  {
    var s' := DoPark(s, digest, pruned);
    forall d | IsOpen(s', d) ensures d in s'.jobs && s'.jobs[d].status.Parked? {
      assert d == digest || IsOpen(s, d);
    }
  }

  lemma TakeMatches(s: State, digest: string)
    requires MapMatchesLedger(s)
    ensures MapMatchesLedger(DoTake(s, digest))
  {
    var s' := DoTake(s, digest);
    forall d | IsOpen(s', d) ensures d in s'.jobs && s'.jobs[d].status.Parked? {
      assert IsOpen(s, d);
    }
  }

  lemma CheckMatches(s: State, digest: string)
    requires MapMatchesLedger(s)
    ensures MapMatchesLedger(DoCheck(s, digest))
  {
    var s' := DoCheck(s, digest);
    forall d | IsOpen(s', d) ensures d in s'.jobs && s'.jobs[d].status.Parked? {
      assert IsOpen(s, d);
    }
  }

  lemma AbandonMatches(s: State, digest: string)
    requires MapMatchesLedger(s)
    ensures MapMatchesLedger(DoAbandon(s, digest))
  {
    var s' := DoAbandon(s, digest);
    forall d | IsOpen(s', d) ensures d in s'.jobs && s'.jobs[d].status.Parked? {
      assert IsOpen(s, d);
    }
  }

  lemma PreviewMatches(s: State, digest: string, request: Request, built: Result<Built, Error>)
    requires MapMatchesLedger(s)
    ensures MapMatchesLedger(DoPreview(s, digest, request, built))
  {
    hide SortByHost, StampIds, FreshEntries;
    var s' := DoPreview(s, digest, request, built);
    forall d | IsOpen(s', d) ensures d in s'.jobs && s'.jobs[d].status.Parked? {
      assert IsOpen(s, d);
    }
  }

  lemma ApplyMatches(s: State, digest: string)
    requires MapMatchesLedger(s)
    ensures MapMatchesLedger(DoApply(s, digest))
  {
    hide PlanImport, StampIds;
    var s' := DoApply(s, digest);
    forall d | IsOpen(s', d) ensures d in s'.jobs && s'.jobs[d].status.Parked? {
      assert IsOpen(s, d);
    }
  }

  /** Steps that leave the imports alone while time does not go back. */
  lemma OtherMatches(s: State, s': State)
    requires MapMatchesLedger(s)
    requires s'.jobs == s.jobs && s'.ledger == s.ledger && s'.used == s.used && s'.drawn == s.drawn
               && s'.clock >= s.clock
    ensures MapMatchesLedger(s')
  {
    forall d | IsOpen(s', d) ensures d in s'.jobs && s'.jobs[d].status.Parked? {
      assert IsOpen(s, d);
    }
  }

  lemma LeavesImports(parseIp: IpParser, zone: string, s: State, e: Event, s': State)
    requires s' == Next(parseIp, zone, s, e)
    requires e.BeginCreate? || e.BeginUpdate? || e.BeginDelete? || e.BeginReconcile? || e.PushStep? || e.PersistStep?
             || e.RollbackStep? || e.Tick? || e.ProxyReset?
    ensures s'.jobs == s.jobs && s'.ledger == s.ledger && s'.used == s.used && s'.drawn == s.drawn
              && s'.clock >= s.clock
  {
    hide Admit, PlanCreate, PlanUpdate, PlanDelete, PlanReconcile, Push, Persist, Build;
  }

  lemma StepMatches(parseIp: IpParser, zone: string, s: State, e: Event, s': State)
    requires MapMatchesLedger(s) && s' == Next(parseIp, zone, s, e)
    ensures MapMatchesLedger(s')
  {
    hide MapMatchesLedger, DoPark, DoTake, DoCheck, DoAbandon, DoPreview, DoApply, Build, Push, Persist, Admit;
    match e {
      case PreviewPark(digest, pruned) => ParkMatches(s, digest, pruned);
      case TakeImport(digest) => TakeMatches(s, digest);
      case CheckExpiry(digest) => CheckMatches(s, digest);
      case Abandon(digest) => AbandonMatches(s, digest);
      case PreviewRead(digest, request) =>
        PreviewMatches(s, digest, request, Build(parseIp, SortByHost(s.rows), request.entries, request.mode));
      case BeginImport(digest) => ApplyMatches(s, digest);
      case Crash => CrashMatches(parseIp, zone, s);
      case _ =>
        LeavesImports(parseIp, zone, s, e, s');
        OtherMatches(s, s');
    }
  }

  lemma CrashMatches(parseIp: IpParser, zone: string, s: State)
    requires MapMatchesLedger(s)
    ensures MapMatchesLedger(Next(parseIp, zone, s, Crash))
  {
    hide Admit, Build, Push, Persist, DoPark, DoTake, DoCheck, DoAbandon, DoPreview, DoApply, DoCreate, DoUpdate;
    hide DoPush, DoPersist, DoRollback, Begin, PlanDelete, PlanReconcile, SortByHost;
  }

  lemma {:induction false} RunMatches(parseIp: IpParser, zone: string, run: Run, i: nat)
    requires IsRun(parseIp, zone, run) && i < |run.states| && MapMatchesLedger(run.states[0])
    ensures MapMatchesLedger(run.states[i])
  {
    hide MapMatchesLedger, Next;
    if i > 0 {
      RunMatches(parseIp, zone, run, i - 1);
      assert StepsAt(parseIp, zone, run, i - 1);
      StepMatches(parseIp, zone, run.states[i - 1], run.events[i - 1], run.states[i]);
    }
  }

  // ----- One apply, from its lookup to its look at the clock -----

  /** Events that have to do with the apply of a digest. */
  predicate Concerns(e: Event, digest: string) {
    e == TakeImport(digest) || e == CheckExpiry(digest) || e == Abandon(digest) || e == Crash
  }

  ghost predicate NothingConcerns(run: Run, i: nat, j: nat, digest: string)
    requires j <= |run.events|
  {
    forall k {:trigger Concerns(run.events[k], digest)} :: i <= k < j ==> !Concerns(run.events[k], digest)
  }

  /** An apply of the digest holds its entry, which is good until `expiresAt`. */
  predicate IsTakenUntil(s: State, digest: string, expiresAt: Time) {
    digest in s.jobs && s.jobs[digest].status == Taken(expiresAt)
  }

  predicate IsCleared(s: State, digest: string) {
    digest in s.jobs && s.jobs[digest].status.Cleared?
  }

  /** No apply of the digest is under way. */
  predicate NoApply(s: State, digest: string) {
    digest in s.jobs ==> s.jobs[digest].status.Drafted? || s.jobs[digest].status.Parked?
  }

  lemma OthersLeave(parseIp: IpParser, zone: string, s: State, e: Event, s': State, digest: string, expiresAt: Time)
    requires s' == Next(parseIp, zone, s, e) && !Concerns(e, digest) && s.jobs.Keys <= s.drawn
    ensures IsTakenUntil(s, digest, expiresAt) ==> IsTakenUntil(s', digest, expiresAt)
    ensures NoApply(s, digest) ==> NoApply(s', digest)
    ensures s.clock <= s'.clock
  {
    hide Build, Push, Persist, Admit, SortByHost, FreshEntries, StampIds;
    hide PlanCreate, PlanUpdate, PlanDelete, PlanImport, PlanReconcile;
  }

  lemma {:induction false} WaitsForClock(parseIp: IpParser, zone: string, run: Run, i: nat, j: nat, digest: string,
                                         expiresAt: Time)
    requires IsRun(parseIp, zone, run) && i <= j < |run.states| && NothingConcerns(run, i, j, digest)
    requires MapMatchesLedger(run.states[0])
    ensures IsTakenUntil(run.states[i], digest, expiresAt) ==> IsTakenUntil(run.states[j], digest, expiresAt)
    ensures NoApply(run.states[i], digest) ==> NoApply(run.states[j], digest)
    ensures run.states[i].clock <= run.states[j].clock
    decreases j
  {
    hide Next, IsTakenUntil, NoApply, Concerns;
    if i < j {
      WaitsForClock(parseIp, zone, run, i, j - 1, digest, expiresAt);
      assert StepsAt(parseIp, zone, run, j - 1) && !Concerns(run.events[j - 1], digest);
      RunMatches(parseIp, zone, run, j - 1);
      OthersLeave(parseIp, zone, run.states[j - 1], run.events[j - 1], run.states[j], digest, expiresAt);
    }
  }

  lemma LookupStep(parseIp: IpParser, zone: string, s: State, s': State, digest: string)
    requires s' == Next(parseIp, zone, s, TakeImport(digest))
    ensures IsParked(s, digest) ==> IsTakenUntil(s', digest, s.jobs[digest].status.expiresAt)
    ensures !IsParked(s, digest) && NoApply(s, digest) ==> NoApply(s', digest)
    ensures s'.clock == s.clock
  {
    hide Build, Push, Persist, Admit;
  }

  lemma ClockStep(parseIp: IpParser, zone: string, s: State, s': State, digest: string, expiresAt: Time)
    requires s' == Next(parseIp, zone, s, CheckExpiry(digest))
    ensures IsTakenUntil(s, digest, expiresAt) ==> (IsCleared(s', digest) <==> s.clock <= expiresAt)
    ensures NoApply(s, digest) ==> !IsCleared(s', digest)
  {
    hide Build, Push, Persist, Admit;
  }

  lemma NewLedger(live: Config, clock: Time)
    ensures MapMatchesLedger(Init(live, clock))
  {
  }

  /** In every run an apply gets past its lookup at `i` and its look at the clock at `j` exactly when
      its digest had been parked no more than ten minutes before that look and no apply had asked for
      it, not even a failed one. What the previews pruned on the way cannot be told from outside.
      (While another apply of the digest is under way, a lookup finds nothing: see AppliedOnce.) */
  lemma LookupFollowsLedger(parseIp: IpParser, zone: string, live: Config, clock: Time, run: Run, i: nat, j: nat,
                            digest: string)
    requires IsRun(parseIp, zone, run) && run.states[0] == Init(live, clock)
    requires i < j < |run.events| && run.events[i] == TakeImport(digest) && run.events[j] == CheckExpiry(digest)
    requires NothingConcerns(run, i + 1, j, digest) && NoApply(run.states[i], digest)
    ensures var s := run.states[i];
            IsCleared(run.states[j + 1], digest)
            <==> digest in s.ledger && digest !in s.used && run.states[j].clock <= s.ledger[digest] + TEN_MINUTES
  {
    hide Next, IsTakenUntil, NoApply, IsCleared, NothingConcerns, MapMatchesLedger;
    NewLedger(live, clock);
    var s := run.states[i];
    RunMatches(parseIp, zone, run, i);
    assert StepsAt(parseIp, zone, run, i) && StepsAt(parseIp, zone, run, j);
    LookupStep(parseIp, zone, s, run.states[i + 1], digest);
    var expiresAt := if IsParked(s, digest) then s.jobs[digest].status.expiresAt else 0;
    WaitsForClock(parseIp, zone, run, i + 1, j, digest, expiresAt);
    ClockStep(parseIp, zone, run.states[j], run.states[j + 1], digest, expiresAt);
    LedgerDecides(s, digest, run.states[j].clock);
  }

  /** An entry is in the map if the ledger leaves its digest open at any later time. */
  lemma LedgerDecides(s: State, digest: string, later: Time)
    requires MapMatchesLedger(s) && s.clock <= later
    ensures IsParked(s, digest) ==>
              digest in s.ledger && digest !in s.used
                  && s.jobs[digest].status.expiresAt == s.ledger[digest] + TEN_MINUTES
    ensures !IsParked(s, digest) ==>
              !(digest in s.ledger && digest !in s.used && later <= s.ledger[digest] + TEN_MINUTES)
  {
    if !IsParked(s, digest) {
      assert !IsOpen(s, digest);
    }
  }

  /** No lookup will find it again: the digest was drawn, and at most an apply still holds it. */
  predicate IsSpent(s: State, digest: string) {
    digest in s.drawn && (digest in s.jobs ==> s.jobs[digest].status.Taken? || s.jobs[digest].status.Cleared?)
  }

  lemma SpentStays(parseIp: IpParser, zone: string, s: State, e: Event, s': State, digest: string)
    requires IsSpent(s, digest) && s' == Next(parseIp, zone, s, e)
    ensures IsSpent(s', digest)
  {
    hide Build, Push, Persist, Admit, SortByHost, FreshEntries, StampIds;
    hide PlanCreate, PlanUpdate, PlanDelete, PlanImport, PlanReconcile;
  }

  /** An import preview serves one apply: once a parked digest has been asked for, no later lookup of
      the run finds it, whatever became of that apply, and not even after a restart. */
  lemma {:induction false} AppliedOnce(parseIp: IpParser, zone: string, run: Run, i: nat, j: nat, digest: string)
    requires IsRun(parseIp, zone, run) && i < j < |run.states|
    requires run.events[i] == TakeImport(digest)
    requires digest in run.states[i].drawn && IsParked(run.states[i], digest)
    ensures IsSpent(run.states[j], digest) && !IsParked(run.states[j], digest)
    decreases j
  {
    hide Next, IsSpent, IsParked;
    assert StepsAt(parseIp, zone, run, j - 1);
    if i + 1 == j {
      TakenIsSpent(parseIp, zone, run.states[i], digest);
    } else {
      AppliedOnce(parseIp, zone, run, i, j - 1, digest);
      SpentStays(parseIp, zone, run.states[j - 1], run.events[j - 1], run.states[j], digest);
    }
    SpentFails(run.states[j], digest);
  }

  lemma SpentFails(s: State, digest: string)
    requires IsSpent(s, digest)
    ensures !IsParked(s, digest)
  {
  }

  lemma TakenIsSpent(parseIp: IpParser, zone: string, s: State, digest: string)
    requires digest in s.drawn && IsParked(s, digest)
    ensures IsSpent(Next(parseIp, zone, s, TakeImport(digest)), digest)
  {
    hide Build, Push, Persist, Admit;
  }
}
