/** The controller service as it is written: methods that list, push, persist and roll back on the
    store and the proxy they hold. Each is proved against the transaction functions. */
module Service {
  import opened Results
  import opened Domain
  import opened Listing
  import opened Store
  import opened Caddy
  import opened Import
  import opened ImportLaws
  import opened Transactions
  import opened Acceptance
  import opened Effects
  import opened Ledger
  import opened Protocol

  datatype PendingImport = PendingImport(baseFingerprint: seq<Route>, routes: seq<Route>, expiresAt: Time)

  datatype PortableConfig = PortableConfig(version: int, zone: string, routes: seq<Portable>)

  datatype ImportPreview = ImportPreview(digest: string, targetZone: string, counts: Counts)

  /** The proxy: its /load endpoint installs a whole configuration or, on error, changes nothing. */
  class Proxy {
    var live: Config

    constructor (live: Config)
      ensures this.live == live
    {
      this.live := live;
    }

    method Load(config: Config, refuses: bool) returns (accepted: bool)
      modifies this
      ensures accepted <==> !refuses
      ensures live == if accepted then config else old(live)
    {
      if !refuses {
        live := config;
      }
      accepted := !refuses;
    }
  }

  /** A mutation from the table and the proxy it found: nothing moves unless its checks pass. */
  function Mutate(parseIp: IpParser, zone: string, rows: seq<Route>, live: Config, planned: Result<Plan, Error>,
                  now: Time, faults: Faults): Outcome
  {
    match planned
    case Err(error) => Outcome(rows, live, Some(error))
    case Ok(plan) => Commit(parseIp, zone, rows, live, plan, now, faults)
  }

  function Listed<T>(listFault: SqlFault, planned: Result<T, Error>): Result<T, Error> {
    if listFault == ReadFault then Err(SqlFailure) else planned
  }

  /** What CreateRoute decides before it touches anything. */
  function CreatePlanned(rows: seq<Route>, admitted: Result<Route, Error>, listFault: SqlFault): Result<Plan, Error> {
    if admitted.Err? then Err(admitted.error) else Listed(listFault, PlanCreate(rows, admitted.value))
  }

  function UpdatePlanned(rows: seq<Route>, id: string, admitted: Result<Route, Error>, enabled: bool, revision: int,
                         listFault: SqlFault): Result<Plan, Error>
  {
    if admitted.Err? then Err(admitted.error)
    else Listed(listFault, PlanUpdate(rows, id, admitted.value, enabled, revision))
  }

  function ApplyPlanned(rows: seq<Route>, pending: Option<PendingImport>, now: Time,
                        listFault: SqlFault): Result<Plan, Error>
  {
    if pending.None? || pending.value.expiresAt < now then Err(ImportMissingOrExpired)
    else Listed(listFault, PlanImport(rows, pending.value.baseFingerprint, pending.value.routes))
  }

  /** The imported routes with the id and time each of their NewRoute calls draws. */
  function Entries(routes: seq<Portable>, stamps: seq<Stamp>): seq<Entry>
    requires |stamps| == |routes|
  {
    seq(|routes|, i requires 0 <= i < |routes| => Entry(routes[i], stamps[i]))
  }

  /** What PreviewImport computes before it parks anything, with its checks in their order. */
  function Previewed(parseIp: IpParser, rows: seq<Route>, config: PortableConfig, stamps: seq<Stamp>, mode: string,
                     listFault: SqlFault, settingsFault: bool): Result<Built, Error>
    requires |stamps| == |config.routes|
  {
    if config.version != 1 then Err(ConfigVersionInvalid)
    else if mode != MERGE && mode != REPLACE then Err(ImportModeInvalid)
    else if ValidateZone(config.zone).Some? then Err(ExportedZone(ValidateZone(config.zone).value))
    else if listFault == ReadFault then Err(SqlFailure)
    else
      var built := Build(parseIp, SortByHost(rows), Entries(config.routes, stamps), mode);
      if built.Ok? && settingsFault then Err(SqlFailure) else built
  }

  function Lookup(pendingImports: map<string, PendingImport>, digest: string): Option<PendingImport> {
    if digest in pendingImports then Some(pendingImports[digest]) else None
  }

  /** Pruning from `start` to `end`, on a clock read again for each entry: it drops every entry that had
      expired when it began, and only entries that have expired when it ends. */
  predicate Prunes(pendingImports: map<string, PendingImport>, start: Time, end: Time, dropped: set<string>) {
    && start <= end
    && (forall d :: d in pendingImports && pendingImports[d].expiresAt < start ==> d in dropped)
    && (forall d :: d in dropped ==> d in pendingImports && pendingImports[d].expiresAt < end)
  }

  /** A pending import is what the preview of this request built. */
  ghost predicate WasPreviewed(parseIp: IpParser, request: Request, pending: PendingImport) {
    IsPreviewed(parseIp, Job(request, pending.baseFingerprint, pending.routes, Parked(pending.expiresAt)))
  }

  function WithHealth(route: Route, health: map<string, HealthStatus>): Route {
    if route.id in health then route.(health := health[route.id]) else route
  }

  // ----- Which calls succeed -----

  lemma CreateDecides(parseIp: IpParser, zone: string, rows: seq<Route>, live: Config, input: RouteInput, stamp: Stamp,
                      listFault: SqlFault, faults: Faults)
    requires IsRoutesTable(parseIp, rows) && stamp.id !in Ids(rows)
    ensures var planned := CreatePlanned(rows, Admit(parseIp, input, stamp), listFault);
            var outcome := Mutate(parseIp, zone, rows, live, planned, 0, faults);
            var free := forall row :: row in rows ==> row.hostname != Requested(input, true).hostname;
            && (outcome.error == None <==>
                  IsAcceptable(parseIp, input) && listFault != ReadFault && free
                  && ValidateZone(zone).None? && faults.push == PushOk && faults.persist != WriteFault)
            && (IsAcceptable(parseIp, input) && listFault != ReadFault && !free ==>
                  outcome == Outcome(rows, live, Some(HostnameConflict)))
            && (!IsAcceptable(parseIp, input) || listFault == ReadFault ==>
                  outcome.rows == rows && outcome.live == live)
  {
    hide IsRoutesTable, IsSound, Commit, Admit, Requested, SortByHost, IsAcceptable, ValidateZone, PlanCreate, Ids;
    AdmitsExactly(parseIp, input, stamp);
    if Admit(parseIp, input, stamp).Ok? {
      var route := Admit(parseIp, input, stamp).value;
      AdmittedFirst(parseIp, input, stamp);
      AdmittedRequest(parseIp, input, stamp, true);
      CreatePlansExactly(rows, route);
      if PlanCreate(rows, route).Ok? {
        CreateIsSound(parseIp, rows, route);
        CommitErrors(parseIp, zone, rows, live, {stamp.id}, PlanCreate(rows, route).value, 0, faults);
        CreateChange(rows, route);
      }
    }
  }

  lemma CreateChange(rows: seq<Route>, route: Route)
    requires PlanCreate(rows, route).Ok?
    ensures PlanCreate(rows, route).value.change == InsertNew(route)
  {
  }

  lemma UpdateDecides(parseIp: IpParser, zone: string, rows: seq<Route>, live: Config, id: string, input: RouteInput,
                      enabled: bool, revision: int, stamp: Stamp, now: Time, listFault: SqlFault, faults: Faults)
    requires IsRoutesTable(parseIp, rows)
    ensures var planned := UpdatePlanned(rows, id, Admit(parseIp, input, stamp), enabled, revision, listFault);
            var outcome := Mutate(parseIp, zone, rows, live, planned, now, faults);
            var readable := IsAcceptable(parseIp, input) && listFault != ReadFault;
            var free := forall row :: row in rows && row.hostname == Requested(input, enabled).hostname ==>
                          row.id == id;
            && (outcome.error == None <==>
                  readable && free && (exists row :: row in rows && row.id == id && row.revision == revision)
                  && ValidateZone(zone).None? && faults.push == PushOk && faults.persist == NoFault)
            && (!readable ==> outcome.rows == rows && outcome.live == live)
            && (readable && !free ==> outcome == Outcome(rows, live, Some(HostnameConflict)))
            && (readable && free && (forall row :: row in rows ==> row.id != id) ==>
                  outcome == Outcome(rows, live, Some(NotFound)))
            && (readable && free && (exists row :: row in rows && row.id == id && row.revision != revision) ==>
                  outcome == Outcome(rows, live, Some(RevisionConflict)))
  {
    hide IsRoutesTable, IsSound, Commit, Admit, Requested, SortByHost, IsAcceptable, ValidateZone, PlanUpdate, IsTable;
    AdmitsExactly(parseIp, input, stamp);
    RoutesTableIsTable(parseIp, rows);
    if Admit(parseIp, input, stamp).Ok? {
      var admitted := Admit(parseIp, input, stamp).value;
      AdmittedFirst(parseIp, input, stamp);
      AdmittedRequest(parseIp, input, stamp, enabled);
      UpdatePlansExactly(rows, id, admitted, enabled, revision);
      if PlanUpdate(rows, id, admitted, enabled, revision).Ok? {
        var plan := PlanUpdate(rows, id, admitted, enabled, revision).value;
        UpdateIsSound(parseIp, rows, id, admitted, enabled, revision);
        CommitErrors(parseIp, zone, rows, live, {}, plan, now, faults);
        UpdateChange(rows, id, admitted, enabled, revision);
      }
    }
  }

  /** The plan of an update, branch by branch of its checks. */
  lemma UpdateBranches(rows: seq<Route>, current: seq<Route>, id: string, admitted: Route, enabled: bool, revision: int)
    requires current == SortByHost(rows)
    ensures var i := IndexOf(current, id);
            var planned := PlanUpdate(rows, id, admitted, enabled, revision);
            && (HostTakenByOther(current, id, admitted.hostname) ==> planned == Err(HostnameConflict))
            && (!HostTakenByOther(current, id, admitted.hostname) && i == |current| ==> planned == Err(NotFound))
            && (!HostTakenByOther(current, id, admitted.hostname) && i < |current|
                && current[i].revision != revision ==>
                  planned == Err(RevisionConflict))
            && (!HostTakenByOther(current, id, admitted.hostname) && i < |current|
                && current[i].revision == revision ==>
                  var validated := Rewritten(current[i], admitted, enabled);
                  planned == Ok(Plan(current, current[i := validated], Rewrite(validated, revision))))
  {
    hide SortByHost, HostTakenByOther, IndexOf;
  }

  lemma UpdateChange(rows: seq<Route>, id: string, admitted: Route, enabled: bool, revision: int)
    requires PlanUpdate(rows, id, admitted, enabled, revision).Ok?
    ensures PlanUpdate(rows, id, admitted, enabled, revision).value.change.Rewrite?
  {
    hide SortByHost;
  }

  lemma DeleteDecides(parseIp: IpParser, zone: string, rows: seq<Route>, live: Config, id: string, revision: int,
                      listFault: SqlFault, faults: Faults)
    requires IsRoutesTable(parseIp, rows)
    ensures var planned := Listed(listFault, PlanDelete(rows, id, revision));
            var outcome := Mutate(parseIp, zone, rows, live, planned, 0, faults);
            && (outcome.error == None <==>
                  listFault != ReadFault && (exists row :: row in rows && row.id == id && row.revision == revision)
                  && ValidateZone(zone).None? && faults.push == PushOk && faults.persist != WriteFault)
            && (listFault == ReadFault ==> outcome == Outcome(rows, live, Some(SqlFailure)))
            && (listFault != ReadFault && (forall row :: row in rows ==> row.id != id) ==>
                  outcome == Outcome(rows, live, Some(NotFound)))
            && (listFault != ReadFault && (exists row :: row in rows && row.id == id && row.revision != revision) ==>
                  outcome == Outcome(rows, live, Some(RevisionConflict)))
  {
    hide IsRoutesTable, IsSound, Commit, SortByHost, ValidateZone, PlanDelete, IsTable;
    RoutesTableIsTable(parseIp, rows);
    DeletePlansExactly(rows, id, revision);
    if PlanDelete(rows, id, revision).Ok? {
      DeleteIsSound(parseIp, rows, id, revision);
      CommitErrors(parseIp, zone, rows, live, {}, PlanDelete(rows, id, revision).value, 0, faults);
      DeleteChange(rows, id, revision);
    }
  }

  lemma DeleteChange(rows: seq<Route>, id: string, revision: int)
    requires PlanDelete(rows, id, revision).Ok?
    ensures PlanDelete(rows, id, revision).value.change.Remove?
  {
    hide SortByHost;
  }

  lemma ApplyDecides(parseIp: IpParser, zone: string, rows: seq<Route>, live: Config, found: Option<PendingImport>,
                     request: Request, now: Time, listFault: SqlFault, faults: Faults)
    requires IsRoutesTable(parseIp, rows)
    requires found.Some? ==> WasPreviewed(parseIp, request, found.value)
    ensures var outcome := Mutate(parseIp, zone, rows, live, ApplyPlanned(rows, found, now, listFault), 0, faults);
            var good := found.Some? && now <= found.value.expiresAt;
            && (!good ==> outcome == Outcome(rows, live, Some(ImportMissingOrExpired)))
            && (good ==> outcome.error != Some(ImportMissingOrExpired))
            && (good && listFault == ReadFault ==> outcome == Outcome(rows, live, Some(SqlFailure)))
            && (good && listFault != ReadFault && found.value.baseFingerprint != SortByHost(rows) ==>
                  outcome == Outcome(rows, live, Some(RoutesChangedAfterPreview)))
            && (outcome.error == None <==>
                  good && listFault != ReadFault && found.value.baseFingerprint == SortByHost(rows)
                  && ValidateZone(zone).None? && faults.push == PushOk && faults.persist != WriteFault)
  {
    hide IsRoutesTable, IsSound, Commit, SortByHost, ValidateZone, WasPreviewed;
    ZoneErrors(zone);
    if found.Some? && found.value.baseFingerprint == SortByHost(rows) {
      var pending := found.value;
      PendingSound(parseIp, rows, request, pending);
      CommitErrors(parseIp, zone, rows, live, StampIds(request.entries),
                   Plan(pending.baseFingerprint, pending.routes, ReplaceAll(pending.routes)), 0, faults);
    }
  }

  /** A preview succeeds exactly for a version 1 configuration of an accepted zone, in one of the two
      modes, whose routes all ask for a route, on distinct hostnames. */
  lemma PreviewDecides(parseIp: IpParser, rows: seq<Route>, config: PortableConfig, stamps: seq<Stamp>, mode: string,
                       listFault: SqlFault, settingsFault: bool)
    requires |stamps| == |config.routes|
    ensures Previewed(parseIp, rows, config, stamps, mode, listFault, settingsFault).Ok? <==>
              config.version == 1 && (mode == "merge" || mode == "replace") && ValidateZone(config.zone).None?
              && listFault != ReadFault && !settingsFault && AllFit(parseIp, Entries(config.routes, stamps))
  {
    hide Build, ValidateZone, AllFit, SortByHost, Entries;
    BuildsExactly(parseIp, SortByHost(rows), Entries(config.routes, stamps), mode);
  }

  /** The error of a preview is that of the first check it fails; among its routes, that of the first that
      does not fit, before the failure of reading the settings. */
  lemma PreviewErrors(parseIp: IpParser, rows: seq<Route>, config: PortableConfig, stamps: seq<Stamp>, mode: string,
                      listFault: SqlFault, settingsFault: bool)
    requires |stamps| == |config.routes|
    ensures var built := Previewed(parseIp, rows, config, stamps, mode, listFault, settingsFault);
            var entries := Entries(config.routes, stamps);
            if config.version != 1 then built == Err(ConfigVersionInvalid)
            else if mode != "merge" && mode != "replace" then built == Err(ImportModeInvalid)
            else if ValidateZone(config.zone).Some? then built == Err(ExportedZone(ValidateZone(config.zone).value))
            else if listFault == ReadFault then built == Err(SqlFailure)
            else
              && (AllFit(parseIp, entries) && settingsFault ==> built == Err(SqlFailure))
              && (!AllFit(parseIp, entries) ==> built.Err? && ReportsMisfit(parseIp, entries, built.error))
  {
    hide Build, ValidateZone, AllFit, SortByHost, Entries, ReportsMisfit;
    BuildsExactly(parseIp, SortByHost(rows), Entries(config.routes, stamps), mode);
    MisfitIsReported(parseIp, SortByHost(rows), Entries(config.routes, stamps), mode);
  }

  /** What was exported previews as no change at all. */
  lemma ExportPreviews(parseIp: IpParser, zone: string, rows: seq<Route>, config: PortableConfig, stamps: seq<Stamp>,
                       mode: string)
    requires IsRoutesTable(parseIp, rows) && ValidateZone(zone).None? && (mode == MERGE || mode == REPLACE)
    requires config == PortableConfig(1, zone, Export(SortByHost(rows))) && |stamps| == |config.routes|
    ensures Previewed(parseIp, rows, config, stamps, mode, NoFault, false)
              == Ok(Built(SortByHost(rows), Counts(0, 0, 0)))
  {
    hide IsRoutesTable, Build, ValidateZone, SortByHost, Export;
    ExportImportIdentity(parseIp, rows, Entries(config.routes, stamps), mode);
  }

  lemma ExportPreviewsAlways(parseIp: IpParser, zone: string, rows: seq<Route>, config: PortableConfig)
    requires IsRoutesTable(parseIp, rows) && config == PortableConfig(1, zone, Export(SortByHost(rows)))
    ensures ValidateZone(zone).None? ==>
              forall stamps: seq<Stamp>, mode ::
                |stamps| == |config.routes| && (mode == MERGE || mode == REPLACE) ==>
                  Previewed(parseIp, rows, config, stamps, mode, NoFault, false)
                  == Ok(Built(SortByHost(rows), Counts(0, 0, 0)))
  {
    hide IsRoutesTable, ValidateZone, SortByHost, Export, Previewed;
    if ValidateZone(zone).None? {
      forall stamps: seq<Stamp>, mode | |stamps| == |config.routes| && (mode == MERGE || mode == REPLACE)
        ensures Previewed(parseIp, rows, config, stamps, mode, NoFault, false)
                == Ok(Built(SortByHost(rows), Counts(0, 0, 0)))
      {
        ExportPreviews(parseIp, zone, rows, config, stamps, mode);
      }
    }
  }

  lemma ListedHealth(rows: seq<Route>)
    requires AreRows(rows)
    ensures forall i :: 0 <= i < |SortByHost(rows)| ==> SortByHost(rows)[i].health == HealthUnknown
  {
    SortCorrect(rows);
    forall i | 0 <= i < |SortByHost(rows)| ensures SortByHost(rows)[i].health == HealthUnknown {
      assert SortByHost(rows)[i] in rows;
    }
  }

  // ----- The pending map and the protocol -----

  /** The pending map holds what the protocol has parked. */
  ghost predicate PendingMatches(pendingImports: map<string, PendingImport>, s: State) {
    forall d ::
      && (d in pendingImports <==> IsParked(s, d))
      && (d in pendingImports ==>
            && s.jobs[d].base == pendingImports[d].baseFingerprint && s.jobs[d].next == pendingImports[d].routes
            && s.jobs[d].status == Parked(pendingImports[d].expiresAt))
  }

  /** The lookup of ApplyImport and its look at the clock `elapsed` later are the protocol's steps: they
      clear the entry exactly when it was there and has not expired by then, and spend it in any case. */
  lemma ApplyLookupSteps(parseIp: IpParser, zone: string, s: State, pendingImports: map<string, PendingImport>,
                         digest: string, elapsed: nat, s1: State, s2: State, s3: State)
    requires PendingMatches(pendingImports, s) && NoApply(s, digest)
    requires s1 == Protocol.Next(parseIp, zone, s, TakeImport(digest))
    requires s2 == Protocol.Next(parseIp, zone, s1, Tick(elapsed))
    requires s3 == Protocol.Next(parseIp, zone, s2, CheckExpiry(digest))
    ensures PendingMatches(pendingImports - {digest}, s3)
    ensures IsCleared(s3, digest) <==>
              digest in pendingImports && s.clock + elapsed <= pendingImports[digest].expiresAt
    ensures IsCleared(s3, digest) ==>
              s3.jobs[digest].base == pendingImports[digest].baseFingerprint
              && s3.jobs[digest].next == pendingImports[digest].routes
  {
    hide Protocol.Next;
    ApplySteps(parseIp, zone, s, digest, elapsed, s1, s2, s3);
    assert digest in pendingImports <==> IsParked(s, digest);
    forall d ensures d in pendingImports - {digest} <==> IsParked(s3, d) {
      assert d in pendingImports <==> IsParked(s, d);
    }
  }

  lemma ApplySteps(parseIp: IpParser, zone: string, s: State, digest: string, elapsed: nat, s1: State, s2: State,
                   s3: State)
    requires s1 == Protocol.Next(parseIp, zone, s, TakeImport(digest))
    requires s2 == Protocol.Next(parseIp, zone, s1, Tick(elapsed))
    requires s3 == Protocol.Next(parseIp, zone, s2, CheckExpiry(digest))
    ensures s1 == DoTake(s, digest) && s2 == s1.(clock := s1.clock + elapsed) && s3 == DoCheck(s2, digest)
  {
    hide Build, Push, Persist, Admit, SortByHost, DoTake, DoCheck;
  }

  /** The section of PreviewImport under the pending lock is the protocol's parking step. */
  lemma PreviewParkStep(parseIp: IpParser, zone: string, s: State, pendingImports: map<string, PendingImport>,
                        digest: string, start: Time, dropped: set<string>, s1: State)
    requires PendingMatches(pendingImports, s) && digest in s.jobs && s.jobs[digest].status.Drafted?
    requires Prunes(pendingImports, start, s.clock, dropped)
    requires s1 == Protocol.Next(parseIp, zone, s, PreviewPark(digest, dropped))
    ensures var job := s.jobs[digest];
            PendingMatches(
              (pendingImports - dropped)[digest := PendingImport(job.base, job.next, s.clock + TEN_MINUTES)], s1)
  {
    hide Build, Push, Persist, Admit, SortByHost, FreshEntries, StampIds;
    assert digest in pendingImports <==> IsParked(s, digest);
    forall d | d in dropped ensures d in s.jobs && IsExpired(s.jobs[d], s.clock) {
      assert d in pendingImports <==> IsParked(s, d);
    }
    var job := s.jobs[digest];
    var after := (pendingImports - dropped)[digest := PendingImport(job.base, job.next, s.clock + TEN_MINUTES)];
    forall d ensures d in after <==> IsParked(s1, d) {
      assert d in pendingImports <==> IsParked(s, d);
    }
  }

  // ----- What the methods rely on once a plan is sound -----

  /** Whatever fails, a sound plan leaves a reachable table: the old one unless the change went in.
      If the whole transaction succeeds, the proxy routes as the table asks. */
  lemma CommitKeeps(parseIp: IpParser, zone: string, rows: seq<Route>, live: Config, reserved: set<string>,
                    plan: Plan, now: Time, faults: Faults)
    requires IsRoutesTable(parseIp, rows) && IsSound(parseIp, rows, reserved, plan)
    ensures var outcome := Commit(parseIp, zone, rows, live, plan, now, faults);
            && IsRoutesTable(parseIp, outcome.rows)
            && (outcome.error == None ==> Routes(parseIp, zone, outcome.live, Intent(outcome.rows)))
            && (outcome.error.Some? && !IsReadBackFailure(plan, faults) ==> outcome.rows == rows)
  {
    hide Push, Routes, Intent;
    CommitHeals(parseIp, zone, rows, live, reserved, plan, now, faults);
    assert ChangeFits(parseIp, rows, reserved, plan, now);
  }

  lemma TableRows(parseIp: IpParser, rows: seq<Route>)
    requires IsRoutesTable(parseIp, rows)
    ensures IsTable(rows) && AreRows(rows)
  {
    forall i | 0 <= i < |rows| ensures rows[i].health == HealthUnknown {
      assert IsRow(parseIp, rows[i]);
    }
  }

  /** What CreateRoute leaves once its checks have passed. */
  lemma CreateServes(parseIp: IpParser, zone: string, rows: seq<Route>, live: Config, input: RouteInput, stamp: Stamp,
                     plan: Plan, faults: Faults)
    requires IsRoutesTable(parseIp, rows) && stamp.id !in Ids(rows) && Admit(parseIp, input, stamp).Ok?
    requires PlanCreate(rows, Admit(parseIp, input, stamp).value) == Ok(plan)
    ensures var outcome := Commit(parseIp, zone, rows, live, plan, 0, faults);
            && IsRoutesTable(parseIp, outcome.rows)
            && (outcome.error == None ==>
                  && Routes(parseIp, zone, outcome.live, Intent(outcome.rows))
                  && Intent(outcome.rows) == Intent(rows)[Requested(input, true).hostname := Requested(input, true)])
            && (outcome.error.Some? ==> outcome.rows == rows)
  {
    hide IsRoutesTable, IsSound, Intent, Routes, Commit, ApplyChange, Admit, Requested, SortByHost;
    var route := Admit(parseIp, input, stamp).value;
    AdmittedIsRow(parseIp, input, stamp);
    AdmittedRequest(parseIp, input, stamp, true);
    CreateIsSound(parseIp, rows, route);
    CommitKeeps(parseIp, zone, rows, live, {stamp.id}, plan, 0, faults);
    var outcome := Commit(parseIp, zone, rows, live, plan, 0, faults);
    if outcome.error == None {
      SucceededCommit(parseIp, zone, rows, live, plan, 0, faults);
      CreateTakesEffect(parseIp, rows, input, stamp, 0, outcome.rows);
    }
  }

  /** What UpdateRoute leaves once its checks have passed. */
  lemma UpdateServes(parseIp: IpParser, zone: string, rows: seq<Route>, live: Config, id: string, input: RouteInput,
                     enabled: bool, revision: int, stamp: Stamp, plan: Plan, now: Time, faults: Faults)
    requires IsRoutesTable(parseIp, rows) && Admit(parseIp, input, stamp).Ok?
    requires PlanUpdate(rows, id, Admit(parseIp, input, stamp).value, enabled, revision) == Ok(plan)
    ensures IndexOf(rows, id) < |rows|
    ensures var outcome := Commit(parseIp, zone, rows, live, plan, now, faults);
            var wanted := Requested(input, enabled);
            && IsRoutesTable(parseIp, outcome.rows)
            && (outcome.error == None ==>
                  && Routes(parseIp, zone, outcome.live, Intent(outcome.rows))
                  && Intent(outcome.rows)
                      == (Intent(rows) - {rows[IndexOf(rows, id)].hostname})[wanted.hostname := wanted])
            && (outcome.error.Some? && faults.persist != ReadFault ==> outcome.rows == rows)
  {
    hide IsRoutesTable, IsSound, Intent, Routes, Commit, ApplyChange, Admit, Requested, SortByHost, IndexOf;
    AdmittedIsRow(parseIp, input, stamp);
    UpdateIsSound(parseIp, rows, id, Admit(parseIp, input, stamp).value, enabled, revision);
    CommitKeeps(parseIp, zone, rows, live, {}, plan, now, faults);
    var outcome := Commit(parseIp, zone, rows, live, plan, now, faults);
    TableRows(parseIp, rows);
    PlannedRow(rows, id, Admit(parseIp, input, stamp).value, enabled, revision);
    if outcome.error == None {
      SucceededCommit(parseIp, zone, rows, live, plan, now, faults);
      UpdateTakesEffect(parseIp, rows, id, input, enabled, revision, stamp, now, outcome.rows);
    }
  }

  lemma PlannedRow(rows: seq<Route>, id: string, admitted: Route, enabled: bool, revision: int)
    requires IsTable(rows) && PlanUpdate(rows, id, admitted, enabled, revision).Ok?
    ensures IndexOf(rows, id) < |rows|
  {
    hide SortByHost;
    IdInListing(rows, id);
  }

  /** What DeleteRoute leaves once its checks have passed. */
  lemma DeleteServes(parseIp: IpParser, zone: string, rows: seq<Route>, live: Config, id: string, revision: int,
                     plan: Plan, faults: Faults)
    requires IsRoutesTable(parseIp, rows) && PlanDelete(rows, id, revision) == Ok(plan)
    ensures var outcome := Commit(parseIp, zone, rows, live, plan, 0, faults);
            && IsRoutesTable(parseIp, outcome.rows)
            && (outcome.error == None ==>
                  && Routes(parseIp, zone, outcome.live, Intent(outcome.rows))
                  && IndexOf(rows, id) < |rows|
                  && Intent(outcome.rows) == Intent(rows) - {rows[IndexOf(rows, id)].hostname})
            && (outcome.error.Some? ==> outcome.rows == rows)
  {
    hide IsRoutesTable, IsSound, Intent, Routes, Commit, ApplyChange, SortByHost, IndexOf;
    DeleteIsSound(parseIp, rows, id, revision);
    CommitKeeps(parseIp, zone, rows, live, {}, plan, 0, faults);
    var outcome := Commit(parseIp, zone, rows, live, plan, 0, faults);
    TableRows(parseIp, rows);
    if outcome.error == None {
      SucceededCommit(parseIp, zone, rows, live, plan, 0, faults);
      DeleteTakesEffect(rows, id, revision, 0, outcome.rows);
    }
  }

  lemma PendingSound(parseIp: IpParser, rows: seq<Route>, request: Request, pending: PendingImport)
    requires IsRoutesTable(parseIp, rows) && WasPreviewed(parseIp, request, pending)
    requires pending.baseFingerprint == SortByHost(rows)
    ensures IsSound(parseIp, rows, StampIds(request.entries),
                    Plan(pending.baseFingerprint, pending.routes, ReplaceAll(pending.routes)))
    ensures Sorted(pending.routes) && IsRoutesTable(parseIp, pending.routes)
  {
    hide IsSound, IsRoutesTable, Build, SortByHost, FreshEntries, StampIds;
    ImportIsSound(parseIp, rows, pending.baseFingerprint, request.entries, request.mode);
    BuildIsTable(parseIp, pending.baseFingerprint, request.entries, request.mode);
  }

  /** What ApplyImport leaves once the fingerprint has matched. */
  lemma ImportServes(parseIp: IpParser, zone: string, rows: seq<Route>, live: Config, request: Request,
                     pending: PendingImport, routes: seq<Route>, faults: Faults)
    requires IsRoutesTable(parseIp, rows) && WasPreviewed(parseIp, request, pending)
    requires pending.baseFingerprint == SortByHost(rows) && routes == pending.routes
    ensures var built := Build(parseIp, SortByHost(rows), request.entries, request.mode);
            built.Ok? && built.value.routes == routes && IsDiff(SortByHost(rows), built.value)
    ensures var outcome := Commit(parseIp, zone, rows, live, Plan(SortByHost(rows), routes, ReplaceAll(routes)), 0,
              faults);
            && IsRoutesTable(parseIp, outcome.rows) && IsTable(outcome.rows) && AreRows(outcome.rows)
            && (outcome.error == None ==>
                  Routes(parseIp, zone, outcome.live, Intent(outcome.rows)) && SortByHost(outcome.rows) == routes)
            && (outcome.error.Some? ==> outcome.rows == rows)
  {
    hide IsRoutesTable, IsSound, Intent, Routes, Commit, ApplyChange, SortByHost, Sorted, Ids, WasPreviewed, Build;
    hide IsDiff;
    var plan := Plan(SortByHost(rows), routes, ReplaceAll(routes));
    var outcome := Commit(parseIp, zone, rows, live, plan, 0, faults);
    PreviewedAgain(parseIp, request, pending);
    PendingSound(parseIp, rows, request, pending);
    CommitKeeps(parseIp, zone, rows, live, StampIds(request.entries), plan, 0, faults);
    TableRows(parseIp, outcome.rows);
    TableRows(parseIp, routes);
    if outcome.error == None {
      SucceededCommit(parseIp, zone, rows, live, plan, 0, faults);
      ReplacedRows(rows, routes, 0);
      ReplacedListing(routes);
    }
  }

  lemma PreviewedAgain(parseIp: IpParser, request: Request, pending: PendingImport)
    requires WasPreviewed(parseIp, request, pending)
    ensures var built := Build(parseIp, pending.baseFingerprint, request.entries, request.mode);
            built.Ok? && built.value.routes == pending.routes && IsDiff(pending.baseFingerprint, built.value)
  {
    hide Build, IsRoutesTable, IsDiff;
    CountsAreTheDiff(parseIp, pending.baseFingerprint, request.entries, request.mode);
  }

  lemma ReplacedRows(rows: seq<Route>, routes: seq<Route>, now: Time)
    ensures ApplyChange(rows, ReplaceAll(routes), now) == ReplaceRows(routes)
  {
  }

  lemma IdAt(routes: seq<Route>, i: nat, id: string)
    requires DistinctIds(routes) && i < |routes| && routes[i].id == id
    ensures IndexOf(routes, id) == i
  {
    assert routes[i] in routes;
  }

  /** replaceRoute: a copy with the first holder of the id overwritten. */
  method ReplaceRoute(routes: seq<Route>, replacement: Route) returns (result: seq<Route>)
    requires DistinctIds(routes)
    ensures var i := IndexOf(routes, replacement.id);
            result == if i < |routes| then routes[i := replacement] else routes
  {
    result := routes;
    for i := 0 to |result|
      invariant result == routes
      invariant forall k :: 0 <= k < i ==> routes[k].id != replacement.id
    {
      if result[i].id == replacement.id {
        IdAt(routes, i, replacement.id);
        result := result[i := replacement];
        return;
      }
    }
  }

  /** The scan of UpdateRoute: the holder of the id, unless another route has the hostname. */
  method ScanForUpdate(current: seq<Route>, id: string, hostname: string) returns (original: Result<Route, Error>)
    requires DistinctIds(current)
    ensures var i := IndexOf(current, id);
            original == if HostTakenByOther(current, id, hostname) then Err(HostnameConflict)
                        else if i == |current| then Err(NotFound) else Ok(current[i])
    ensures original == Err(HostnameConflict)
            <==> exists other :: other in current && other.hostname == hostname && other.id != id
    ensures original == Err(NotFound)
            ==> forall other :: other in current ==> other.hostname != hostname && other.id != id
    ensures original.Ok? ==> original.value in current && original.value.id == id
    ensures original.Err? ==> original == Err(HostnameConflict) || original == Err(NotFound)
  {
    TakenByOther(current, id, hostname);
    IdOf(current, id);
    original := Err(NotFound);
    for i := 0 to |current|
      invariant forall k :: 0 <= k < i ==> current[k].id == id || current[k].hostname != hostname
      invariant if original.Ok? then IndexOf(current, id) < |current| && original.value == current[IndexOf(current, id)]
                else original == Err(NotFound) && forall k :: 0 <= k < i ==> current[k].id != id
    {
      if current[i].id == id {
        IdAt(current, i, id);
        original := Ok(current[i]);
      } else if current[i].hostname == hostname {
        return Err(HostnameConflict);
      }
    }
  }

  /** The scan of DeleteRoute: the other routes, unless the id is missing or at another revision. */
  method ScanForDelete(current: seq<Route>, id: string, revision: int) returns (next: Result<seq<Route>, Error>)
    requires DistinctIds(current)
    ensures var i := IndexOf(current, id);
            next == if i == |current| then Err(NotFound)
                    else if current[i].revision != revision then Err(RevisionConflict)
                    else Ok(current[..i] + current[i + 1..])
  {
    hide Ids;
    ghost var at := IndexOf(current, id);
    var others: seq<Route> := [];
    var found := false;
    for i := 0 to |current|
      invariant found <==> at < i
      invariant found ==> current[at].revision == revision
      invariant others == if found then current[..at] + current[at + 1..i] else current[..i]
    {
      if current[i].id == id {
        IdAt(current, i, id);
        found := true;
        if current[i].revision != revision {
          return Err(RevisionConflict);
        }
        assert current[at + 1..i + 1] == [];
      } else {
        others := others + [current[i]];
        if found {
          assert current[at + 1..i + 1] == current[at + 1..i] + [current[i]];
        }
      }
    }
    assert current[..|current|] == current;
    next := if found then Ok(others) else Err(NotFound);
  }

  class Service {
    const parseIp: IpParser
    const store: Store
    const proxy: Proxy
    var health: map<string, HealthStatus>
    var pendingImports: map<string, PendingImport>
    ghost var requests: map<string, Request>

    /** `requests` remembers what each pending import was previewed for. */
    ghost predicate Valid()
      reads this, store
    {
      && store.Valid()
      && IsRoutesTable(parseIp, store.rows)
      && forall d :: d in pendingImports ==> d in requests && WasPreviewed(parseIp, requests[d], pendingImports[d])
    }

    /** The proxy routes every request as the store asks. */
    ghost predicate InAgreement()
      reads this, store, proxy
    {
      Routes(parseIp, store.zone, proxy.live, Intent(store.rows))
    }

    constructor (parseIp: IpParser, store: Store, proxy: Proxy)
      requires store.Valid() && IsRoutesTable(parseIp, store.rows)
      ensures Valid() && this.parseIp == parseIp && this.store == store && this.proxy == proxy
      ensures health == map[] && pendingImports == map[]
    {
      this.parseIp := parseIp;
      this.store := store;
      this.proxy := proxy;
      this.health := map[];
      this.pendingImports := map[];
      this.requests := map[];
    }

    /** apply: settings, render, load. */
    method Apply(routes: seq<Route>, fault: PushFault) returns (error: Option<Error>)
      modifies proxy
      ensures var pushed := Push(parseIp, store.zone, routes, fault);
              if pushed.Ok? then error == None && proxy.live == pushed.value
              else error == Some(pushed.error) && proxy.live == old(proxy.live)
    {
      if fault == SettingsFault {
        return Some(SqlFailure);
      }
      var config := Render(parseIp, store.zone, routes);
      if config.Err? {
        return Some(config.error);
      }
      var accepted := proxy.Load(config.value, fault == LoadFault);
      return if accepted then None else Some(CaddyRejected);
    }

    /** Push, insert, and on failure push the old listing again. */
    method PushAndInsert(current: seq<Route>, route: Route, faults: Faults) returns (error: Option<Error>)
      requires store.Valid()
      modifies store, proxy
      ensures store.Valid()
      ensures var outcome := Commit(parseIp, store.zone, old(store.rows), old(proxy.live),
                                    Plan(current, current + [route], InsertNew(route)), 0, faults);
              store.rows == outcome.rows && proxy.live == outcome.live && error == outcome.error
    {
      hide Push;
      error := Apply(current + [route], faults.push);
      if error.Some? {
        return;
      }
      error := store.CreateRoute(route, faults.persist);
      if error.Some? {
        var _ := Apply(current, faults.rollback);
      }
    }

    method CreateRoute(input: RouteInput, stamp: Stamp, listFault: SqlFault, faults: Faults)
      returns (result: Result<Route, Error>)
      requires Valid() && stamp.id !in Ids(store.rows)
      modifies store, proxy
      ensures Valid()
      ensures var admitted := Admit(parseIp, input, stamp);
              var outcome := Mutate(parseIp, store.zone, old(store.rows), old(proxy.live),
                                    CreatePlanned(old(store.rows), admitted, listFault), 0, faults);
              && store.rows == outcome.rows && proxy.live == outcome.live
              && result == (if outcome.error.Some? then Err(outcome.error.value) else admitted)
      ensures result.Ok? ==>
                var wanted := Requested(input, true);
                InAgreement() && Intent(store.rows) == old(Intent(store.rows))[wanted.hostname := wanted]
      ensures result.Err? ==> store.rows == old(store.rows)
      ensures var free := forall row :: row in old(store.rows) ==> row.hostname != Requested(input, true).hostname;
              && (result.Ok? <==>
                    IsAcceptable(parseIp, input) && listFault != ReadFault && free
                    && ValidateZone(store.zone).None? && faults.push == PushOk && faults.persist != WriteFault)
              && (IsAcceptable(parseIp, input) && listFault != ReadFault && !free ==>
                    result == Err(HostnameConflict) && proxy.live == old(proxy.live))
              && (!IsAcceptable(parseIp, input) || listFault == ReadFault ==> proxy.live == old(proxy.live))
    {
      hide IsRoutesTable, Routes, Intent, Admit, IsSound, Commit, Requested, SortByHost;
      hide IsAcceptable, ValidateZone, WasPreviewed;
      CreateDecides(parseIp, store.zone, store.rows, proxy.live, input, stamp, listFault, faults);
      result := NewRoute(parseIp, input, stamp);
      if result.Err? {
        return;
      }
      var route := result.value;
      var listed := store.ListRoutes(listFault);
      if listed.Err? {
        return Err(listed.error);
      }
      var current := listed.value;
      for i := 0 to |current|
        invariant store.rows == old(store.rows) && proxy.live == old(proxy.live)
        invariant forall k :: 0 <= k < i ==> current[k].hostname != route.hostname
      {
        if current[i].hostname == route.hostname {
          assert current[i] in current;
          return Err(HostnameConflict);
        }
      }
      assert PlanCreate(store.rows, route) == Ok(Plan(current, current + [route], InsertNew(route)));
      CreateServes(parseIp, store.zone, store.rows, proxy.live, input, stamp,
                   Plan(current, current + [route], InsertNew(route)), faults);
      hide PlanCreate;
      var error := PushAndInsert(current, route, faults);
      if error.Some? {
        return Err(error.value);
      }
    }

    /** Push, rewrite, and on failure push the old listing again. */
    method PushAndRewrite(current: seq<Route>, next: seq<Route>, route: Route, revision: int, now: Time, faults: Faults)
      returns (result: Result<Route, Error>)
      requires store.Valid()
      modifies store, proxy
      ensures store.Valid()
      ensures var outcome := Commit(parseIp, store.zone, old(store.rows), old(proxy.live),
                                    Plan(current, next, Rewrite(route, revision)), now, faults);
              && store.rows == outcome.rows && proxy.live == outcome.live
              && (if outcome.error.Some? then result == Err(outcome.error.value)
                  else result.Ok? && result.value in store.rows && result.value.id == route.id)
    {
      hide Push, UpdateRow;
      var error := Apply(next, faults.push);
      if error.Some? {
        return Err(error.value);
      }
      result := store.UpdateRoute(route, revision, now, faults.persist);
      if result.Err? {
        var _ := Apply(current, faults.rollback);
      }
    }

    method UpdateRoute(id: string, input: RouteInput, enabled: bool, revision: int, stamp: Stamp, now: Time,
                       listFault: SqlFault, faults: Faults) returns (result: Result<Route, Error>)
      requires Valid()
      modifies store, proxy
      ensures Valid()
      ensures var planned := UpdatePlanned(old(store.rows), id, Admit(parseIp, input, stamp), enabled, revision,
                listFault);
              var outcome := Mutate(parseIp, store.zone, old(store.rows), old(proxy.live), planned, now, faults);
              && store.rows == outcome.rows && proxy.live == outcome.live
              && (if outcome.error.Some? then result == Err(outcome.error.value)
                  else result.Ok? && result.value in store.rows && result.value.id == id)
      ensures result.Ok? ==>
                var i := IndexOf(old(store.rows), id);
                var wanted := Requested(input, enabled);
                && InAgreement() && i < |old(store.rows)|
                && Intent(store.rows)
                    == (old(Intent(store.rows)) - {old(store.rows)[i].hostname})[wanted.hostname := wanted]
      ensures result.Err? && faults.persist != ReadFault ==> store.rows == old(store.rows)
      ensures var rows := old(store.rows);
              var readable := IsAcceptable(parseIp, input) && listFault != ReadFault;
              var free := forall row :: row in rows && row.hostname == Requested(input, enabled).hostname ==>
                            row.id == id;
              && (result.Ok? <==>
                    readable && free && (exists row :: row in rows && row.id == id && row.revision == revision)
                    && ValidateZone(store.zone).None? && faults.push == PushOk && faults.persist == NoFault)
              && (!readable ==> store.rows == rows && proxy.live == old(proxy.live))
              && (readable && !free ==> result == Err(HostnameConflict) && proxy.live == old(proxy.live))
              && (readable && free && (forall row :: row in rows ==> row.id != id) ==>
                    result == Err(NotFound) && proxy.live == old(proxy.live))
              && (readable && free && (exists row :: row in rows && row.id == id && row.revision != revision) ==>
                    result == Err(RevisionConflict) && proxy.live == old(proxy.live))
    {
      hide IsRoutesTable, Routes, Intent, Admit, IsSound, Commit, HostTakenByOther, Requested, SortByHost;
      hide IsAcceptable, ValidateZone, WasPreviewed, Ids, AreRows, DistinctHosts, Hosts, PlanUpdate, IndexOf;
      UpdateDecides(parseIp, store.zone, store.rows, proxy.live, id, input, enabled, revision, stamp, now,
        listFault, faults);
      var admitted := NewRoute(parseIp, input, stamp);
      if admitted.Err? {
        return Err(admitted.error);
      }
      var validated := admitted.value;
      var listed := store.ListRoutes(listFault);
      if listed.Err? {
        return Err(listed.error);
      }
      var current := listed.value;
      SortedTable(store.rows);
      UpdateBranches(store.rows, current, id, validated, enabled, revision);
      var original := ScanForUpdate(current, id, validated.hostname);
      if original.Err? {
        return Err(original.error);
      }
      if original.value.revision != revision {
        return Err(RevisionConflict);
      }
      validated := validated.(id := original.value.id, enabled := enabled);
      validated := validated.(createdAt := original.value.createdAt, revision := original.value.revision);
      var next := ReplaceRoute(current, validated);
      ghost var plan := Plan(current, next, Rewrite(validated, revision));
      assert PlanUpdate(store.rows, id, admitted.value, enabled, revision) == Ok(plan);
      UpdateServes(parseIp, store.zone, store.rows, proxy.live, id, input, enabled, revision, stamp, plan, now, faults);
      result := PushAndRewrite(current, next, validated, revision, now, faults);
    }

    /** Push, delete, and on failure push the old listing again. */
    method PushAndDelete(current: seq<Route>, next: seq<Route>, id: string, revision: int, faults: Faults)
      returns (error: Option<Error>)
      requires store.Valid()
      modifies store, proxy
      ensures store.Valid()
      ensures var outcome := Commit(parseIp, store.zone, old(store.rows), old(proxy.live),
                                    Plan(current, next, Remove(id, revision)), 0, faults);
              store.rows == outcome.rows && proxy.live == outcome.live && error == outcome.error
    {
      hide Push, DeleteRow;
      error := Apply(next, faults.push);
      if error.Some? {
        return;
      }
      error := store.DeleteRoute(id, revision, faults.persist);
      if error.Some? {
        var _ := Apply(current, faults.rollback);
      }
    }

    method DeleteRoute(id: string, revision: int, listFault: SqlFault, faults: Faults) returns (error: Option<Error>)
      requires Valid()
      modifies store, proxy, this`health
      ensures Valid()
      ensures var planned := Listed(listFault, PlanDelete(old(store.rows), id, revision));
              var outcome := Mutate(parseIp, store.zone, old(store.rows), old(proxy.live), planned, 0, faults);
              store.rows == outcome.rows && proxy.live == outcome.live && error == outcome.error
      ensures error.None? ==>
                var i := IndexOf(old(store.rows), id);
                && InAgreement() && health == old(health) - {id}
                && i < |old(store.rows)|
                    && Intent(store.rows) == old(Intent(store.rows)) - {old(store.rows)[i].hostname}
      ensures error.Some? ==> store.rows == old(store.rows) && health == old(health)
      ensures var rows := old(store.rows);
              && (error.None? <==>
                    listFault != ReadFault && (exists row :: row in rows && row.id == id && row.revision == revision)
                    && ValidateZone(store.zone).None? && faults.push == PushOk && faults.persist != WriteFault)
              && (listFault == ReadFault ==> error == Some(SqlFailure) && proxy.live == old(proxy.live))
              && (listFault != ReadFault && (forall row :: row in rows ==> row.id != id) ==>
                    error == Some(NotFound) && proxy.live == old(proxy.live))
              && (listFault != ReadFault && (exists row :: row in rows && row.id == id && row.revision != revision) ==>
                    error == Some(RevisionConflict) && proxy.live == old(proxy.live))
    {
      hide IsRoutesTable, Routes, Intent, IsSound, Commit, Push, SortByHost, Ids, AreRows, DistinctHosts, Hosts;
      hide WasPreviewed, ValidateZone;
      DeleteDecides(parseIp, store.zone, store.rows, proxy.live, id, revision, listFault, faults);
      var listed := store.ListRoutes(listFault);
      if listed.Err? {
        return Some(listed.error);
      }
      var current := listed.value;
      SortedTable(store.rows);
      var remaining := ScanForDelete(current, id, revision);
      if remaining.Err? {
        return Some(remaining.error);
      }
      ghost var plan := Plan(current, remaining.value, Remove(id, revision));
      assert PlanDelete(store.rows, id, revision) == Ok(plan);
      DeleteServes(parseIp, store.zone, store.rows, proxy.live, id, revision, plan, faults);
      hide PlanDelete, IndexOf;
      error := PushAndDelete(current, remaining.value, id, revision, faults);
      if error.None? {
        health := health - {id};
      }
    }

    method Reconcile(listFault: SqlFault, fault: PushFault) returns (error: Option<Error>)
      requires Valid()
      modifies proxy
      ensures Valid()
      ensures var outcome := Mutate(parseIp, store.zone, store.rows, old(proxy.live),
                Listed(listFault, Ok(PlanReconcile(store.rows))),
                                    0, Faults(fault, NoFault, PushOk));
              proxy.live == outcome.live && error == outcome.error
      ensures error.None? ==> InAgreement()
      ensures error.None? <==> listFault != ReadFault && ValidateZone(store.zone).None? && fault == PushOk
      ensures error.Some? ==> proxy.live == old(proxy.live)
    {
      hide IsRoutesTable, Push, Routes, Intent, IsSound, WasPreviewed, ValidateZone;
      PushOutcome(parseIp, store.zone, SortByHost(store.rows), fault);
      var listed := store.ListRoutes(listFault);
      if listed.Err? {
        return Some(listed.error);
      }
      ReconcileIsSound(parseIp, store.rows);
      CommitKeeps(parseIp, store.zone, store.rows, proxy.live, {}, PlanReconcile(store.rows), 0,
          Faults(fault, NoFault, PushOk));
      error := Apply(listed.value, fault);
    }

    /** PreviewImport: read the store without the lock, build, prune, park under a fresh digest. */
    method PreviewImport(config: PortableConfig, mode: string, stamps: seq<Stamp>, digest: string, start: Time,
                         listFault: SqlFault, settingsFault: bool)
      returns (result: Result<ImportPreview, Error>, parkedAt: Time, ghost dropped: set<string>)
      requires Valid() && |stamps| == |config.routes| && FreshEntries(Entries(config.routes, stamps), Ids(store.rows))
      modifies this`pendingImports, this`requests
      ensures Valid()
      ensures var built := Previewed(parseIp, store.rows, config, stamps, mode, listFault, settingsFault);
              if built.Err? then
                result == Err(built.error) && pendingImports == old(pendingImports) && requests == old(requests)
              else
                && result == Ok(ImportPreview(digest, store.zone, built.value.counts))
                && IsDiff(SortByHost(store.rows), built.value)
                && Prunes(old(pendingImports), start, parkedAt, dropped)
                && pendingImports == (old(pendingImports) - dropped)
                     [digest := PendingImport(SortByHost(store.rows), built.value.routes, parkedAt + TEN_MINUTES)]
                && requests == old(requests)[digest := Request(Entries(config.routes, stamps), mode)]
      ensures result.Ok? <==>
                config.version == 1 && (mode == "merge" || mode == "replace") && ValidateZone(config.zone).None?
                && listFault != ReadFault && !settingsFault && AllFit(parseIp, Entries(config.routes, stamps))
      ensures config.version == 1 && (mode == "merge" || mode == "replace") && ValidateZone(config.zone).None?
              && listFault != ReadFault && !AllFit(parseIp, Entries(config.routes, stamps)) ==>
                result.Err? && ReportsMisfit(parseIp, Entries(config.routes, stamps), result.error)
    {
      hide IsRoutesTable, Build, ValidateZone, IsDiff, Entries, SortByHost, FreshEntries, Ids, AreRows, DistinctIds;
      hide Prunes, WasPreviewed, AllFit, ReportsMisfit;
      PreviewDecides(parseIp, store.rows, config, stamps, mode, listFault, settingsFault);
      PreviewErrors(parseIp, store.rows, config, stamps, mode, listFault, settingsFault);
      parkedAt, dropped := start, {};
      var entries := Entries(config.routes, stamps);
      if config.version != 1 {
        result := Err(ConfigVersionInvalid);
        return;
      }
      if mode != MERGE && mode != REPLACE {
        result := Err(ImportModeInvalid);
        return;
      }
      var zoneError := ValidateZone(config.zone);
      if zoneError.Some? {
        result := Err(ExportedZone(zoneError.value));
        return;
      }
      var listed := store.ListRoutes(listFault);
      if listed.Err? {
        result := Err(listed.error);
        return;
      }
      var current := listed.value;
      SortedTable(store.rows);
      var built := BuildImportedRoutes(parseIp, current, entries, mode);
      if built.Err? {
        result := Err(built.error);
        return;
      }
      if settingsFault {
        result := Err(SqlFailure);
        return;
      }
      PreviewFits(parseIp, store.rows, entries, mode);
      parkedAt, dropped := Park(digest, current, built.value.routes, Request(entries, mode), start);
      result := Ok(ImportPreview(digest, store.zone, built.value.counts));
    }

    /** The section under the pending lock: prune, then park for ten minutes from a last look at the clock. */
    method Park(digest: string, base: seq<Route>, routes: seq<Route>, ghost request: Request, start: Time)
      returns (parkedAt: Time, ghost dropped: set<string>)
      requires Valid()
      requires forall expiresAt :: WasPreviewed(parseIp, request, PendingImport(base, routes, expiresAt))
      modifies this`pendingImports, this`requests
      ensures Valid()
      ensures Prunes(old(pendingImports), start, parkedAt, dropped)
      ensures pendingImports
                == (old(pendingImports) - dropped)[digest := PendingImport(base, routes, parkedAt + TEN_MINUTES)]
      ensures requests == old(requests)[digest := request]
    {
      hide IsRoutesTable, WasPreviewed;
      parkedAt, dropped := Prune(start);
      var now: Time :| now >= parkedAt;
      parkedAt := now;
      pendingImports := pendingImports[digest := PendingImport(base, routes, parkedAt + TEN_MINUTES)];
      requests := requests[digest := request];
    }

    /** The pruning loop over the pending map; every turn reads the clock again. */
    method Prune(start: Time) returns (end: Time, ghost dropped: set<string>)
      modifies this`pendingImports
      ensures Prunes(old(pendingImports), start, end, dropped)
      ensures pendingImports == old(pendingImports) - dropped
    {
      end, dropped := start, {};
      var todo := pendingImports.Keys;
      while todo != {}
        invariant todo <= pendingImports.Keys && start <= end
        invariant pendingImports == old(pendingImports) - dropped
        invariant forall d :: d in pendingImports && d !in todo ==> pendingImports[d].expiresAt >= start
        invariant forall d :: d in dropped ==> d in old(pendingImports) && old(pendingImports)[d].expiresAt < end
      {
        var d :| d in todo;
        var now: Time :| now >= end;
        end := now;
        if pendingImports[d].expiresAt < now {
          pendingImports := pendingImports - {d};
          dropped := dropped + {d};
        }
        todo := todo - {d};
      }
    }

    /** ApplyImport: the digest is spent by the lookup, before anything else is checked. The
        statement numbered `failAt` of the replacement fails. */
    method ApplyImport(digest: string, now: Time, listFault: SqlFault, push: PushFault, failAt: nat,
                       rollback: PushFault)
      returns (error: Option<Error>)
      requires Valid()
      modifies store, proxy, this`pendingImports
      ensures Valid()
      ensures pendingImports == old(pendingImports) - {digest}
      ensures var pending := Lookup(old(pendingImports), digest);
              var persist := if pending.Some? && failAt <= |pending.value.routes| + 2 then WriteFault else NoFault;
              var outcome := Mutate(parseIp, store.zone, old(store.rows), old(proxy.live),
                                    ApplyPlanned(old(store.rows), pending, now, listFault), 0,
                                        Faults(push, persist, rollback));
              store.rows == outcome.rows && proxy.live == outcome.live && error == outcome.error
      ensures error.None? ==>
                && InAgreement() && digest in old(pendingImports) && digest in requests
                && var listing := SortByHost(old(store.rows));
                   var built := Build(parseIp, listing, requests[digest].entries, requests[digest].mode);
                   built.Ok? && IsDiff(listing, built.value) && SortByHost(store.rows) == built.value.routes
      ensures var good := digest in old(pendingImports) && now <= old(pendingImports)[digest].expiresAt;
              var current := good && old(pendingImports)[digest].baseFingerprint == SortByHost(old(store.rows));
              && (error == Some(ImportMissingOrExpired) <==> !good)
              && (!good ==> proxy.live == old(proxy.live))
              && (good && listFault == ReadFault ==> error == Some(SqlFailure) && proxy.live == old(proxy.live))
              && (good && listFault != ReadFault && !current ==>
                    error == Some(RoutesChangedAfterPreview) && proxy.live == old(proxy.live))
              && (error.None? <==>
                    current && listFault != ReadFault && ValidateZone(store.zone).None? && push == PushOk
                    && failAt > |old(pendingImports)[digest].routes| + 2)
      ensures error.Some? ==> store.rows == old(store.rows)
    {
      hide IsRoutesTable, Routes, Intent, Commit, SortByHost, WasPreviewed, Build, IsDiff, ValidateZone;
      ApplyDecides(parseIp, store.zone, store.rows, proxy.live, Lookup(pendingImports, digest),
        if digest in requests then requests[digest] else Request([], MERGE), now, listFault,
        Faults(push,
               if digest in pendingImports && failAt <= |pendingImports[digest].routes| + 2 then WriteFault
               else NoFault,
               rollback));
      var found := digest in pendingImports;
      if !found {
        pendingImports := pendingImports - {digest};
        return Some(ImportMissingOrExpired);
      }
      var pending := pendingImports[digest];
      pendingImports := pendingImports - {digest};
      if pending.expiresAt < now {
        return Some(ImportMissingOrExpired);
      }
      var listed := store.ListRoutes(listFault);
      if listed.Err? {
        return Some(listed.error);
      }
      var current := listed.value;
      if current != pending.baseFingerprint {
        return Some(RoutesChangedAfterPreview);
      }
      ghost var persist := if failAt <= |pending.routes| + 2 then WriteFault else NoFault;
      ImportServes(parseIp, store.zone, store.rows, proxy.live, requests[digest], pending, pending.routes,
                   Faults(push, persist, rollback));
      error := PushAndReplace(current, pending.routes, push, failAt, rollback);
    }

    /** Push, replace, and on failure push the old listing again. */
    method PushAndReplace(current: seq<Route>, routes: seq<Route>, push: PushFault, failAt: nat, rollback: PushFault)
      returns (error: Option<Error>)
      requires store.Valid()
      modifies store, proxy
      ensures store.Valid()
      ensures var persist := if failAt <= |routes| + 2 then WriteFault else NoFault;
              var outcome := Commit(parseIp, store.zone, old(store.rows), old(proxy.live),
                                    Plan(current, routes, ReplaceAll(routes)), 0, Faults(push, persist, rollback));
              store.rows == outcome.rows && proxy.live == outcome.live && error == outcome.error
    {
      hide Push, IsTable, AreRows;
      error := Apply(routes, push);
      if error.Some? {
        return;
      }
      error := store.ReplaceRoutes(routes, failAt);
      if error.Some? {
        var _ := Apply(current, rollback);
      }
    }

    /** ListRoutes with the last known health laid over the rows. */
    method ListRoutes(listFault: SqlFault) returns (result: Result<seq<Route>, Error>)
      requires Valid()
      ensures listFault == ReadFault ==> result == Err(SqlFailure)
      ensures listFault != ReadFault ==>
                var rows := SortByHost(store.rows);
                && result.Ok? && |result.value| == |rows|
                && forall i :: 0 <= i < |rows| ==>
                     && result.value[i].(health := HealthUnknown) == rows[i]
                     && result.value[i].health == if rows[i].id in health then health[rows[i].id] else HealthUnknown
    {
      ListedHealth(store.rows);
      var listed := store.ListRoutes(listFault);
      if listed.Err? {
        return listed;
      }
      var routes := listed.value;
      for i := 0 to |routes|
        invariant |routes| == |listed.value|
        invariant forall k :: 0 <= k < |routes| ==>
                    routes[k] == if k < i then WithHealth(listed.value[k], health) else listed.value[k]
      {
        if routes[i].id in health {
          routes := routes[i := routes[i].(health := health[routes[i].id])];
        }
      }
      return Ok(routes);
    }

    method ExportConfig(listFault: SqlFault, settingsFault: bool) returns (result: Result<PortableConfig, Error>)
      requires Valid()
      ensures listFault == ReadFault || settingsFault ==> result == Err(SqlFailure)
      ensures listFault != ReadFault && !settingsFault ==>
                result == Ok(PortableConfig(1, store.zone, Export(SortByHost(store.rows))))
      ensures result.Ok? && ValidateZone(store.zone).None? ==>
                forall stamps: seq<Stamp>, mode ::
                  |stamps| == |result.value.routes| && (mode == MERGE || mode == REPLACE) ==>
                    Previewed(parseIp, store.rows, result.value, stamps, mode, NoFault, false)
                    == Ok(Built(SortByHost(store.rows), Counts(0, 0, 0)))
    {
      hide SortByHost, IsRoutesTable, Previewed, ValidateZone, WasPreviewed;
      var listed := store.ListRoutes(listFault);
      if listed.Err? {
        return Err(listed.error);
      }
      if settingsFault {
        return Err(SqlFailure);
      }
      var portable: seq<Portable> := [];
      for i := 0 to |listed.value|
        invariant portable == Export(listed.value)[..i]
      {
        portable := portable + [PortableOf(listed.value[i])];
      }
      assert portable == Export(listed.value);
      var config := PortableConfig(1, store.zone, portable);
      ExportPreviewsAlways(parseIp, store.zone, store.rows, config);
      return Ok(config);
    }

    method SetHealth(id: string, status: HealthStatus)
      modifies this`health
      ensures health == old(health)[id := status]
    {
      health := health[id := status];
    }
  }

  lemma PreviewFits(parseIp: IpParser, rows: seq<Route>, entries: seq<Entry>, mode: string)
    requires IsRoutesTable(parseIp, rows) && FreshEntries(entries, Ids(rows))
    requires (mode == MERGE || mode == REPLACE) && Build(parseIp, SortByHost(rows), entries, mode).Ok?
    ensures var built := Build(parseIp, SortByHost(rows), entries, mode).value;
            && IsDiff(SortByHost(rows), built)
            && forall expiresAt ::
                 WasPreviewed(parseIp, Request(entries, mode), PendingImport(SortByHost(rows), built.routes, expiresAt))
  {
    hide Build, IsDiff, FreshEntries, Ids;
    SortedTable(rows);
    SortCorrect(rows);
    CountsAreTheDiff(parseIp, SortByHost(rows), entries, mode);
  }
}
