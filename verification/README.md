# The route controller, modelled

This project models the controller of the local reverse proxy. The controller keeps a desired set
of routes in a SQLite table and pushes complete snapshots of it to Caddy. The two replicas can
disagree for a while: a push can be refused, a write can fail after the push, the push that rolls back can
fail too, the controller can crash in between, and an import is previewed against one state and
applied to another. The theorems say what holds anyway.

| File | Contents |
|---|---|
| `Text.dfy`, `Results.dfy` | string operations (byte order, splitting, trimming, lower case, decimals) and their laws; `Result` and `Option` |
| `Domain.dfy` | routes, validators, `NewRoute` and its fixpoint |
| `Listing.dfy` | lists of routes, their order and lookup by hostname |
| `Store.dfy` | the routes table as a class: compare-and-swap on revisions, UNIQUE columns, transactional replacement |
| `Caddy.dfy`, `Addresses.dfy` | the renderer, a first-match dispatch semantics for its output, and the addresses that proxy and probe dial |
| `Import.dfy`, `ImportLaws.dfy` | `buildImportedRoutes` and the laws of import and export |
| `Transactions.dfy`, `Effects.dfy` | what a mutation plans; push, persist and roll back as one outcome; what a caller gets |
| `Protocol.dfy`, `ProtocolRuns.dfy`, `Revisions.dfy`, `Agreement.dfy`, `Ledger.dfy`, `Progress.dfy` | the controller as a state machine over single steps, with its invariant and its theorems over whole runs |
| `Acceptance.dfy` | which calls are accepted, and with which error the others are refused, said on the input and the stored rows |
| `Service.dfy` | the service as a class over a store and a proxy, each method proved against the transaction functions |
| `Health.dfy`, `Sessions.dfy`, `EnvFile.dfy` | the health sweep, the session map, the installer's env file |

Two views of a mutation are connected. In `Service.dfy` it is a method whose contract gives the exact
table, proxy configuration and error for every combination of faults (`Commit`). In
`Protocol.dfy` it is a sequence of steps between which previews, lookups, clock ticks, crashes and proxy
restarts can happen. `Agreement.UninterruptedIsCommit` says that the steps of a mutation which
nothing interrupts compute the same outcome.

## Reading the main statements

- `Intent(rows)` is what a table asks for: by hostname, the fields that `Render` reads.
  `Routes(…, config, intent)` says that a live configuration answers every request, on every port and
  for every host, as the intent directly prescribes.
- `Build` is the specification of `buildImportedRoutes`; `Succeeds` says how a stored row may follow
  another (carried over, one revision on under the same id and creation time, or under a new id at
  revision 1).
- `IsAcceptable(input)` spells out which inputs ask for a route, and `AllFit(entries)` that every import does, on
  distinct hostnames. The contracts of the service say in these terms exactly which calls succeed.
- `Invariant` is kept by every step of the protocol. Its core: a pending import still is what its preview
  built, on ids that were never stored; the plan of the lock's holder cannot be refused by the store;
  and one id and revision never named two different rows.
- A `Run` is a list of states and the events between them; `IsRun` says that each state follows by one step.
- `Damages` lists the only steps after which store and proxy may stay apart: a crash after the push of
  a mutation and before its end, a rollback push that fails, the failed read-back of an update, and
  the proxy coming up on its bootstrap configuration. For each of them the exact condition under which the
  two still agree is proved as well (`Agreement.DamageShows`, `Transactions.CommitAgreesExactly`,
  `Agreement.BootstrapAgrees`).

## Assumptions

- Route ids (`randomID`) and import digests are fresh: an event that repeats one is no event. They can
  always be drawn.
- The fingerprint of a listing is injective, so it is modelled as the listing itself.
- The clock does not go back. Times are integers in nanoseconds.
- A `/load` that reports an error has changed nothing (docs/architecture.md:11 calls it atomic), and so
  has a SQL write that reports an error. A read may fail on its own, also the read that follows a
  write.
- Only the service writes the table, and the zone does not change while it runs.
- `net.ParseIP` is a parameter: any predicate that accepts only non-empty texts of hexadecimal
  digits, dots and colons.
- Session tokens are fresh.

## Where the obvious claim is false

- Importing the same file twice changes nothing only if it is in normal form: the comparison at
  internal/controller/config.go:158 reads the import as it was written
  (`ImportLaws.SecondImport`, `ImportLaws.UpperCaseImportCountsAgain`).
- A matching fingerprint does not mean that nothing happened since the preview
  (`Effects.DeleteUndoesCreate`). It means exactly that no previewed row was touched and that ids born
  since are gone again (`Revisions.MatchingFingerprint`); the import is the one that would be built at
  that moment (`ProtocolRuns.ImportIsLinearised`).
- docs/architecture.md:11 says that a failed persist reapplies the previous snapshot. When
  `store.UpdateRoute` fails only in its read-back (internal/store/store.go:165) the row has been written,
  and the snapshot that is reapplied is the wrong one (`Effects.LostReadBack`). The errors of rollback pushes
  are discarded (internal/controller/service.go:76, 118, 150 and internal/controller/config.go:126).
  `Transactions.CommitAgreesExactly` gives the exact condition for every combination of faults, and
  `Agreement.DamageShows` for crashes and for every rollback step.
- docs/architecture.md:13 promises that a proxy restart converges without manual action. Reconcile is
  called only when the controller starts (cmd/lrp-server/main.go:42), and the proxy starts without
  servers (internal/installer/assets/caddy-bootstrap.json:4). Until some push is accepted the two agree
  exactly while nothing is enabled (`Agreement.ProxyRestartLasts`).
- A health entry can outlive its route (`Health.HealthOutlivesRoute` is such a schedule): exactly when the
  delete comes before the running sweep has written the entry (`Health.EntryReturnsExactly`).
- The probe and the proxy dial differently for a bracketed IPv4 address (`Addresses.BracketedIpv4Differs`);
  `Addresses.ProbeDialsWhatProxyDials` says exactly when they do not.
- The rendered host can exceed 253 characters, exactly when hostname and zone have more than 252 together
  (`Domain.FullHostCanBeLong`).

## Model

| member | source | states |
|---|---|---|
| Domain.ValidDnsName | internal/domain/route.go:116-128 | The nested scan with its early exits answers yes exactly on the names whose labels are all non-empty, at most 63 long, without edge hyphens, of lower-case letters, digits and hyphens. |
| Domain.DnsNameGrammar | internal/domain/route.go:116-128 | The accepted names are exactly the dot-joins of one or more such labels (section 2.3.1 of RFC 1035, leading digits by section 2.1 of RFC 1123). |
| Domain.DnsNameComposition | internal/domain/route.go:116-128 | A dot-joined pair is a DNS name if and only if both parts are. |
| Domain.NewRoute | internal/domain/route.go:53-75 | Normalising field by field, then validating in order, gives the route or the first error of the specification `Admit`, which `AdmitsExactly` and `AdmitErrors` characterise. |
| Domain.AdmitsExactly | internal/domain/route.go:53-114 | An input is accepted if and only if, trimmed and in lower case, its hostname is a DNS name of at most 253 characters not under .test, its mode and scheme are http or https, its host is a DNS name or, bare or bracketed, an address, without any of `/?#@` or blanks, its port is 1 to 65535, and certificate checks are skipped only with https. |
| Domain.AdmitErrors | internal/domain/route.go:53-114 | A refused input gets the error of the first of these conditions that fails, in the source's order. |
| Domain.ZoneGrammar | internal/domain/route.go:87-95 | The accepted zones are exactly the dot-joins of two or more labels of which the last is "test". |
| Domain.NewRouteFixpoint | internal/domain/route.go:53-75 | What NewRoute accepts comes out in a normal form that it accepts again unchanged, up to the new id and time. |
| Domain.HostUnderZoneIsZone | internal/domain/route.go:77-95 | Every accepted hostname under every accepted zone renders to a host that passes ValidateZone. |
| Domain.FullHostInjective | internal/caddy/config.go:21 | Two hostnames render to the same host only if they are equal. |
| Domain.FullHostCanBeLong | internal/domain/route.go:77-95 | In every accepted zone some accepted hostname renders to a host longer than 253; a host keeps to 253 if and only if hostname and zone have at most 252 characters together. |
| Domain.DefaultZoneIsAccepted | internal/store/store.go:52 | The zone of a new installation passes ValidateZone. |
| Listing.SortCorrect | internal/store/store.go:118-134 | The listing holds exactly the routes of the table, as many of them, in strict hostname order. |
| Text.StrLessIsByteOrder | internal/store/store.go:118-134 | The order of hostnames is the order of `ORDER BY`: a proper prefix comes first, and otherwise the first position that differs decides. |
| Listing.SortDependsOnContent | internal/controller/config.go:175-179 | The sorted list depends only on which routes are in it, so neither map iteration nor row order shows. |
| Listing.ByHostFinds | internal/controller/config.go:133-142 | The map filled in a loop has exactly the listed hostnames as keys and, for distinct hostnames, finds each route. |
| Store.Store.CreateRoute | internal/store/store.go:74-96 | Appends the row, or reports a conflict exactly when its id or hostname is taken; on any error the table is unchanged. |
| Store.Store.GetRoute | internal/store/store.go:136-144 | Returns the row with the id, NotFound exactly when there is none, or the read failure. |
| Store.Store.UpdateRoute | internal/store/store.go:146-166 | Compare-and-swap: rewrites the row one revision on only at the expected revision and a free hostname; tells a missing from a stale row; after a failed read-back the row is written all the same. |
| Store.Store.DeleteRoute | internal/store/store.go:168-181 | Removes exactly the row with the id at the expected revision, else NotFound or RevisionConflict and no change. |
| Acceptance.InsertsExactly | internal/store/store.go:74-96 | An insert goes in if and only if neither its id nor its hostname is stored. |
| Acceptance.UpdatesExactly | internal/store/store.go:146-166 | A rewrite goes in if and only if its id is stored at the expected revision and no other row has its hostname, with one error for each way to fail; then exactly that row is replaced, field by field, one revision on. |
| Acceptance.DeletesExactly | internal/store/store.go:168-181 | A delete takes out all rows with the id and no other, if and only if the id is stored at the expected revision. |
| Store.Store.ReplaceRoutes | internal/store/store.go:98-116 | Ends with the old table or exactly the given routes, whichever statement fails; succeeds if and only if no statement fails and ids and hostnames are distinct. |
| Store.Store.ListRoutes | internal/store/store.go:118-134 | Returns the table in hostname order, with unknown health. |
| Store.ReplacedListing | internal/store/store.go:98-134 | After replacing by a sorted table, the next listing is that very list, in its order. |
| Caddy.Render | internal/caddy/config.go:10-51 | One pass over the list appends the three lists of the specification, or reports the zone's error; what they mean is `RenderPreservesMeaning`, `ProxySpeaksUpstream` and `RedirectHasOneHop`. |
| Caddy.RenderPreservesMeaning | internal/caddy/config.go:10-59 | For routes with distinct hostnames, first-match terminal dispatch of the output equals direct routing, on every port and for every host. |
| Caddy.RearrangementDispatchesAlike | internal/controller/service.go:72-182 | Appended, kept in place or sorted: rearranged lists of the same routes dispatch identically. |
| Caddy.RedirectHasOneHop | internal/caddy/config.go:23-29 | Only port 80 redirects, with status 308 (section 15.4.9 of RFC 9110), to the same host and URI under https, and that host on port 443 meets the proxy of its own route. |
| Caddy.ProxySpeaksUpstream | internal/caddy/config.go:61-83 | For every enabled route, a request for its host on the port of its mode meets exactly one proxy; it dials the upstream, speaks TLS if and only if the scheme is https, and then skips verification if and only if the upstream says so. |
| Caddy.SubjectsAreServedHosts | internal/caddy/config.go:41-49 | A certificate subject is listed exactly for the hosts that something answers for on port 443. |
| Addresses.ProbeDialsWhatProxyDials | internal/controller/health.go:81-87 | For every accepted upstream the probe dials the address the proxy dials if and only if the host is free of brackets or one balanced pair around an address with a colon (section 3.2.2 of RFC 3986). |
| Addresses.BracketedIpv4Differs | internal/caddy/config.go:61-70 | Where `127.0.0.1` parses as an address, some accepted upstream, namely that address in brackets, is dialled in two ways. |
| Addresses.AddressParsesBack | internal/caddy/config.go:61-70 | Cutting the dialled address at its last colon gives back the port and, under brackets, the accepted host up to loopback aliasing. |
| Addresses.LoopbackDialsDockerHost | internal/caddy/config.go:61-70 | For `localhost`, `127.0.0.1`, `::1` and `[::1]` proxy and probe both dial `host.docker.internal` at the upstream's port. |
| Addresses.OthersDialThemselves | internal/caddy/config.go:61-70 | Every other accepted well-bracketed host is dialled as itself, up to brackets, at its own port. |
| Addresses.ProbeNamesItsHost | internal/controller/health.go:81-87 | The server name a TLS probe asks for is the host of the address it dials, for every accepted upstream. |
| Import.BuildImportedRoutes | internal/controller/config.go:132-181 | Three maps, three counters, iteration in any order and a final sort compute the specification `Build`, errors included; when it succeeds is `Acceptance.BuildsExactly`, what it yields the laws of `ImportLaws`. |
| Import.OverlayImports | internal/controller/config.go:143-167 | The loop stops at the first bad or duplicate import with its error, and otherwise overlays the map it was given with the resolved imports and counts them. |
| Import.CountUnseen | internal/controller/config.go:168-174 | The deleted count is the number of current hostnames that no import mentions. |
| Import.Collect | internal/controller/config.go:175-178 | The list collected from the map holds exactly its routes, once each, whatever the iteration order. |
| Import.ResolvedFacts | internal/controller/config.go:143-167 | A resolved import has distinct hostnames, and each route stands for its entry. |
| Import.ResolvedBy | internal/controller/config.go:143-167 | Conversely, entries that are admitted with distinct hostnames resolve to those routes. |
| Import.ErrorPersists | internal/controller/config.go:143-152 | The first error of a prefix is the error of the whole import. |
| ImportLaws.ResolvedThreeWay | internal/controller/config.go:154-166 | Against a reachable listing an imported route is new at revision 1, equal to the stored one in every field, or the same id and creation time one revision on, stamped with the import's time. |
| ImportLaws.BuildIsTable | internal/controller/config.go:132-181 | The next list is sorted, has distinct ids and hostnames, holds only normal rows, and each of its routes succeeds a listed one or has a fresh id. |
| ImportLaws.CountsAreTheDiff | internal/controller/config.go:142-174 | Added, updated and deleted are the numbers of hostnames only in the next list, in both with a different route, and only in the current list; the sizes add up, in both modes. |
| ImportLaws.ImportIsOverride | internal/controller/config.go:137-167 | Merge is right-biased override by hostname; replace keeps nothing else. |
| ImportLaws.ReplaceThenExport | internal/controller/config.go:51-65 | Exporting after a replace yields the imported routes, normalised, one per import, sorted by hostname. |
| ImportLaws.ExportImportIdentity | internal/controller/config.go:51-181 | Importing a table's own export in either mode counts nothing and proposes the listing itself, ids, revisions and times included. |
| ImportLaws.SecondImport | internal/controller/config.go:183-185 | Importing the same configuration again counts and changes nothing if and only if every route in it is in normal form. |
| ImportLaws.UpperCaseImportCountsAgain | internal/controller/config.go:158 | An import of "APP", repeated, is no identity. |
| Acceptance.BuildsExactly | internal/controller/config.go:132-181 | Whatever is stored and in either mode, an import builds if and only if each of its routes is acceptable and their normalised hostnames are pairwise distinct. |
| Acceptance.BuildErrors | internal/controller/config.go:144-152 | Otherwise the error is that of the first route that fails one of the two: what NewRoute says of it under the hostname as written, or a duplicate of the normalised hostname. |
| Transactions.CreateIsSound | internal/controller/service.go:56-80 | Once its checks pass, a create persists into a reachable table that asks for what was pushed, on one new id. |
| Transactions.UpdateIsSound | internal/controller/service.go:82-122 | The same for an update, on no new id and one revision on, although list and table are in different orders. |
| Transactions.DeleteIsSound | internal/controller/service.go:124-157 | The same for a delete. |
| Transactions.ImportIsSound | internal/controller/config.go:105-130 | The same for an import whose base matches the table. |
| Transactions.ReconcileIsSound | internal/controller/service.go:159-167 | The listing that Reconcile pushes asks for what the table asks for. |
| Transactions.StoreCannotRefuse | internal/controller/service.go:67-146 | On a reachable table, a create, update, delete, import apply or Reconcile whose checks pass persists whenever the database works: no UNIQUE constraint and no stale revision is left to fail on. |
| Acceptance.CreatePlansExactly | internal/controller/service.go:67-71 | A create passes its check if and only if no stored row has its hostname; otherwise it is a conflict. |
| Acceptance.UpdatePlansExactly | internal/controller/service.go:93-107 | An update passes its checks if and only if some row has its id and revision and every row with the requested hostname has that id; a taken hostname comes before a missing id, and that before a stale revision. |
| Acceptance.DeletePlansExactly | internal/controller/service.go:131-145 | A delete passes its checks if and only if some row has its id and revision; missing and stale are told apart. |
| Acceptance.CommitErrors | internal/controller/service.go:72-79 | A planned transaction reports the first of settings, zone, proxy, write and read-back that fails, and succeeds if and only if none does. |
| Transactions.ChecksMakeSound | internal/controller/service.go:56-167 | The checks of every call leave only plans that keep the table reachable, ask for what is pushed, and bring in no other new ids than the drawn ones. |
| Transactions.CommitHeals | internal/controller/service.go:72-79 | Whatever the proxy held before, a transaction that succeeds, and one that fails to persist but rolls back, leaves it routing as the store asks. |
| Transactions.SameServiceExactly | internal/caddy/config.go:17-34 | No request can tell two intents apart if and only if the same hostnames are enabled with the same mode and proxy. |
| Transactions.ReadBackFailureDisagrees | internal/store/store.go:165 | After a failed read-back and an accepted rollback, proxy and store agree if and only if the old and the next list serve the same. |
| Transactions.CommitAgreesExactly | internal/controller/service.go:72-79 | For every combination of faults: a refused push changes neither side; otherwise proxy and store agree if and only if the table moved on exactly when the proxy stayed on the next list, or both lists serve the same. |
| Effects.CreateTakesEffect | internal/controller/service.go:56-80 | A persisted create adds exactly the requested route, enabled, at revision 1, under a hostname nobody had; every other row stays. |
| Effects.UpdateTakesEffect | internal/controller/service.go:105-121 | A persisted update frees the old hostname and serves exactly the request under the new one, same id and creation time, one revision on; every other row stays. |
| Effects.DeleteTakesEffect | internal/controller/service.go:131-152 | A persisted delete removes the route with that id at that revision and nothing else. |
| Effects.LostReadBack | internal/controller/service.go:112-120 | After an update whose read-back fails, proxy and store agree if and only if the rollback push is refused, or the stored and the requested route are both disabled, or enabled with the same hostname, mode and proxy. |
| Effects.DeleteUndoesCreate | internal/controller/config.go:119-121 | A create makes a parked import fail its fingerprint, and the delete that undoes it makes the import pass again: the very table is back. |
| Protocol.HistoryAdvances | internal/controller/config.go:154-165 | Persisting successors on ids that were never stored keeps a history in which an id and revision name one row and an id keeps its creation time. |
| Protocol.StepKeeps | internal/controller/service.go:56-182 | Every step, faulty or not, keeps the invariant. |
| Protocol.RunKeeps | internal/controller/service.go:56-182 | Every run keeps the invariant, under any interleaving of mutations, previews, applies, crashes and proxy restarts. |
| Protocol.InitHolds | internal/store/store.go:46-70 | A new installation satisfies the invariant, whatever the proxy was started with. |
| ProtocolRuns.StepMoves | internal/store/store.go:146-166 | In one step a row stays, or moves one revision on under the same id and creation time, and a new row has an id that was never stored. |
| ProtocolRuns.RunMoves | internal/store/store.go:146-166 | The same along every run. |
| ProtocolRuns.RevisionNamesContent | internal/controller/service.go:105-121 | At any two moments of any run, rows of one id are in revision order and are equal if their revisions are. |
| ProtocolRuns.RemovedIdNeverReturns | internal/controller/config.go:154-166 | An id that has left the table never comes back, not even by an import previewed earlier. |
| ProtocolRuns.StoredRoutesAreFixpoints | internal/domain/route.go:53-75 | In any run ids and hostnames are distinct and every stored row is at revision 1 or more, is acceptable as input, passes NewRoute unchanged, and skips certificate checks only with scheme https; its host is a valid zone. |
| Revisions.MatchingFingerprint | internal/controller/config.go:119-121 | Two moments of a run fingerprint alike if and only if no row of the first was touched at any moment in between and no new id is left at the second. |
| Revisions.RevisionCountsChanges | internal/store/store.go:146-166 | Every revision from 1 to the stored one was stored before it under the same id, so a revision counts the changes of its row. |
| Revisions.UpdateTakesWhatWasSeen | internal/controller/service.go:93-107 | If an update carrying the revision of a row its client saw takes the lock, that very row is still stored. |
| Revisions.NoLostUpdate | internal/store/store.go:146-166 | When an update of a seen row persists, the very row that was seen is stored, and it alone is replaced, by the request, one revision on. |
| ProtocolRuns.ImportIsLinearised | internal/controller/config.go:105-130 | A successful apply leaves exactly what the import would build from the store at that moment, whatever ran since the preview, and the preview's counts are the difference it makes. |
| ProtocolRuns.PersistCannotFail | internal/controller/service.go:72-78 | A working database persists every pushed plan, and the table then asks for what was pushed. |
| Agreement.StepAgrees | internal/controller/service.go:61-79 | Every step that does not damage keeps the proxy on the list that the phase of the lock's holder says. |
| Agreement.AgreementAtEveryStep | internal/controller/service.go:61-182 | Once proxy and store agree with the lock free, then until the next damage the proxy routes as the store asks or as the next list of the one mutation that holds the lock, and as the store asks whenever the lock is free. |
| Agreement.DamageShows | internal/controller/service.go:75-78 | After a crash past the push, and after the rollback step whichever way it goes, proxy and store agree if and only if the list the proxy is left on serves what the stored one does, a failed read-back before it included. |
| Agreement.RunServesPlan | internal/controller/service.go:72-78 | Past its push the holder of the lock has the proxy on its next list, whatever the persist did, as long as the proxy does not restart. |
| Agreement.BootstrapAgrees | internal/installer/assets/caddy-bootstrap.json:1-7 | A proxy on its bootstrap configuration agrees with the store if and only if the store has nothing enabled. |
| Agreement.ProxyRestartLasts | internal/installer/assets/compose.yaml:21 | After a restart of the proxy alone this stays so, whatever happens, until some push is accepted. |
| Agreement.UninterruptedIsCommit | internal/controller/service.go:72-79 | The steps of a mutation that nothing interrupts are the transaction function, for every combination of faults. |
| Agreement.UninterruptedReconcile | internal/controller/service.go:159-167 | The same for Reconcile. |
| Agreement.AcceptedPushHeals | internal/controller/service.go:169-182 | In any run and whatever the proxy held, one accepted push restores agreement at every later moment before the next damage. |
| Agreement.ReconcileHealsForGood | cmd/lrp-server/main.go:42 | After a restart, Reconcile with a working proxy restores agreement without touching the table, and it lasts until the next damage. |
| Ledger.LookupFollowsLedger | internal/controller/config.go:94-112 | In every run an apply gets past its lookup and its later look at the clock if and only if its digest was parked at most ten minutes before that look and no apply had asked for it; what previews pruned cannot be told. |
| Ledger.AppliedOnce | internal/controller/config.go:105-112 | Once a parked digest has been asked for, no later lookup of the run finds it, whatever became of that apply, and not even after a restart. |
| Progress.FaultlessCommit | internal/controller/service.go:72-79 | In a zone that renders, a planned mutation without faults succeeds, stores what it planned, and is served. |
| Progress.ImportGoesThrough | internal/controller/config.go:67-130 | Wherever the lock is free, an import that builds can be previewed, parked, taken, cleared, pushed and persisted; then the store lists exactly what was built and the proxy serves it. |
| Progress.MutationGoesThrough | internal/controller/service.go:56-157 | Wherever the lock is free, a create, update or delete whose checks pass can take it, push and persist; then the store asks for what was planned and the proxy serves it. |
| Service.CommitKeeps | internal/controller/service.go:72-79 | Whatever fails, a sound plan leaves a reachable table, and the old one unless the change went in. |
| Service.ReplaceRoute | internal/controller/service.go:184-194 | A copy with the holder of the id overwritten in place and nothing else changed. |
| Service.ScanForUpdate | internal/controller/service.go:93-104 | The single scan reports a conflict if and only if some row of another id has the hostname, then NotFound if and only if no row has the id, else the row with the id. |
| Service.ScanForDelete | internal/controller/service.go:131-145 | The single scan returns the other routes in order, or tells a missing id from a stale revision. |
| Service.Service.Apply | internal/controller/service.go:169-182 | Settings, render, load: the first failure is reported and leaves the proxy as it was. |
| Service.Service.CreateRoute | internal/controller/service.go:56-80 | Table, proxy and result are those of the transaction for every fault. It succeeds if and only if the input is acceptable, no stored row has its hostname, the zone is valid and listing, push and insert work; a taken hostname is a conflict with nothing pushed. On success the intent gained exactly the request and proxy and store agree; on error the table is unchanged. |
| Service.Service.UpdateRoute | internal/controller/service.go:82-122 | The same for an update, on the row with the given id and revision and a hostname no other row has; a taken hostname, a missing id and a stale revision are told apart, with nothing pushed. On error the table is unchanged unless only the read-back failed. |
| Service.Service.DeleteRoute | internal/controller/service.go:124-157 | The same for a delete; missing and stale are told apart, with nothing pushed; the health entry goes exactly on success. |
| Service.Service.Reconcile | internal/controller/service.go:159-167 | Pushes the listing, whatever the proxy holds; it succeeds if and only if listing, settings, zone and proxy do, then proxy and store agree, and else the proxy is left alone. |
| Service.Service.PreviewImport | internal/controller/config.go:67-103 | Succeeds if and only if the version is 1, the mode merge or replace, the exported zone valid, all imports fit and the reads work, and then parks what the import builds on the listing, with exact counts, for ten minutes from a last look at the clock; otherwise nothing is parked, and an import that does not fit is reported by the error of its first misfit. |
| Service.PreviewErrors | internal/controller/config.go:67-91 | A refused preview reports the first check it fails: version, mode, exported zone, listing, the first import that does not fit, settings. |
| Service.PreviewParkStep | internal/controller/config.go:94-101 | On the pending map, pruning and parking are the protocol's parking step, so the theorems over runs speak of this map. |
| Service.Service.Park | internal/controller/config.go:93-101 | Under the pending lock: prune, then park for ten minutes from a last look at the clock. |
| Service.Service.Prune | internal/controller/config.go:95-99 | The loop, reading the clock at each entry, drops every entry that had expired when it began and only entries that have expired when it ends. |
| Service.Service.ApplyImport | internal/controller/config.go:105-130 | The digest is spent first. It is reported missing or expired if and only if it was not pending or its ten minutes are over at the look at the clock, and then neither table nor proxy moves; a listing other than the previewed one is refused likewise. It succeeds if and only if neither is the case and listing, zone, push and every statement work; then the next listing is exactly what the previewed import would build from the listing found, and proxy and store agree. On any error the table is unchanged. |
| Service.ApplyLookupSteps | internal/controller/config.go:105-112 | On the pending map, the lookup and the later look at the clock are the protocol's steps: they spend the digest, and let the apply pass if and only if the entry was there and has not expired. |
| Service.Service.ListRoutes | internal/controller/service.go:37-50 | The listing, each route with the health entry under its id, unknown where there is none, and with nothing else changed. |
| Service.Service.ExportConfig | internal/controller/config.go:51-65 | Version 1, the zone, and the portable fields of the listing in its order; in a valid zone a preview of it in either mode succeeds with nothing added, updated or deleted. |
| Health.AtMostEightProbes | internal/controller/health.go:34-59 | Under every interleaving the holders are as many as the tokens in the channel, and at most eight. |
| Health.SweepIsBounded | internal/controller/health.go:34-59 | No run of a sweep takes more than four steps a route. |
| Health.SweepIsNeverStuck | internal/controller/health.go:34-59 | Until it is over, some step of the sweep can be taken, so a sweep whose probes return finishes. |
| Health.SweepCoversAll | internal/controller/health.go:41-58 | A finished, uncancelled sweep has recorded the probe's result for each enabled route and unknown for each disabled one, unless a delete removed the entry. |
| Health.EntryReturnsExactly | internal/controller/health.go:41-58 | When a sweep is over uncancelled, the entry of a route deleted during it is back if and only if its goroutine was not spawned, waiting or probing at the delete. |
| Sessions.Auth.NewSession | internal/api/auth.go:79-94 | Issues for twelve hours, drops only entries past their expiry, and leaves none that had expired before. |
| Sessions.Auth.ValidSession | internal/api/auth.go:96-105 | Answers whether the entry is still good, and deletes it exactly when it is not. |
| Sessions.ValidMeansRecent | internal/api/auth.go:79-105 | For every interleaving of issue, prune and question, a session is valid if and only if its token was issued less than twelve hours earlier. |
| EnvFile.ReadEnv | internal/installer/installer.go:206-219 | The loop over the lines computes the parse: cut at the first "=", later lines win, lines without one say nothing. |
| EnvFile.ParsesAssignments | internal/installer/installer.go:206-219 | A key reads as a value if and only if the last line that assigns to the key, up to its first "=", assigns that value. |
| EnvFile.ReplaceEnv | internal/installer/installer.go:221-233 | The updated entry and the four printed lines, in order, with missing entries empty. |
| EnvFile.ReplacedText | internal/installer/installer.go:221-233 | The new text is the four lines of zone, port, version and token, each with the value found or replaced, or empty. |
| EnvFile.PrintParses | internal/installer/installer.go:206-233 | Parsing a print of newline-free values gives exactly the printed entries; values may hold "=". |
| EnvFile.InstallReadsBack | internal/installer/installer.go:162-163 | A new installation reads back exactly the four entries it was given. |
| EnvFile.ReplaceChangesOne | internal/installer/installer.go:221-233 | Replacing one of the four keys changes that entry among the four and no other; repeating it leaves the text unchanged. |
| EnvFile.ReplaceReadsBack | internal/installer/installer.go:221-233 | A replaced value reads back if and only if it holds no newline. |

## Left out

- HTTP handlers, JSON decoding, problem responses, cookies, Origin and Host checks (internal/api/handler.go and the rest of internal/api/auth.go): single-branch plumbing.
- The Caddy admin client, SQLite itself, migrations and WAL: replaced by outcomes of each call and by the table.
- SHA-256, JSON and time formatting, `crypto/rand`: see the assumptions.
- The TCP and TLS probe and the ticker: a probe is any result, and one sweep is modelled at a time, as the ticker loop runs them.
- Non-ASCII case folding: lower case is exact wherever the result is ASCII, which covers every accepted name; a zone with a non-ASCII capital is refused with the error of the label check instead of the one before it. Invalid UTF-8 is not modelled.
- Caddy's host matching is taken as exact string equality, and its automatic HTTPS is not modelled; of the rendered JSON the admin address, the certificate authority's name and the empty TLS policy are dropped, as they decide nothing about dispatch.
- `SetZone` and a changing zone: it has no caller in the running controller.
- The width of `int64` revisions: they are unbounded here.
- Reading and writing the env file on disk, and the rest of the installer, the CLI, upgrades, Compose, host setup, CoreDNS and the dashboard.
- Goroutines and locks of the class: `Service.dfy` has whole calls, one at a time; the interleaving of their steps is the subject of `Protocol.dfy` and `Health.dfy`, which work on values.
- Store.Store.ReplaceRoutes: every failure inside the transaction is reported as one SQL error, without the statement's name in the message. Error texts in general are error values here.
- Import.BuildImportedRoutes: the ids and times that its `NewRoute` calls draw are inputs, one per imported route.
