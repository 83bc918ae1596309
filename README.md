# certimate: the certificate renewal-and-deploy workflow, in Dafny

This project models the orchestration core of certimate: the `deploy`
workflow of package `domains` (`internal/domains/deploy.go`) and its two
record writers, `saveCert` and `setDeployed`. One run of the workflow:

1. **check**: loads the domain record by id, expands its `access` and
   `targetAccess` relations, and applies the renewal policy;
2. **apply**: unless the certificate still outlives a 24-hour margin,
   resolves an applicant, has it issue a certificate and stores it on the
   caller's record with an expiry 90 days out;
3. **deploy**: resolves a deployer, has it deploy, and stores the
   `deployed` flag.

Every step appends a phase-tagged entry to an audit history. The history is
committed exactly once when the run ends.

Files:

- `wrappers.dfy`: `Option` and `Result`.
- `domains.dfy` (module `Domains`) holds the model proper:
  - the phases, messages, errors, record fields and the renewal decision;
  - the caller's record as a class, with `SaveCert` and `SetDeployed`;
  - the audit history as a class;
  - the expansion-error loop;
  - a specification of a whole run as a function, `Run`, built from one
    function per stage;
  - the imperative `Deploy`, with one step method per stage. Each step
    method is proved to compute its stage function, so `Deploy` computes
    `Run`.
- `properties.dfy` (module `DeployProperties`): what every run guarantees,
  proved over `Run` for every caller's record and every answer of the
  outside world.

Everything the workflow asks of the outside world is an input, collected in
`Env`:

- the record lookup;
- the failed expansions;
- Go's iteration order over the map of failed expansions;
- the applicant's and deployer's answers;
- the two saves;
- the clock.

A run's external calls are returned as a `Call` sequence, so properties such
as "Apply is called once" or "no deployer call precedes an applicant call"
are stated over that sequence.

Two records take part in a run, and the model keeps them apart as the code
does:

- **The record as loaded at line 25** (`currRecord`). It is the
  `Env.lookup` value. The renewal decision reads it, and both provider
  lookups are handed it.
- **The caller's record.** It is the `Domains.Record` object. `saveCert`
  and `setDeployed` write only to it.

## Model

| member | source | states |
|---|---|---|
| Domains.Decide | internal/domains/deploy.go:53-64 | The three-way renewal decision on the loaded record: full skip iff a certificate is present, outlives the 24-hour margin and is deployed; skip issuance iff it is present and outlives the margin but is not deployed; issue iff it is absent or within the margin. |
| Domains.WithCertificate | internal/domains/deploy.go:119-126 | After saveCert, the record holds exactly the issued certificate's six fields, expires 90 days after `now`, and keeps its `deployed` flag. |
| Domains.WithDeployed | internal/domains/deploy.go:111-112 | After setDeployed, only the `deployed` flag differs; the certificate material and expiry are untouched. |
| Domains.Record.constructor | internal/domains/deploy.go:23 | The caller's record object holds the given id and field values. |
| Domains.SaveCert | internal/domains/deploy.go:119-132 | Sets the certificate fields and the 90-day expiry on the caller's record, hands the updated record to one save and returns that save's error. |
| Domains.SetDeployed | internal/domains/deploy.go:111-117 | Sets `deployed` on the caller's record, hands it to one save and returns that save's error. |
| Domains.History.constructor | internal/domains/deploy.go:26 | A new history for the record's id starts with no entries and no commits. |
| Domains.History.Record | internal/domains/deploy.go:29 | Recording appends exactly one entry and commits nothing. |
| Domains.History.Commit | internal/domains/deploy.go:27 | A commit persists the entries as they stand and changes none of them. |
| Domains.WrapAll | internal/domains/deploy.go:39-42 | One wrapped error per failed relation, at the relation's position in the iteration order, carrying that relation's name and error. |
| Domains.WrapExpandErrors | internal/domains/deploy.go:39-43 | The range loop builds exactly the `WrapAll` list for the map's iteration order. |
| Domains.Run | internal/domains/deploy.go:23-109 | The whole run as a value: the check-start entry, then the lookup, whose failure returns the lookup error with one call and the caller's record untouched, then the stages in order. Every run starts with the lookup call and has at least two entries. |
| Domains.ExpandStage | internal/domains/deploy.go:37-48 | The expansion is the stage's first call. Any failed relation returns the joined wrapped errors with that one call and no write; otherwise the decision follows. |
| Domains.DecideStage | internal/domains/deploy.go:50-64 | The decision opens with a complete check entry. It makes no call exactly when `Decide` says full skip; skip issuance goes to the deploy phase, anything else to the issuing branch. |
| Domains.IssueStage | internal/domains/deploy.go:65-86 | The issuing branch opens in the apply phase with the applicant lookup on the loaded record. A failed lookup returns its error with the caller's record untouched. The deployer is looked up exactly when the applicant resolves, Apply succeeds and the save of the certificate succeeds. |
| Domains.DeployStage | internal/domains/deploy.go:88-108 | The deploy phase logs its start and one outcome entry. It returns the deployer-lookup error if there is one, else Deploy's error. An unresolved deployer leaves the record as it was; otherwise the record's `deployed` flag becomes Deploy's success. |
| Domains.Deploy | internal/domains/deploy.go:23-109 | One run leaves the caller's record, the history entries, the returned error and the external calls exactly as `Run` says, and commits the history exactly once, on every exit path. |
| Domains.RunSteps | internal/domains/deploy.go:25-36 | The body of deploy up to the expansion, early returns included, computes `Run` and commits nothing. |
| Domains.ExpandSteps | internal/domains/deploy.go:37-48 | The expansion step and everything after it append exactly the entries `ExpandStage` lists and make exactly its calls. |
| Domains.DecideSteps | internal/domains/deploy.go:50-64 | The renewal decision and the start of the apply phase append exactly the entries `DecideStage` lists and make exactly its calls. |
| Domains.IssueSteps | internal/domains/deploy.go:65-86 | The issuing branch appends exactly the entries `IssueStage` lists, makes exactly its calls and writes the issued certificate to the caller's record. |
| Domains.DeploySteps | internal/domains/deploy.go:88-108 | The deploy phase appends exactly the entries `DeployStage` lists, makes exactly its calls and sets the caller's `deployed` flag to Deploy's success. |
| DeployProperties.WrapAllOnePerRelation | internal/domains/deploy.go:39-43 | The joined expansion error has exactly one sub-error per failed relation, each wrapping that relation's own error, with none repeated. |
| DeployProperties.DeployStageCalls | internal/domains/deploy.go:89-104 | The deploy phase resolves the deployer once, from the loaded record, never asks the applicant, calls Deploy once exactly when the deployer resolves, and leaves the certificate material alone. |
| DeployProperties.DeployStageShape | internal/domains/deploy.go:89-106 | The deploy phase's entries are in phase order, carry an error only on the last entry, and end complete exactly on success. |
| DeployProperties.IssueStageCalls | internal/domains/deploy.go:66-79 | The issuing branch resolves the applicant first and once, and calls Apply once exactly when the applicant resolves. |
| DeployProperties.IssueStageLookups | internal/domains/deploy.go:66-90 | In the issuing branch, both providers are resolved from the loaded record. |
| DeployProperties.IssueStageOrder | internal/domains/deploy.go:66-97 | In the issuing branch, every deployer call follows every applicant call. |
| DeployProperties.IssueStageTracked | internal/domains/deploy.go:79-104 | In the issuing branch, Deploy's outcome decides the flag as in the deploy phase. |
| DeployProperties.IssueStageShape | internal/domains/deploy.go:66-106 | The issuing branch's entries, deploy phase included, are well shaped and open in the apply phase. |
| DeployProperties.DecideStageShape | internal/domains/deploy.go:53-106 | The entries from the decision on are well shaped and open in the check phase. |
| DeployProperties.DecideStageTracked | internal/domains/deploy.go:53-104 | From the decision on, Deploy's outcome decides the flag, and without Deploy the caller's flag stays. |
| DeployProperties.LoadFailure | internal/domains/deploy.go:25-35 | A failed lookup returns its error with exactly two check entries, one call and the caller's record untouched. |
| DeployProperties.ExpandFailure | internal/domains/deploy.go:37-47 | A failed expansion returns the join of one wrapped error per failed relation, ends with the failing check entry, and makes no provider call or write. |
| DeployProperties.FullSkip | internal/domains/deploy.go:50-57 | A present certificate beyond the margin that is deployed ends the run successfully in the check phase, with no provider call and no write. |
| DeployProperties.ProvidersOnlyAfterCheck | internal/domains/deploy.go:25-66 | A provider is called if and only if the lookup and expansion succeed and the decision is not a full skip. |
| DeployProperties.SkipIssuanceStillDeploys | internal/domains/deploy.go:63-97 | A valid but undeployed certificate is not reissued: the calls are the lookup and expansion followed by exactly the deploy phase's calls, so there is no applicant call and no certificate save; certificate material and expiry are unchanged, the deployer is resolved once and Deploy is called once if it resolves. |
| DeployProperties.IssueThenDeploy | internal/domains/deploy.go:63-79 | An absent or expiring certificate makes the applicant lookup the first call after the check; the applicant is resolved once and Apply runs once if it resolves. |
| DeployProperties.ApplicantsBeforeDeployers | internal/domains/deploy.go:66-97 | In every run, every deployer call follows every applicant call. |
| DeployProperties.LookupsSeeLoadedRecord | internal/domains/deploy.go:25-90 | Both provider lookups are handed the record as loaded, never the caller's record that saveCert updates; a failed lookup makes no other call. |
| DeployProperties.IssueAndDeploySucceeds | internal/domains/deploy.go:63-108 | The all-success issuing run makes exactly the calls lookup, expand, applicant lookup, Apply, save of the issued record, deployer lookup, Deploy, and save with deployed = true. The record ends issued, expiring 90 days out and deployed. |
| DeployProperties.ApplyFailureStops | internal/domains/deploy.go:66-83 | An apply-stage failure returns that step's error, makes no deployer call and leaves `deployed` alone. A failed lookup or Apply leaves the caller's record untouched. The last entry is the failing apply entry. |
| DeployProperties.DeployedFlagTracksDeploy | internal/domains/deploy.go:97-108 | When Deploy runs, it runs once and second to last. It is followed by the save of the record whose flag is Deploy's success, and the run returns Deploy's error. Otherwise the caller's flag is unchanged. |
| DeployProperties.DeployPhaseFailure | internal/domains/deploy.go:89-101 | Once a run reaches the deploy phase, an unresolved deployer returns its error, makes no Deploy call, leaves `deployed` as the caller had it and ends with the failing deployer entry; a failed Deploy returns Deploy's error and ends with the failing deploy entry. |
| DeployProperties.SaveDeployedErrorIgnored | internal/domains/deploy.go:97-104 | The error of setDeployed's save changes nothing in the run's outcome. |
| DeployProperties.LogShape | internal/domains/deploy.go:29-106 | Every run's history starts with the check-start entry and has at least two entries. Phases never go back, and only the last entry may carry an error, which is the error returned. The last entry is complete exactly when the run succeeds. |
| DeployProperties.SecondRunSkips | internal/domains/deploy.go:50-57 | After a successful issuing run whose save of the `deployed` flag also succeeded, the last save is of the caller's record as the run left it; a second run loading that stored record within 89 days is a full skip. It makes only the lookup and expansion calls and records only check-phase entries. |
| DeployProperties.StaleDeployedFlagSkipsNewCertificate | internal/domains/deploy.go:90-128 | When the caller's record says deployed and a new certificate is issued and saved, but the deployer cannot be resolved, or Deploy fails and the save of the cleared flag fails, the run fails. The store then holds the new certificate with `deployed` still set, and any later run within 89 days fully skips it, so the new certificate is never deployed. |

## Left out

- The record store, the applicant and deployer implementations, the logger
  and the `context` are left out. Their answers are fields of `Env`, and
  the calls to them are returned as `Call` values. Logging has no effect on
  the outcome and is not modelled.
- The audit messages are modelled as tags (`Message`), not as the Chinese
  texts of the source.
- `NewHistory` and `history.commit` are modelled only by what deploy.go
  relies on. Entries are appended, and one commit runs on every exit path.
  How and where the history is persisted, and whether that write fails, is
  not part of this model.
- Time is a single integer `now` in nanoseconds for the clock reads of lines
  53, 63 and 126. Those are three reads of the wall clock in the source, a
  few instants apart. What the single reading loses: a certificate can
  cross the 24-hour margin between line 53 and line 63, and the source then
  issues a new certificate for an undeployed record where the model skips
  issuance; and line 126 reads the clock after Apply, so the stored expiry
  is in fact somewhat later than `now` plus 90 days. Go's `time.Until`
  saturates at the limits of `time.Duration`, which does not change the
  outcome of the 24-hour comparison, so the model compares unbounded
  integers.
- Go's map iteration order in lines 39-42 is unspecified. It is an input
  (`Env.expandOrder`) that must list each failed relation exactly once.
  `errors.Join` and `fmt.Errorf("…%w")` are modelled as the `Joined` and
  `Wrapped` error constructors.
- The `deploy` function is modelled as `Deploy` plus one step method per
  stage (`RunSteps`, `ExpandSteps`, `DecideSteps`, `IssueSteps`,
  `DeploySteps`). Each return statement of the source is an early return in
  the step method that holds it.
- Intended behaviour not kept by the code: every error of a run should be
  recorded and returned, none silently dropped. The code ignores the error
  returned by `setDeployed` at lines 98 and 104. The model follows the code
  (`SaveDeployedErrorIgnored`).
- Intended behaviour not kept by the code: a stored record should say
  `deployed` only if Deploy last succeeded for the certificate it holds.
  saveCert (lines 119-131) keeps the old flag next to a new certificate, and
  when the deployer cannot be resolved (lines 90-94), or Deploy fails and
  the save of the cleared flag fails (line 98), nothing clears it. The next
  run then skips the undeployed certificate at line 53. The model follows
  the code (`StaleDeployedFlagSkipsNewCertificate`).
- Intended behaviour not kept by the code: a record's certificate fields
  should be either all empty or all set. The code copies whatever the
  applicant returns, so this is not enforced and the model does not claim
  it.
- SecondRunSkips: covers only runs whose save of the `deployed` flag
  succeeded, because otherwise the stored record differs from the caller's
  record. When that save fails after a failed Deploy, the stored record
  keeps the flag saveCert left, which is the case
  `StaleDeployedFlagSkipsNewCertificate` states.
- Concurrency between runs on the same record is out of scope; the model
  describes one run at a time.
