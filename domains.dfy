/**
  The certificate renewal-and-deploy workflow of a domain configuration
  (package `domains`, file internal/domains/deploy.go).

  One run loads the domain's record afresh, expands its access relations,
  decides whether a certificate must be issued and/or deployed, asks the
  applicant for a certificate, stores it, asks the deployer to install it and
  stores the `deployed` flag, recording every step in an audit history that is
  committed exactly once when the run ends.

  Everything the run asks of the outside world (the record store, the
  applicant, the deployer, the wall clock and the iteration order of a Go map)
  is an input, collected in `Env`.
*/
module Domains {
  import opened Wrappers

  // ---------------------------------------------------------------------------
  // Time. Go's time.Duration counts nanoseconds; timestamps here are integer
  // nanoseconds on the same scale.

  const Hour: int := 3_600_000_000_000

  /** A certificate closer than this to its expiry is renewed (deploy.go:53, 63). */
  const RenewMargin: int := 24 * Hour

  /** The expiry stored after an issuance: fixed 90 days after issuance time (deploy.go:126). */
  const CertValidity: int := 90 * 24 * Hour

  // ---------------------------------------------------------------------------
  // Data model

  /** The three phase tags of the audit history (deploy.go:15-21). */
  datatype Phase = CheckPhase | ApplyPhase | DeployPhase

  /** The messages the workflow records, as tags; each names the step it reports. */
  datatype Message =
    | CheckStarted        // checking starts
    | LoadFailed          // fetching the domain configuration failed
    | Loaded              // the record was fetched
    | ExpandFailed        // resolving the access relations failed
    | Expanded            // the access relations were resolved
    | SkippedAll          // certificate valid and already deployed: nothing to do
    | CheckPassed         // the check phase ends and the run goes on
    | ApplyStarted        // the apply phase starts
    | SkippedIssuance     // certificate still valid: no new one is requested
    | ApplicantFailed     // no applicant could be resolved
    | IssueFailed         // the applicant could not issue a certificate
    | Issued              // the applicant issued a certificate
    | SaveFailed          // storing the new certificate failed
    | CertSaved           // the apply phase ends (also on the skip path)
    | DeployStarted       // the deploy phase starts
    | DeployerFailed      // no deployer could be resolved
    | DeployFailed        // the deployer could not install the certificate
    | Deployed            // the certificate was installed

  /**
    Errors. External failures are opaque codes; the workflow itself builds a
    wrapped error per failed relation and joins them (deploy.go:39-43).
  */
  datatype Error =
    | Fault(code: nat)
    | Wrapped(relation: string, cause: Error)
    | Joined(parts: seq<Error>)

  /** One audit entry: phase, message, optional error, and the "phase complete" flag. */
  datatype Entry = Entry(phase: Phase, message: Message, err: Option<Error>, complete: bool)

  /** What an applicant issues (the six fields deploy.go:120-125 copy). */
  datatype Certificate = Certificate(
    certUrl: string,
    certStableUrl: string,
    privateKey: string,
    certificate: string,
    issuerCertificate: string,
    csr: string)

  /** The fields of a `domains` record that this workflow reads or writes. */
  datatype Fields = Fields(
    certUrl: string,
    certStableUrl: string,
    privateKey: string,
    certificate: string,
    issuerCertificate: string,
    csr: string,
    expiredAt: int,
    deployed: bool)

  /** The certificate material a record holds. */
  function CertOf(f: Fields): Certificate {
    Certificate(f.certUrl, f.certStableUrl, f.privateKey, f.certificate, f.issuerCertificate, f.csr)
  }

  /** The external calls a run makes, in the order it makes them. */
  datatype Call =
    | FindRecord                 // Dao().FindRecordById
    | ExpandRecord               // Dao().ExpandRecord of "access" and "targetAccess"
    | ApplicantGet(from: Fields) // applicant.Get, given the record as loaded
    | ApplicantApply             // applicant's Apply
    | SaveRecord(saved: Fields)  // Dao().SaveRecord of the caller's record, with what it held
    | DeployerGet(from: Fields)  // deployer.Get, given the record as loaded
    | DeployerDeploy             // deployer's Deploy

  /** Whether a call goes to a certificate provider rather than to the record store. */
  predicate IsProviderCall(c: Call) {
    c.ApplicantGet? || c.ApplicantApply? || c.DeployerGet? || c.DeployerDeploy?
  }

  // ---------------------------------------------------------------------------
  // Renewal decision (deploy.go:53 and 63)

  /** The shared guard of deploy.go:53 and 63: a certificate exists and outlives the margin. */
  predicate CertStillValid(cert: string, expiredAt: int, now: int) {
    cert != "" && expiredAt - now > RenewMargin
  }

  datatype Decision = SkipAll | SkipIssuance | IssueAndDeploy

  /** The three-way renewal decision taken on the freshly loaded record. */
  function Decide(cert: string, expiredAt: int, deployed: bool, now: int): (d: Decision)
    ensures d == SkipAll <==> cert != "" && expiredAt - now > RenewMargin && deployed
    ensures d == SkipIssuance <==> cert != "" && expiredAt - now > RenewMargin && !deployed
    ensures d == IssueAndDeploy <==> cert == "" || expiredAt - now <= RenewMargin
  {
    if CertStillValid(cert, expiredAt, now) && deployed then SkipAll
    else if CertStillValid(cert, expiredAt, now) then SkipIssuance
    else IssueAndDeploy
  }

  // ---------------------------------------------------------------------------
  // Record mutations (saveCert, setDeployed)

  /** The record after saveCert: the issued certificate and a 90-day expiry, nothing else. */
  function WithCertificate(f: Fields, c: Certificate, now: int): (r: Fields)
    ensures CertOf(r) == c
    ensures r.expiredAt == now + CertValidity
    ensures r.deployed == f.deployed
  {
    Fields(c.certUrl, c.certStableUrl, c.privateKey, c.certificate, c.issuerCertificate, c.csr,
           now + CertValidity, f.deployed)
  }

  /** The record after setDeployed: only the `deployed` flag differs. */
  function WithDeployed(f: Fields, deployed: bool): (r: Fields)
    ensures r.deployed == deployed
    ensures CertOf(r) == CertOf(f) && r.expiredAt == f.expiredAt
  {
    f.(deployed := deployed)
  }

  /** The caller's in-memory record (a `*models.Record`), updated field by field. */
  class Record {
    const id: string
    var certUrl: string
    var certStableUrl: string
    var privateKey: string
    var certificate: string
    var issuerCertificate: string
    var csr: string
    var expiredAt: int
    var deployed: bool

    function Value(): Fields
      reads this
    {
      Fields(certUrl, certStableUrl, privateKey, certificate, issuerCertificate, csr, expiredAt, deployed)
    }

    constructor (id: string, f: Fields)
      ensures this.id == id && Value() == f
    {
      this.id := id;
      certUrl, certStableUrl, privateKey := f.certUrl, f.certStableUrl, f.privateKey;
      certificate, issuerCertificate, csr := f.certificate, f.issuerCertificate, f.csr;
      expiredAt, deployed := f.expiredAt, f.deployed;
    }
  }

  /**
    saveCert (deploy.go:119-132): copies the six certificate fields, sets the
    expiry to now + 90 days and saves the record once. `saveErr` is what the
    store's save reports; `saved` is the record value it was handed.
  */
  method SaveCert(record: Record, cert: Certificate, now: int, saveErr: Option<Error>)
    returns (err: Option<Error>, saved: Fields)
    modifies record
    ensures record.Value() == WithCertificate(old(record.Value()), cert, now)
    ensures saved == record.Value()
    ensures err == saveErr
  {
    record.certUrl := cert.certUrl;
    record.certStableUrl := cert.certStableUrl;
    record.privateKey := cert.privateKey;
    record.certificate := cert.certificate;
    record.issuerCertificate := cert.issuerCertificate;
    record.csr := cert.csr;
    record.expiredAt := now + CertValidity;
    saved := record.Value();
    err := saveErr;
  }

  /** setDeployed (deploy.go:111-117): sets the flag and saves the record once. */
  method SetDeployed(record: Record, deployed: bool, saveErr: Option<Error>)
    returns (err: Option<Error>, saved: Fields)
    modifies record
    ensures record.Value() == WithDeployed(old(record.Value()), deployed)
    ensures saved == record.Value()
    ensures err == saveErr
  {
    record.deployed := deployed;
    saved := record.Value();
    err := saveErr;
  }

  // ---------------------------------------------------------------------------
  // Audit history

  /**
    The run's audit history: entries are only ever appended; `committed` lists
    what each commit persisted.
  */
  class History {
    const domainId: string
    var entries: seq<Entry>
    var committed: seq<seq<Entry>>

    constructor (domainId: string)
      ensures this.domainId == domainId && entries == [] && committed == []
    {
      this.domainId := domainId;
      entries, committed := [], [];
    }

    method Record(phase: Phase, message: Message, err: Option<Error>, complete: bool)
      modifies this
      ensures entries == old(entries) + [Entry(phase, message, err, complete)]
      ensures committed == old(committed)
    {
      entries := entries + [Entry(phase, message, err, complete)];
    }

    method Commit()
      modifies this
      ensures entries == old(entries)
      ensures committed == old(committed) + [entries]
    {
      committed := committed + [entries];
    }
  }

  // ---------------------------------------------------------------------------
  // Expansion errors (deploy.go:37-43)

  predicate Distinct(s: seq<string>) {
    forall i, j :: 0 <= i < j < |s| ==> s[i] != s[j]
  }

  function ElementsOf(s: seq<string>): set<string> {
    set n | n in s
  }

  /** `order` lists every key of `keys` exactly once, as ranging over a Go map does. */
  predicate Enumerates(order: seq<string>, keys: set<string>) {
    Distinct(order) && ElementsOf(order) == keys
  }

  /** The wrapped sub-errors, one per failed relation, in iteration order. */
  function WrapAll(order: seq<string>, errs: map<string, Error>): (parts: seq<Error>)
    requires forall n :: n in order ==> n in errs
    ensures |parts| == |order|
    ensures forall i :: 0 <= i < |order| ==> parts[i] == Wrapped(order[i], errs[order[i]])
  {
    if order == [] then []
    else
      var last := order[|order| - 1];
      WrapAll(order[..|order| - 1], errs) + [Wrapped(last, errs[last])]
  }

  /**
    The loop of deploy.go:39-42: ranges over the failed relations in `order`
    (Go's iteration order) and appends one wrapped error per relation.
  */
  method WrapExpandErrors(errs: map<string, Error>, order: seq<string>) returns (errList: seq<Error>)
    requires Enumerates(order, errs.Keys)
    ensures errList == WrapAll(order, errs)
  {
    errList := [];
    var i := 0;
    while i < |order|
      invariant 0 <= i <= |order|
      invariant errList == WrapAll(order[..i], errs)
    {
      var name := order[i];
      assert order[..i + 1][..i] == order[..i];
      errList := errList + [Wrapped(name, errs[name])];
      i := i + 1;
    }
    assert order[..i] == order;
  }

  // ---------------------------------------------------------------------------
  // The environment of one run

  /** What the outside world answers during one run. */
  datatype Env = Env(
    now: int,                            // the clock, read by lines 53, 63 and 126
    lookup: Result<Fields, Error>,       // FindRecordById: the record as currently stored
    expandErrs: map<string, Error>,      // ExpandRecord: the relations that failed to expand
    expandOrder: seq<string>,            // the order in which ranging over expandErrs visits them
    applicantErr: Option<Error>,         // applicant.Get
    issued: Result<Certificate, Error>,  // Apply
    saveCertErr: Option<Error>,          // the save inside saveCert
    deployerErr: Option<Error>,          // deployer.Get
    deployErr: Option<Error>,            // Deploy
    saveDeployedErr: Option<Error>)      // the save inside setDeployed
  {
    predicate WellFormed() {
      Enumerates(expandOrder, expandErrs.Keys)
    }
  }

  // ---------------------------------------------------------------------------
  // The run as a function of the caller's record and the environment

  /**
    What a run, or the part of it from some step on, produces: the returned
    error, the caller's record afterwards, and the audit entries and the
    external calls of that part, in order.
  */
  datatype Outcome = Outcome(err: Option<Error>, record: Fields, log: seq<Entry>, calls: seq<Call>)

  /** The outcome of a run whose earlier steps recorded `log` and made `calls`. */
  function After(log: seq<Entry>, calls: seq<Call>, rest: Outcome): Outcome {
    rest.(log := log + rest.log, calls := calls + rest.calls)
  }

  function Note(p: Phase, m: Message): Entry {
    Entry(p, m, None, false)
  }

  function Done(p: Phase, m: Message): Entry {
    Entry(p, m, None, true)
  }

  function Failed(p: Phase, m: Message, e: Option<Error>): Entry {
    Entry(p, m, e, false)
  }

  /** The run of deploy.go:23-109 on the caller's record `before`. */
  function Run(before: Fields, env: Env): (o: Outcome)
    requires env.WellFormed()
    ensures |o.log| >= 2 && o.log[0] == Note(CheckPhase, CheckStarted)
    ensures |o.calls| > 0 && o.calls[0] == FindRecord
    ensures env.lookup.Failure? ==> o.err == Some(env.lookup.error) && o.record == before && |o.calls| == 1
  {
    match env.lookup
    case Failure(e) =>
      Outcome(Some(e), before, [Note(CheckPhase, CheckStarted), Failed(CheckPhase, LoadFailed, Some(e))], [FindRecord])
    case Success(curr) =>
      After([Note(CheckPhase, CheckStarted), Note(CheckPhase, Loaded)], [FindRecord], ExpandStage(before, env, curr))
  }

  /** The expansion of the access relations of the loaded record `curr` (deploy.go:37-48), and on. */
  function ExpandStage(before: Fields, env: Env, curr: Fields): (o: Outcome)
    requires env.WellFormed()
    ensures |o.calls| > 0 && o.calls[0] == ExpandRecord
    ensures |env.expandErrs| > 0 ==> o.err.Some? && o.record == before && o.calls == [ExpandRecord]
  {
    if |env.expandErrs| > 0 then
      var e := Some(Joined(WrapAll(env.expandOrder, env.expandErrs)));
      Outcome(e, before, [Failed(CheckPhase, ExpandFailed, e)], [ExpandRecord])
    else
      After([Note(CheckPhase, Expanded)], [ExpandRecord], DecideStage(before, env, curr))
  }

  /**
    The renewal decision on the loaded record `curr` (deploy.go:50-64, 86):
    stop, go straight to the deploy phase, or issue first.
  */
  function DecideStage(before: Fields, env: Env, curr: Fields): (o: Outcome)
    ensures |o.log| > 0 && o.log[0].phase == CheckPhase && o.log[0].complete
    ensures o.calls == [] <==> Decide(curr.certificate, curr.expiredAt, curr.deployed, env.now) == SkipAll
  {
    match Decide(curr.certificate, curr.expiredAt, curr.deployed, env.now)
    case SkipAll =>
      Outcome(None, before, [Done(CheckPhase, SkippedAll)], [])
    case SkipIssuance =>
      After([Done(CheckPhase, CheckPassed), Note(ApplyPhase, ApplyStarted),
             Note(ApplyPhase, SkippedIssuance), Done(ApplyPhase, CertSaved)],
            [], DeployStage(before, env, curr))
    case IssueAndDeploy =>
      After([Done(CheckPhase, CheckPassed), Note(ApplyPhase, ApplyStarted)], [], IssueStage(before, env, curr))
  }

  /**
    The issuing branch of the apply phase (deploy.go:66-86), then the deploy
    phase; both providers are resolved from the loaded record `curr`, while
    the certificate is written to the caller's record.
  */
  function IssueStage(before: Fields, env: Env, curr: Fields): (o: Outcome)
    ensures |o.log| > 0 && o.log[0].phase == ApplyPhase
    ensures |o.calls| > 0 && o.calls[0] == ApplicantGet(curr)
    ensures DeployerGet(curr) in o.calls <==> env.applicantErr.None? && env.issued.Success? && env.saveCertErr.None?
    ensures env.applicantErr.Some? ==> o.err == env.applicantErr && o.record == before
  {
    if env.applicantErr.Some? then
      Outcome(env.applicantErr, before, [Failed(ApplyPhase, ApplicantFailed, env.applicantErr)], [ApplicantGet(curr)])
    else
      match env.issued
      case Failure(e) =>
        Outcome(Some(e), before, [Failed(ApplyPhase, IssueFailed, Some(e))], [ApplicantGet(curr), ApplicantApply])
      case Success(cert) =>
        var rec := WithCertificate(before, cert, env.now);
        if env.saveCertErr.Some? then
          Outcome(env.saveCertErr, rec,
                  [Note(ApplyPhase, Issued), Failed(ApplyPhase, SaveFailed, env.saveCertErr)],
                  [ApplicantGet(curr), ApplicantApply, SaveRecord(rec)])
        else
          After([Note(ApplyPhase, Issued), Done(ApplyPhase, CertSaved)],
                [ApplicantGet(curr), ApplicantApply, SaveRecord(rec)],
                DeployStage(rec, env, curr))
  }

  /**
    The deploy phase (deploy.go:89-108): the deployer is resolved from the
    loaded record `curr`, the flag is set on the caller's record `rec`, and
    the save error of setDeployed is dropped.
  */
  function DeployStage(rec: Fields, env: Env, curr: Fields): (o: Outcome)
    ensures |o.log| == 2 && o.log[0] == Note(DeployPhase, DeployStarted)
    ensures o.err == if env.deployerErr.Some? then env.deployerErr else env.deployErr
    ensures o.record == if env.deployerErr.Some? then rec else WithDeployed(rec, env.deployErr.None?)
  {
    if env.deployerErr.Some? then
      Outcome(env.deployerErr, rec,
              [Note(DeployPhase, DeployStarted), Failed(DeployPhase, DeployerFailed, env.deployerErr)],
              [DeployerGet(curr)])
    else
      var rec := WithDeployed(rec, env.deployErr.None?);
      var calls := [DeployerGet(curr), DeployerDeploy, SaveRecord(rec)];
      if env.deployErr.Some? then
        Outcome(env.deployErr, rec,
                [Note(DeployPhase, DeployStarted), Failed(DeployPhase, DeployFailed, env.deployErr)], calls)
      else
        Outcome(None, rec, [Note(DeployPhase, DeployStarted), Done(DeployPhase, Deployed)], calls)
  }

  // ---------------------------------------------------------------------------
  // The run, step by step

  /**
    deploy (deploy.go:23-109). The history is created at the start and
    committed once after the steps, whichever way they ended: the `defer` of
    line 27.
  */
  method Deploy(record: Record, env: Env) returns (err: Option<Error>, history: History, calls: seq<Call>)
    requires env.WellFormed()
    modifies record
    ensures fresh(history)
    ensures history.domainId == record.id
    ensures history.committed == [history.entries]
    ensures Outcome(err, record.Value(), history.entries, calls) == Run(old(record.Value()), env)
  {
    history := new History(record.id);
    err, calls := RunSteps(record, history, env);
    history.Commit();
  }

  /**
    The body of deploy up to the expansion (deploy.go:25-36), appending to
    `history` as it goes; it returns at the first failure.
  */
  method RunSteps(record: Record, history: History, env: Env) returns (err: Option<Error>, calls: seq<Call>)
    requires env.WellFormed()
    requires history.entries == [] && history.committed == []
    modifies record, history
    ensures history.committed == []
    ensures Outcome(err, record.Value(), history.entries, calls) == Run(old(record.Value()), env)
  {
    // 1. check
    calls := [FindRecord];
    history.Record(CheckPhase, CheckStarted, None, false);
    if env.lookup.Failure? {
      err := Some(env.lookup.error);
      history.Record(CheckPhase, LoadFailed, err, false);
      return;
    }
    history.Record(CheckPhase, Loaded, None, false);
    assert history.entries == [Note(CheckPhase, CheckStarted), Note(CheckPhase, Loaded)];
    assert record.Value() == old(record.Value());
    var more;
    err, more := ExpandSteps(record, history, env, env.lookup.value);
    calls := calls + more;
  }

  /** The expansion of the access relations (deploy.go:37-48), then the renewal decision. */
  method ExpandSteps(record: Record, history: History, env: Env, curr: Fields)
    returns (err: Option<Error>, calls: seq<Call>)
    requires env.WellFormed()
    modifies record, history
    ensures history.committed == old(history.committed)
    ensures var o := ExpandStage(old(record.Value()), env, curr);
      err == o.err && record.Value() == o.record && history.entries == old(history.entries) + o.log && calls == o.calls
  {
    calls := [ExpandRecord];
    if |env.expandErrs| > 0 {
      var errList := WrapExpandErrors(env.expandErrs, env.expandOrder);
      err := Some(Joined(errList));
      history.Record(CheckPhase, ExpandFailed, err, false);
      return;
    }
    history.Record(CheckPhase, Expanded, None, false);
    var more;
    err, more := DecideSteps(record, history, env, curr);
    calls := calls + more;
  }

  /**
    The rest of the check phase and the apply phase up to the issuing branch
    (deploy.go:50-64, 86), on the freshly loaded record `curr`.
  */
  method DecideSteps(record: Record, history: History, env: Env, curr: Fields)
    returns (err: Option<Error>, calls: seq<Call>)
    modifies record, history
    ensures history.committed == old(history.committed)
    ensures var o := DecideStage(old(record.Value()), env, curr);
      err == o.err && record.Value() == o.record && history.entries == old(history.entries) + o.log && calls == o.calls
  {
    if CertStillValid(curr.certificate, curr.expiredAt, env.now) && curr.deployed {
      assert Decide(curr.certificate, curr.expiredAt, curr.deployed, env.now) == SkipAll;
      history.Record(CheckPhase, SkippedAll, None, true);
      return None, [];
    }
    history.Record(CheckPhase, CheckPassed, None, true);

    // 2. apply
    history.Record(ApplyPhase, ApplyStarted, None, false);
    ghost var log1 := history.entries;
    assert log1 == old(history.entries) + [Done(CheckPhase, CheckPassed), Note(ApplyPhase, ApplyStarted)];
    assert record.Value() == old(record.Value());
    if CertStillValid(curr.certificate, curr.expiredAt, env.now) {
      assert Decide(curr.certificate, curr.expiredAt, curr.deployed, env.now) == SkipIssuance;
      history.Record(ApplyPhase, SkippedIssuance, None, false);
      history.Record(ApplyPhase, CertSaved, None, true);
      ghost var log2 := history.entries;
      assert log2 == old(history.entries) + [Done(CheckPhase, CheckPassed), Note(ApplyPhase, ApplyStarted),
                                            Note(ApplyPhase, SkippedIssuance), Done(ApplyPhase, CertSaved)];
      // 3. deploy
      err, calls := DeploySteps(record, history, env, curr);
      ghost var d := DeployStage(old(record.Value()), env, curr);
      assert DecideStage(old(record.Value()), env, curr).log
          == [Done(CheckPhase, CheckPassed), Note(ApplyPhase, ApplyStarted),
              Note(ApplyPhase, SkippedIssuance), Done(ApplyPhase, CertSaved)] + d.log;
      assert history.entries == log2 + d.log;
      assert history.entries == old(history.entries) + DecideStage(old(record.Value()), env, curr).log;
    } else {
      assert Decide(curr.certificate, curr.expiredAt, curr.deployed, env.now) == IssueAndDeploy;
      err, calls := IssueSteps(record, history, env, curr);
      ghost var i := IssueStage(old(record.Value()), env, curr);
      assert DecideStage(old(record.Value()), env, curr).log
          == [Done(CheckPhase, CheckPassed), Note(ApplyPhase, ApplyStarted)] + i.log;
      assert history.entries == log1 + i.log;
      assert history.entries == old(history.entries) + DecideStage(old(record.Value()), env, curr).log;
    }
  }

  /**
    The issuing branch of the apply phase (deploy.go:66-86), then, when the
    new certificate is stored, the deploy phase.
  */
  method IssueSteps(record: Record, history: History, env: Env, curr: Fields)
    returns (err: Option<Error>, calls: seq<Call>)
    modifies record, history
    ensures history.committed == old(history.committed)
    ensures var o := IssueStage(old(record.Value()), env, curr);
      err == o.err && record.Value() == o.record && history.entries == old(history.entries) + o.log && calls == o.calls
  {
    calls := [ApplicantGet(curr)];
    if env.applicantErr.Some? {
      history.Record(ApplyPhase, ApplicantFailed, env.applicantErr, false);
      return env.applicantErr, calls;
    }
    calls := calls + [ApplicantApply];
    if env.issued.Failure? {
      err := Some(env.issued.error);
      history.Record(ApplyPhase, IssueFailed, err, false);
      return;
    }
    history.Record(ApplyPhase, Issued, None, false);
    var saved;
    err, saved := SaveCert(record, env.issued.value, env.now, env.saveCertErr);
    calls := calls + [SaveRecord(saved)];
    if err.Some? {
      history.Record(ApplyPhase, SaveFailed, err, false);
      return;
    }
    history.Record(ApplyPhase, CertSaved, None, true);
    var more;
    err, more := DeploySteps(record, history, env, curr);
    calls := calls + more;
  }

  /** The deploy phase of deploy (deploy.go:89-108), on the caller's record. */
  method DeploySteps(record: Record, history: History, env: Env, curr: Fields)
    returns (err: Option<Error>, calls: seq<Call>)
    modifies record, history
    ensures history.committed == old(history.committed)
    ensures var o := DeployStage(old(record.Value()), env, curr);
      err == o.err && record.Value() == o.record && history.entries == old(history.entries) + o.log && calls == o.calls
  {
    history.Record(DeployPhase, DeployStarted, None, false);
    calls := [DeployerGet(curr)];
    if env.deployerErr.Some? {
      history.Record(DeployPhase, DeployerFailed, env.deployerErr, false);
      return env.deployerErr, calls;
    }
    calls := calls + [DeployerDeploy];
    if env.deployErr.Some? {
      var _, saved := SetDeployed(record, false, env.saveDeployedErr);
      calls := calls + [SaveRecord(saved)];
      history.Record(DeployPhase, DeployFailed, env.deployErr, false);
      return env.deployErr, calls;
    }
    var _, saved := SetDeployed(record, true, env.saveDeployedErr);
    calls := calls + [SaveRecord(saved)];
    history.Record(DeployPhase, Deployed, None, true);
    err := None;
  }
}
