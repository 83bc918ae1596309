/**
  What a run of the renewal-and-deploy workflow guarantees, stated over
  `Domains.Run` (which `Domains.Deploy` is proved to compute) for every
  caller's record and every answer of the outside world.
*/
module DeployProperties {
  import opened Wrappers
  import opened Domains

  function Last<T>(s: seq<T>): T
    requires |s| > 0
  {
    s[|s| - 1]
  }

  /** Phases are recorded in the order check, apply, deploy. */
  function Rank(p: Phase): nat {
    match p
    case CheckPhase => 0
    case ApplyPhase => 1
    case DeployPhase => 2
  }

  predicate PhasesInOrder(log: seq<Entry>) {
    forall i, j :: 0 <= i < j < |log| ==> Rank(log[i].phase) <= Rank(log[j].phase)
  }

  /** No entry but the last carries an error. */
  predicate ErrorOnlyLast(log: seq<Entry>) {
    forall i :: 0 <= i < |log| - 1 ==> log[i].err == None
  }

  predicate IsApplicantCall(c: Call) {
    c.ApplicantGet? || c.ApplicantApply?
  }

  predicate IsDeployerCall(c: Call) {
    c.DeployerGet? || c.DeployerDeploy?
  }

  predicate NoApplicantCall(calls: seq<Call>) {
    forall k :: 0 <= k < |calls| ==> !IsApplicantCall(calls[k])
  }

  predicate NoDeployerCall(calls: seq<Call>) {
    forall k :: 0 <= k < |calls| ==> !IsDeployerCall(calls[k])
  }

  /** Every provider lookup in `calls` is handed the record `curr`. */
  predicate LookupsGiven(calls: seq<Call>, curr: Fields) {
    forall c :: c in calls && (c.ApplicantGet? || c.DeployerGet?) ==> c.from == curr
  }

  /** Every applicant call comes before every deployer call. */
  predicate ApplicantsFirst(calls: seq<Call>) {
    forall i, j :: 0 <= i < |calls| && 0 <= j < |calls| && IsApplicantCall(calls[i]) && IsDeployerCall(calls[j]) ==> i < j
  }

  /** Entries that may open a log: phases in order and no error anywhere. */
  predicate Clean(log: seq<Entry>) {
    PhasesInOrder(log) && forall i :: 0 <= i < |log| ==> log[i].err == None
  }

  /**
    The shape of a log (or of its tail) ending a run that returns `err`:
    phases in order, an error only on the last entry and that error the one
    returned, and the last entry complete exactly on success.
  */
  predicate Shaped(log: seq<Entry>, err: Option<Error>) {
    && |log| > 0
    && PhasesInOrder(log)
    && ErrorOnlyLast(log)
    && Last(log).err == err
    && (Last(log).complete <==> err == None)
  }

  /**
    What deploy.go:97-108 promises about Deploy, of a run or of its tail:
    when Deploy is called it is called once, second to last, followed by
    the save of the record whose `deployed` flag is Deploy's success, and
    the run returns Deploy's error; otherwise `deployed` is left as it was.
  */
  predicate DeployTracked(o: Outcome, deployed: bool, env: Env) {
    if DeployerDeploy in o.calls then
      && multiset(o.calls)[DeployerDeploy] == 1
      && o.record.deployed == env.deployErr.None?
      && o.err == env.deployErr
      && |o.calls| >= 2 && o.calls[|o.calls| - 2] == DeployerDeploy
      && Last(o.calls) == SaveRecord(o.record)
    else
      o.record.deployed == deployed
  }

  /**
    The joined expansion error has exactly one wrapped sub-error per failed
    relation, carrying that relation's own error.
  */
  predicate OnePerRelation(parts: seq<Error>, errs: map<string, Error>) {
    && |parts| == |errs|
    && (forall i :: 0 <= i < |parts| ==> parts[i].Wrapped? && parts[i].relation in errs
                                           && parts[i].cause == errs[parts[i].relation])
    && (forall name :: name in errs ==> Wrapped(name, errs[name]) in parts)
    && (forall i, j :: 0 <= i < j < |parts| ==> parts[i] != parts[j])
  }

  // ---------------------------------------------------------------------------
  // Expansion errors

  lemma {:induction false} DistinctCardinality(s: seq<string>)
    requires Distinct(s)
    ensures |ElementsOf(s)| == |s|
  {
    if s != [] {
      var rest := s[1..];
      assert Distinct(rest) by {
        forall i, j | 0 <= i < j < |rest| ensures rest[i] != rest[j] {
          assert rest[i] == s[i + 1] && rest[j] == s[j + 1];
        }
      }
      DistinctCardinality(rest);
      assert ElementsOf(s) == {s[0]} + ElementsOf(rest) by {
        forall n ensures n in ElementsOf(s) <==> n in {s[0]} + ElementsOf(rest) {
          if n in s && n != s[0] {
            var k :| 0 <= k < |s| && s[k] == n;
            assert rest[k - 1] == n;
          }
        }
      }
      assert s[0] !in ElementsOf(rest) by {
        forall k | 0 <= k < |rest| ensures rest[k] != s[0] {
          assert rest[k] == s[k + 1];
        }
      }
    }
  }

  /** Ranging over the failed relations yields one wrapped error per relation (deploy.go:39-43). */
  lemma WrapAllOnePerRelation(order: seq<string>, errs: map<string, Error>)
    requires Enumerates(order, errs.Keys)
    ensures OnePerRelation(WrapAll(order, errs), errs)
  {
    var parts := WrapAll(order, errs);
    DistinctCardinality(order);
    assert |errs| == |errs.Keys|;
    forall name | name in errs ensures Wrapped(name, errs[name]) in parts {
      assert name in ElementsOf(order);
      var k :| 0 <= k < |order| && order[k] == name;
      assert parts[k] == Wrapped(name, errs[name]);
    }
  }

  // ---------------------------------------------------------------------------
  // Composing the steps of a run

  /** Clean entries followed by a shaped tail, phases not going back at the seam, form a shaped log. */
  lemma {:induction false} ShapedAfter(a: seq<Entry>, b: seq<Entry>, err: Option<Error>)
    requires Clean(a) && Shaped(b, err)
    requires |a| > 0 ==> Rank(Last(a).phase) <= Rank(b[0].phase)
    ensures Shaped(a + b, err)
  {
    var c := a + b;
    forall i, j | 0 <= i < j < |c| ensures Rank(c[i].phase) <= Rank(c[j].phase) {
      if j < |a| {
        assert c[i] == a[i] && c[j] == a[j];
      } else if |a| <= i {
        assert c[i] == b[i - |a|] && c[j] == b[j - |a|];
      } else {
        assert c[i] == a[i] && c[j] == b[j - |a|];
        assert Rank(a[i].phase) <= Rank(Last(a).phase);
        assert Rank(b[0].phase) <= Rank(b[j - |a|].phase);
      }
    }
    forall i | 0 <= i < |c| - 1 ensures c[i].err == None {
      if i < |a| {
        assert c[i] == a[i];
      } else {
        assert c[i] == b[i - |a|];
      }
    }
    assert Last(c) == Last(b);
  }

  /** Calls with applicants first stay so when joined, unless a deployer call precedes an applicant call. */
  lemma {:induction false} ApplicantsFirstAppend(a: seq<Call>, b: seq<Call>)
    requires ApplicantsFirst(a) && ApplicantsFirst(b)
    requires NoDeployerCall(a) || NoApplicantCall(b)
    ensures ApplicantsFirst(a + b)
  {
    var c := a + b;
    forall i, j | 0 <= i < |c| && 0 <= j < |c| && IsApplicantCall(c[i]) && IsDeployerCall(c[j]) ensures i < j {
      if i < |a| && j < |a| {
        assert c[i] == a[i] && c[j] == a[j];
      } else if |a| <= i && |a| <= j {
        assert c[i] == b[i - |a|] && c[j] == b[j - |a|];
      }
    }
  }

  /** Steps before the deploy phase that never call Deploy keep what DeployTracked says. */
  lemma {:induction false} TrackedAfter(log: seq<Entry>, calls: seq<Call>, o: Outcome, deployed: bool, env: Env)
    requires DeployTracked(o, deployed, env) && DeployerDeploy !in calls
    ensures DeployTracked(After(log, calls, o), deployed, env)
  {
    var c := calls + o.calls;
    if DeployerDeploy in o.calls {
      assert c[|c| - 2] == o.calls[|o.calls| - 2];
      assert Last(c) == Last(o.calls);
      assert multiset(c) == multiset(calls) + multiset(o.calls);
      assert multiset(calls)[DeployerDeploy] == 0;
    } else {
      assert DeployerDeploy !in c;
    }
  }

  // ---------------------------------------------------------------------------
  // One stage at a time

  /**
    The deploy phase (deploy.go:89-108) resolves the deployer exactly once,
    never asks the applicant, calls Deploy once exactly when the deployer
    resolves, and leaves the certificate material alone.
  */
  lemma DeployStageCalls(rec: Fields, env: Env, curr: Fields)
    ensures var o := DeployStage(rec, env, curr);
      && |o.calls| > 0 && o.calls[0] == DeployerGet(curr)
      && NoApplicantCall(o.calls)
      && LookupsGiven(o.calls, curr)
      && multiset(o.calls)[DeployerGet(curr)] == 1
      && multiset(o.calls)[DeployerDeploy] == (if env.deployerErr.None? then 1 else 0)
      && CertOf(o.record) == CertOf(rec) && o.record.expiredAt == rec.expiredAt
      && DeployTracked(o, rec.deployed, env)
  {
  }

  /** The deploy phase's entries form a shaped tail that opens in the deploy phase. */
  lemma DeployStageShape(rec: Fields, env: Env, curr: Fields)
    ensures var o := DeployStage(rec, env, curr);
      Shaped(o.log, o.err) && o.log[0].phase == DeployPhase
  {
  }

  /**
    The issuing branch (deploy.go:66-86, then 89-108) resolves the applicant
    first and once, and calls Apply once exactly when the applicant resolves.
  */
  lemma IssueStageCalls(rec: Fields, env: Env, curr: Fields)
    ensures var o := IssueStage(rec, env, curr);
      && |o.calls| > 0 && o.calls[0] == ApplicantGet(curr)
      && multiset(o.calls)[ApplicantGet(curr)] == 1
      && multiset(o.calls)[ApplicantApply] == (if env.applicantErr.None? then 1 else 0)
  {
    if env.applicantErr.None? && env.issued.Success? && env.saveCertErr.None? {
      var issued := WithCertificate(rec, env.issued.value, env.now);
      var d := DeployStage(issued, env, curr);
      var head := [ApplicantGet(curr), ApplicantApply, SaveRecord(issued)];
      DeployStageCalls(issued, env, curr);
      assert IssueStage(rec, env, curr).calls == head + d.calls;
      assert multiset(head + d.calls) == multiset(head) + multiset(d.calls);
    } else if env.applicantErr.Some? {
      assert IssueStage(rec, env, curr).calls == [ApplicantGet(curr)];
    } else if env.issued.Failure? {
      assert IssueStage(rec, env, curr).calls == [ApplicantGet(curr), ApplicantApply];
    } else {
      var issued := WithCertificate(rec, env.issued.value, env.now);
      assert IssueStage(rec, env, curr).calls == [ApplicantGet(curr), ApplicantApply, SaveRecord(issued)];
    }
  }

  /** In the issuing branch both providers are resolved from the loaded record `curr`. */
  lemma IssueStageLookups(rec: Fields, env: Env, curr: Fields)
    ensures LookupsGiven(IssueStage(rec, env, curr).calls, curr)
  {
    if env.applicantErr.None? && env.issued.Success? && env.saveCertErr.None? {
      DeployStageCalls(WithCertificate(rec, env.issued.value, env.now), env, curr);
    }
  }

  /** In the issuing branch every deployer call comes after every applicant call. */
  lemma IssueStageOrder(rec: Fields, env: Env, curr: Fields)
    ensures ApplicantsFirst(IssueStage(rec, env, curr).calls)
  {
    if env.applicantErr.None? && env.issued.Success? && env.saveCertErr.None? {
      var issued := WithCertificate(rec, env.issued.value, env.now);
      var d := DeployStage(issued, env, curr);
      var head := [ApplicantGet(curr), ApplicantApply, SaveRecord(issued)];
      DeployStageCalls(issued, env, curr);
      assert IssueStage(rec, env, curr).calls == head + d.calls;
      ApplicantsFirstAppend(head, d.calls);
    }
  }

  /** In the issuing branch Deploy's outcome is tracked as in the deploy phase. */
  lemma IssueStageTracked(rec: Fields, env: Env, curr: Fields)
    ensures DeployTracked(IssueStage(rec, env, curr), rec.deployed, env)
  {
    if env.applicantErr.None? && env.issued.Success? && env.saveCertErr.None? {
      var issued := WithCertificate(rec, env.issued.value, env.now);
      DeployStageCalls(issued, env, curr);
      TrackedAfter([Note(ApplyPhase, Issued), Done(ApplyPhase, CertSaved)],
                   [ApplicantGet(curr), ApplicantApply, SaveRecord(issued)], DeployStage(issued, env, curr), rec.deployed, env);
    }
  }

  /** The calls of a run past the expansion are those of the branch the renewal decision picks. */
  lemma RunCalls(before: Fields, env: Env)
    requires env.WellFormed() && env.lookup.Success? && |env.expandErrs| == 0
    ensures var curr := env.lookup.value;
      Run(before, env).calls ==
        match Decide(curr.certificate, curr.expiredAt, curr.deployed, env.now)
        case SkipAll => [FindRecord, ExpandRecord]
        case SkipIssuance => [FindRecord, ExpandRecord] + DeployStage(before, env, curr).calls
        case IssueAndDeploy => [FindRecord, ExpandRecord] + IssueStage(before, env, curr).calls
  {
  }

  /** The issuing branch's entries form a shaped tail that opens in the apply phase. */
  lemma IssueStageShape(rec: Fields, env: Env, curr: Fields)
    ensures var o := IssueStage(rec, env, curr);
      Shaped(o.log, o.err) && o.log[0].phase == ApplyPhase
  {
    if env.applicantErr.None? && env.issued.Success? && env.saveCertErr.None? {
      var issued := WithCertificate(rec, env.issued.value, env.now);
      var d := DeployStage(issued, env, curr);
      DeployStageShape(issued, env, curr);
      ShapedAfter([Note(ApplyPhase, Issued), Done(ApplyPhase, CertSaved)], d.log, d.err);
    }
  }

  /** The entries from the renewal decision on form a shaped tail that opens in the check phase. */
  lemma DecideStageShape(before: Fields, env: Env, curr: Fields)
    ensures var o := DecideStage(before, env, curr);
      Shaped(o.log, o.err) && o.log[0].phase == CheckPhase
  {
    match Decide(curr.certificate, curr.expiredAt, curr.deployed, env.now)
    case SkipAll =>
    case SkipIssuance =>
      var d := DeployStage(before, env, curr);
      DeployStageShape(before, env, curr);
      ShapedAfter([Done(CheckPhase, CheckPassed), Note(ApplyPhase, ApplyStarted),
                   Note(ApplyPhase, SkippedIssuance), Done(ApplyPhase, CertSaved)], d.log, d.err);
    case IssueAndDeploy =>
      var i := IssueStage(before, env, curr);
      IssueStageShape(before, env, curr);
      ShapedAfter([Done(CheckPhase, CheckPassed), Note(ApplyPhase, ApplyStarted)], i.log, i.err);
  }

  /** From the renewal decision on, Deploy's outcome is tracked against the caller's flag. */
  lemma DecideStageTracked(before: Fields, env: Env, curr: Fields)
    ensures DeployTracked(DecideStage(before, env, curr), before.deployed, env)
  {
    match Decide(curr.certificate, curr.expiredAt, curr.deployed, env.now)
    case SkipAll =>
    case SkipIssuance =>
      DeployStageCalls(before, env, curr);
      TrackedAfter([Done(CheckPhase, CheckPassed), Note(ApplyPhase, ApplyStarted),
                    Note(ApplyPhase, SkippedIssuance), Done(ApplyPhase, CertSaved)], [],
                   DeployStage(before, env, curr), before.deployed, env);
    case IssueAndDeploy =>
      IssueStageTracked(before, env, curr);
      TrackedAfter([Done(CheckPhase, CheckPassed), Note(ApplyPhase, ApplyStarted)], [],
                   IssueStage(before, env, curr), before.deployed, env);
  }

  // ---------------------------------------------------------------------------
  // Check phase

  /** A failed record lookup ends the run at once with exactly two entries (deploy.go:25-35). */
  lemma LoadFailure(before: Fields, env: Env)
    requires env.WellFormed() && env.lookup.Failure?
    ensures var o := Run(before, env);
      && o.err == Some(env.lookup.error)
      && o.log == [Entry(CheckPhase, CheckStarted, None, false),
                   Entry(CheckPhase, LoadFailed, Some(env.lookup.error), false)]
      && o.calls == [FindRecord]
      && o.record == before
  {
  }

  /**
    A failed expansion ends the run in the check phase with the join of one
    wrapped error per failed relation (deploy.go:37-47).
  */
  lemma ExpandFailure(before: Fields, env: Env)
    requires env.WellFormed() && env.lookup.Success? && |env.expandErrs| > 0
    ensures var o := Run(before, env);
      && o.err.Some? && o.err.value.Joined?
      && OnePerRelation(o.err.value.parts, env.expandErrs)
      && o.calls == [FindRecord, ExpandRecord]
      && o.record == before
      && Last(o.log) == Entry(CheckPhase, ExpandFailed, o.err, false)
  {
    WrapAllOnePerRelation(env.expandOrder, env.expandErrs);
  }

  /**
    Full skip (deploy.go:50-57): a present certificate that outlives the
    margin and is deployed ends the run successfully after the check phase,
    with no provider call and no record write.
  */
  lemma FullSkip(before: Fields, env: Env)
    requires env.WellFormed() && env.lookup.Success? && |env.expandErrs| == 0
    requires var curr := env.lookup.value;
      curr.certificate != "" && curr.expiredAt - env.now > RenewMargin && curr.deployed
    ensures var o := Run(before, env);
      && o.err == None
      && o.record == before
      && o.calls == [FindRecord, ExpandRecord]
      && (forall k :: 0 <= k < |o.log| ==> o.log[k].phase == CheckPhase)
      && Last(o.log) == Entry(CheckPhase, SkippedAll, None, true)
  {
  }

  /**
    A provider (applicant or deployer) is called exactly when the record was
    loaded and expanded and the renewal decision did not skip everything.
  */
  lemma ProvidersOnlyAfterCheck(before: Fields, env: Env)
    requires env.WellFormed()
    ensures var o := Run(before, env);
      (exists k :: 0 <= k < |o.calls| && IsProviderCall(o.calls[k]))
      <==> (&& env.lookup.Success? && |env.expandErrs| == 0
            && Decide(env.lookup.value.certificate, env.lookup.value.expiredAt,
                      env.lookup.value.deployed, env.now) != SkipAll)
  {
    if env.lookup.Failure? {
      assert Run(before, env).calls == [FindRecord];
    } else if |env.expandErrs| > 0 {
      assert Run(before, env).calls == [FindRecord, ExpandRecord];
    } else {
      var curr := env.lookup.value;
      RunCalls(before, env);
      match Decide(curr.certificate, curr.expiredAt, curr.deployed, env.now)
      case SkipAll =>
      case SkipIssuance =>
        DeployStageCalls(before, env, curr);
        assert IsProviderCall(Run(before, env).calls[2]);
      case IssueAndDeploy =>
        IssueStageCalls(before, env, curr);
        assert IsProviderCall(Run(before, env).calls[2]);
    }
  }

  // ---------------------------------------------------------------------------
  // Apply phase

  /**
    Skip issuance, still deploy (deploy.go:63-64, 89-97): the applicant is
    never asked, the certificate material stays as it was, the deployer is
    resolved once and, if it resolves, Deploy runs once.
  */
  lemma SkipIssuanceStillDeploys(before: Fields, env: Env)
    requires env.WellFormed() && env.lookup.Success? && |env.expandErrs| == 0
    requires var curr := env.lookup.value;
      curr.certificate != "" && curr.expiredAt - env.now > RenewMargin && !curr.deployed
    ensures var o := Run(before, env);
      && NoApplicantCall(o.calls)
      && CertOf(o.record) == CertOf(before) && o.record.expiredAt == before.expiredAt
      && multiset(o.calls)[DeployerGet(env.lookup.value)] == 1
      && multiset(o.calls)[DeployerDeploy] == (if env.deployerErr.None? then 1 else 0)
      && o.calls == [FindRecord, ExpandRecord] + DeployStage(before, env, env.lookup.value).calls
  {
    var curr := env.lookup.value;
    var d := DeployStage(before, env, curr);
    DeployStageCalls(before, env, curr);
    RunCalls(before, env);
    var calls := [FindRecord, ExpandRecord] + d.calls;
    assert multiset(calls) == multiset([FindRecord, ExpandRecord]) + multiset(d.calls);
    forall k | 0 <= k < |calls| ensures !IsApplicantCall(calls[k]) {
      if k >= 2 {
        assert calls[k] == d.calls[k - 2];
      }
    }
  }

  /**
    Issue then deploy (deploy.go:63-79): with no certificate, or one within
    the margin, the applicant is resolved once, right after the check, and
    Apply runs once if it resolves.
  */
  lemma IssueThenDeploy(before: Fields, env: Env)
    requires env.WellFormed() && env.lookup.Success? && |env.expandErrs| == 0
    requires var curr := env.lookup.value;
      curr.certificate == "" || curr.expiredAt - env.now <= RenewMargin
    ensures var o := Run(before, env);
      && |o.calls| > 2 && o.calls[2] == ApplicantGet(env.lookup.value)
      && multiset(o.calls)[ApplicantGet(env.lookup.value)] == 1
      && multiset(o.calls)[ApplicantApply] == (if env.applicantErr.None? then 1 else 0)
  {
    var curr := env.lookup.value;
    var i := IssueStage(before, env, curr);
    IssueStageCalls(before, env, curr);
    RunCalls(before, env);
    var checks := [FindRecord, ExpandRecord];
    assert multiset(checks + i.calls) == multiset(checks) + multiset(i.calls);
  }

  /**
    Every deployer call of a run comes after every applicant call
    (deploy.go:66-79 before 89-97), whichever branch the run takes.
  */
  lemma ApplicantsBeforeDeployers(before: Fields, env: Env)
    requires env.WellFormed()
    ensures ApplicantsFirst(Run(before, env).calls)
  {
    if env.lookup.Success? && |env.expandErrs| == 0 {
      var curr := env.lookup.value;
      RunCalls(before, env);
      var checks := [FindRecord, ExpandRecord];
      match Decide(curr.certificate, curr.expiredAt, curr.deployed, env.now)
      case SkipAll =>
      case SkipIssuance =>
        DeployStageCalls(before, env, curr);
        ApplicantsFirstAppend(checks, DeployStage(before, env, curr).calls);
      case IssueAndDeploy =>
        IssueStageOrder(before, env, curr);
        ApplicantsFirstAppend(checks, IssueStage(before, env, curr).calls);
    }
  }

  /**
    Both provider lookups are handed the record as loaded at deploy.go:25
    (lines 66 and 90), never the caller's record that saveCert updates: after
    an issuance the deployer is resolved from the certificate material the
    record held before the run.
  */
  lemma LookupsSeeLoadedRecord(before: Fields, env: Env)
    requires env.WellFormed()
    ensures env.lookup.Success? ==> LookupsGiven(Run(before, env).calls, env.lookup.value)
    ensures env.lookup.Failure? ==> Run(before, env).calls == [FindRecord]
  {
    if env.lookup.Success? && |env.expandErrs| == 0 {
      var curr := env.lookup.value;
      RunCalls(before, env);
      match Decide(curr.certificate, curr.expiredAt, curr.deployed, env.now)
      case SkipAll =>
      case SkipIssuance =>
        DeployStageCalls(before, env, curr);
      case IssueAndDeploy =>
        IssueStageLookups(before, env, curr);
    }
  }

  /**
    The all-success issuing run: Apply once, one save of the new certificate
    with a 90-day expiry, Deploy once, one save with deployed = true.
  */
  lemma IssueAndDeploySucceeds(before: Fields, env: Env)
    requires env.WellFormed() && env.lookup.Success? && |env.expandErrs| == 0
    requires var curr := env.lookup.value;
      curr.certificate == "" || curr.expiredAt - env.now <= RenewMargin
    requires env.applicantErr.None? && env.issued.Success? && env.saveCertErr.None?
    requires env.deployerErr.None? && env.deployErr.None?
    ensures var o := Run(before, env);
      var issued := WithCertificate(before, env.issued.value, env.now);
      && o.err == None
      && o.calls == [FindRecord, ExpandRecord, ApplicantGet(env.lookup.value), ApplicantApply, SaveRecord(issued),
                     DeployerGet(env.lookup.value), DeployerDeploy, SaveRecord(WithDeployed(issued, true))]
      && o.record == WithDeployed(issued, true)
      && o.record.expiredAt == env.now + CertValidity && o.record.deployed
      && Last(o.log) == Entry(DeployPhase, Deployed, None, true)
  {
  }

  /**
    Apply-stage failure (deploy.go:66-83): the run returns the failing step's
    error, never resolves a deployer and leaves `deployed` alone; when Get or
    Apply fails the record is not touched at all.
  */
  lemma ApplyFailureStops(before: Fields, env: Env)
    requires env.WellFormed() && env.lookup.Success? && |env.expandErrs| == 0
    requires var curr := env.lookup.value;
      curr.certificate == "" || curr.expiredAt - env.now <= RenewMargin
    requires env.applicantErr.Some? || env.issued.Failure? || env.saveCertErr.Some?
    ensures var o := Run(before, env);
      && o.err == (if env.applicantErr.Some? then env.applicantErr
                   else if env.issued.Failure? then Some(env.issued.error)
                   else env.saveCertErr)
      && NoDeployerCall(o.calls)
      && o.record.deployed == before.deployed
      && ((env.applicantErr.Some? || env.issued.Failure?) ==> o.record == before)
      && Last(o.log).phase == ApplyPhase && Last(o.log).err == o.err
  {
  }

  // ---------------------------------------------------------------------------
  // Deploy phase

  /**
    Deploy outcome (deploy.go:97-108), over whole runs: see DeployTracked;
    the flag the caller's record ends with is Deploy's success when Deploy
    ran and the caller's own flag otherwise.
  */
  lemma DeployedFlagTracksDeploy(before: Fields, env: Env)
    requires env.WellFormed()
    ensures DeployTracked(Run(before, env), before.deployed, env)
  {
    match env.lookup
    case Failure(_) =>
    case Success(curr) =>
      var e := ExpandStage(before, env, curr);
      if |env.expandErrs| == 0 {
        DecideStageTracked(before, env, curr);
        TrackedAfter([Note(CheckPhase, Expanded)], [ExpandRecord], DecideStage(before, env, curr), before.deployed, env);
      }
      TrackedAfter([Note(CheckPhase, CheckStarted), Note(CheckPhase, Loaded)], [FindRecord], e, before.deployed, env);
  }

  /**
    Deploy-phase failure (deploy.go:90-101): a run that reaches the deploy
    phase and fails there returns the failing step's error and records it
    last, in the deploy phase. When the deployer cannot be resolved, Deploy
    is never called and the caller's `deployed` flag is left as it was.
  */
  lemma DeployPhaseFailure(before: Fields, env: Env)
    requires env.WellFormed() && env.lookup.Success? && |env.expandErrs| == 0
    requires var curr := env.lookup.value;
      Decide(curr.certificate, curr.expiredAt, curr.deployed, env.now) != SkipAll
    requires var curr := env.lookup.value;
      Decide(curr.certificate, curr.expiredAt, curr.deployed, env.now) == IssueAndDeploy ==>
        env.applicantErr.None? && env.issued.Success? && env.saveCertErr.None?
    ensures var o := Run(before, env);
      env.deployerErr.Some? ==>
        && o.err == env.deployerErr
        && DeployerDeploy !in o.calls
        && o.record.deployed == before.deployed
        && Last(o.log) == Entry(DeployPhase, DeployerFailed, env.deployerErr, false)
    ensures var o := Run(before, env);
      env.deployerErr.None? && env.deployErr.Some? ==>
        && o.err == env.deployErr
        && Last(o.log) == Entry(DeployPhase, DeployFailed, env.deployErr, false)
  {
  }

  /** The save error of setDeployed is discarded: it changes nothing in the run (deploy.go:98, 104). */
  lemma SaveDeployedErrorIgnored(before: Fields, env: Env, e: Option<Error>)
    requires env.WellFormed()
    ensures Run(before, env.(saveDeployedErr := e)) == Run(before, env)
  {
  }

  // ---------------------------------------------------------------------------
  // The audit history

  /**
    Log shape: the first entry starts the check, phases never go back, only
    the last entry may carry an error and it is the error returned, and the
    last entry is marked complete exactly when the run succeeded.
  */
  lemma LogShape(before: Fields, env: Env)
    requires env.WellFormed()
    ensures var o := Run(before, env);
      && |o.log| >= 2
      && o.log[0] == Entry(CheckPhase, CheckStarted, None, false)
      && Shaped(o.log, o.err)
  {
    match env.lookup
    case Failure(_) =>
    case Success(curr) =>
      var e := ExpandStage(before, env, curr);
      assert Shaped(e.log, e.err) && e.log[0].phase == CheckPhase by {
        if |env.expandErrs| == 0 {
          var d := DecideStage(before, env, curr);
          DecideStageShape(before, env, curr);
          ShapedAfter([Note(CheckPhase, Expanded)], d.log, d.err);
        }
      }
      ShapedAfter([Note(CheckPhase, CheckStarted), Note(CheckPhase, Loaded)], e.log, e.err);
  }

  // ---------------------------------------------------------------------------
  // Across runs

  /**
    Right after a successful issuing run, a second run on the stored record
    (within 89 days, so the new certificate still outlives the margin) does
    nothing but check and skip.
  */
  lemma SecondRunSkips(before: Fields, env1: Env, env2: Env)
    requires env1.WellFormed() && env2.WellFormed()
    requires Run(before, env1).err == None && ApplicantApply in Run(before, env1).calls
    requires env1.issued.Success? && env1.issued.value.certificate != ""
    requires env1.saveDeployedErr.None?
    requires env2.lookup == Success(Run(before, env1).record) && |env2.expandErrs| == 0
    requires env2.now - env1.now < CertValidity - RenewMargin
    ensures var first := Run(before, env1);
      var second := Run(first.record, env2);
      && Last(first.calls) == SaveRecord(first.record)
      && second.err == None
      && second.record == first.record
      && second.calls == [FindRecord, ExpandRecord]
      && (forall k :: 0 <= k < |second.log| ==> second.log[k].phase == CheckPhase)
  {
    var first := Run(before, env1);
    assert env1.lookup.Success? && |env1.expandErrs| == 0;
    var curr := env1.lookup.value;
    assert Decide(curr.certificate, curr.expiredAt, curr.deployed, env1.now) == IssueAndDeploy;
    assert env1.applicantErr.None? && env1.saveCertErr.None? && env1.deployerErr.None? && env1.deployErr.None?;
    IssueAndDeploySucceeds(before, env1);
    FullSkip(first.record, env2);
  }

  /**
    A new certificate can be left undeployed for good. When the caller's
    record says `deployed` and a certificate is issued and saved, the save of
    deploy.go:128 stores the new certificate with the old flag still set.
    If the deployer then cannot be resolved (deploy.go:90-94), or Deploy
    fails and the save of `deployed = false` fails unnoticed (deploy.go:98),
    the stored record claims a deployed certificate that Deploy never
    installed, and any later run within 89 days loads it and skips
    everything at deploy.go:53.
  */
  lemma StaleDeployedFlagSkipsNewCertificate(before: Fields, env1: Env, later: Fields, env2: Env)
    requires env1.WellFormed() && env2.WellFormed()
    requires env1.lookup.Success? && |env1.expandErrs| == 0
    requires var curr := env1.lookup.value;
      curr.certificate == "" || curr.expiredAt - env1.now <= RenewMargin
    requires before.deployed
    requires env1.applicantErr.None? && env1.issued.Success? && env1.issued.value.certificate != ""
    requires env1.saveCertErr.None?
    requires env1.deployerErr.Some? || (env1.deployErr.Some? && env1.saveDeployedErr.Some?)
    requires env2.lookup == Success(WithCertificate(before, env1.issued.value, env1.now)) && |env2.expandErrs| == 0
    requires env2.now - env1.now < CertValidity - RenewMargin
    ensures var first := Run(before, env1);
      var stored := WithCertificate(before, env1.issued.value, env1.now);
      && first.err.Some?
      && |first.calls| > 4 && first.calls[4] == SaveRecord(stored)
      && stored.deployed && CertOf(stored) == env1.issued.value
      && Run(later, env2).err == None
      && Run(later, env2).calls == [FindRecord, ExpandRecord]
  {
  }
}
