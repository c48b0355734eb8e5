/**
 * The verification executor: for every group, build the public key and
 * resolve the signature instance (skipping the group when either fails),
 * verify every case, classify each outcome against the expected result,
 * and render the verdict for the whole document.
 */
module Verification {
  import opened Wrappers
  import opened TestVectors
  import opened Oracle
  import opened SignatureNames
  import opened Runs

  /** The counters the executor keeps while it runs. */
  datatype Tally = Tally(cntTests: nat, errors: nat, skippedKeys: nat, skippedGroups: set<string>)

  /** The value of `verified` once the exceptions of verify have been caught. */
  predicate Verified(o: VerifyOutcome) {
    o == Returned(true)
  }

  /**
   * A case behaves as expected: no unexpected exception, a valid signature is
   * accepted, an invalid one is rejected; an acceptable one may go either way.
   */
  predicate CaseAgrees(o: VerifyOutcome, expected: ExpectedResult) {
    !o.OtherEx? &&
    (expected == Valid ==> o == Returned(true)) &&
    (expected == Invalid ==> o != Returned(true))
  }

  /** The errors one verified case adds to the tally. */
  function CaseErrors(o: VerifyOutcome, expected: ExpectedResult): (n: nat)
    ensures n == 0 <==> CaseAgrees(o, expected)
    ensures n == 2 <==> o.OtherEx? && expected == Valid
    ensures (o.SignatureEx? || o.ArithmeticEx?) ==> n == (if expected == Valid then 1 else 0)
    ensures expected == Acceptable ==> n == (if o.OtherEx? then 1 else 0)
    ensures n <= 2
  {
    (if o.OtherEx? then 1 else 0) +
    (if !Verified(o) && expected == Valid then 1
     else if Verified(o) && expected == Invalid then 1
     else 0)
  }

  /**
   * The result string is only ever compared with "valid" and "invalid":
   * classifying a case by its parsed result gives the counts the harness
   * computes from the string, and any other string counts as "acceptable".
   */
  lemma ResultStringClassification(o: VerifyOutcome, result: string)
    ensures CaseErrors(o, ParseResult(result)) ==
              (if o.OtherEx? then 1 else 0) +
              (if !Verified(o) && result == "valid" then 1
               else if Verified(o) && result == "invalid" then 1
               else 0)
    ensures result != "valid" && result != "invalid" ==>
              CaseErrors(o, ParseResult(result)) == CaseErrors(o, Acceptable)
  {
  }

  function AttemptErrors(a: Attempt, p: Provider): nat {
    CaseErrors(p.verify(a.signatureName, a.key, a.tc.msg, a.tc.sig), a.tc.result)
  }

  predicate AttemptAgrees(a: Attempt, p: Provider) {
    CaseAgrees(p.verify(a.signatureName, a.key, a.tc.msg, a.tc.sig), a.tc.result)
  }

  /** The errors a sequence of verifications adds up to. */
  function ErrorCount(attempts: seq<Attempt>, p: Provider): nat
    decreases |attempts|
  {
    if attempts == [] then 0
    else ErrorCount(attempts[..|attempts| - 1], p) + AttemptErrors(attempts[|attempts| - 1], p)
  }

  lemma ErrorCountSnoc(attempts: seq<Attempt>, a: Attempt, p: Provider)
    ensures ErrorCount(attempts + [a], p) == ErrorCount(attempts, p) + AttemptErrors(a, p)
  {
  }

  lemma {:induction false} ErrorCountAppend(xs: seq<Attempt>, ys: seq<Attempt>, p: Provider)
    ensures ErrorCount(xs + ys, p) == ErrorCount(xs, p) + ErrorCount(ys, p)
    decreases |ys|
  {
    if ys == [] {
      assert xs + ys == xs;
    } else {
      var init := ys[..|ys| - 1];
      assert xs + ys == (xs + init) + [ys[|ys| - 1]];
      ErrorCountSnoc(xs + init, ys[|ys| - 1], p);
      ErrorCountAppend(xs, init, p);
    }
  }

  /**
   * No error at all exactly when every verification agrees with its expected
   * result; each verification adds at most two errors.
   */
  lemma {:induction false} ErrorCountZeroIff(attempts: seq<Attempt>, p: Provider)
    ensures ErrorCount(attempts, p) == 0 <==> forall k :: 0 <= k < |attempts| ==> AttemptAgrees(attempts[k], p)
    ensures ErrorCount(attempts, p) <= 2 * |attempts|
    decreases |attempts|
  {
    if attempts != [] {
      var init := attempts[..|attempts| - 1];
      ErrorCountZeroIff(init, p);
      assert forall k :: 0 <= k < |init| ==> init[k] == attempts[k];
    }
  }

  /** The public key of a group can be built, under the key-factory name for the algorithm. */
  predicate PublicKeyBuilds(g: TestGroup, alg: string, p: Provider) {
    p.acceptsPublicKey(PublicKeyFactoryName(alg), g.keyDer)
  }

  /** The setup of a group for verification, or None when the group is skipped. */
  function VerifierFor(g: TestGroup, alg: string, fmt: Format, p: Provider): (r: Option<Setup>)
    ensures r.Some? <==> PublicKeyBuilds(g, alg, p) && ResolveSignature(g.sha, alg, fmt, p.knows).Some?
  {
    if !PublicKeyBuilds(g, alg, p) then None
    else
      match ResolveSignature(g.sha, alg, fmt, p.knows)
      case None => None
      case Some(name) => Some(Setup(name, g.keyDer))
  }

  /** The calls a run over the groups makes, in order: skipped groups make none. */
  function Attempts(gs: seq<TestGroup>, alg: string, fmt: Format, p: Provider): seq<Attempt>
    decreases |gs|
  {
    if gs == [] then []
    else
      var g := gs[|gs| - 1];
      Attempts(gs[..|gs| - 1], alg, fmt, p) +
      match VerifierFor(g, alg, fmt, p)
      case None => []
      case Some(s) => AttemptsFor(s, g.tests)
  }

  /** The number of groups skipped because their key or their signature did not resolve. */
  function SkippedCount(gs: seq<TestGroup>, alg: string, fmt: Format, p: Provider): nat
    decreases |gs|
  {
    if gs == [] then 0
    else SkippedCount(gs[..|gs| - 1], alg, fmt, p) + (if VerifierFor(gs[|gs| - 1], alg, fmt, p).None? then 1 else 0)
  }

  /** The number of test cases in skipped groups. */
  function SkippedCases(gs: seq<TestGroup>, alg: string, fmt: Format, p: Provider): nat
    decreases |gs|
  {
    if gs == [] then 0
    else
      var g := gs[|gs| - 1];
      SkippedCases(gs[..|gs| - 1], alg, fmt, p) + (if VerifierFor(g, alg, fmt, p).None? then |g.tests| else 0)
  }

  /** Whether a group's key object names a curve. */
  predicate HasCurve(g: TestGroup) {
    g.key.Some? && g.key.value.curve.Some?
  }

  function CurveReason(g: TestGroup): string
    requires HasCurve(g)
  {
    "curve = " + g.key.value.curve.value
  }

  /** The reason a group adds to the skip report: its curve, when its public key failed. */
  function GroupSkipReason(g: TestGroup, alg: string, p: Provider): set<string> {
    if !PublicKeyBuilds(g, alg, p) && HasCurve(g) then {CurveReason(g)} else {}
  }

  /** The skip report after a run over the groups. */
  function SkipReasons(gs: seq<TestGroup>, alg: string, p: Provider): set<string>
    decreases |gs|
  {
    if gs == [] then {}
    else SkipReasons(gs[..|gs| - 1], alg, p) + GroupSkipReason(gs[|gs| - 1], alg, p)
  }

  /**
   * The report holds exactly the curves of the groups whose public key could
   * not be built; a group skipped for its signature name adds nothing.
   */
  lemma {:induction false} SkipReasonsExactly(gs: seq<TestGroup>, alg: string, p: Provider, reason: string)
    ensures reason in SkipReasons(gs, alg, p) <==>
              exists k :: 0 <= k < |gs| && !PublicKeyBuilds(gs[k], alg, p) && HasCurve(gs[k]) &&
                          reason == CurveReason(gs[k])
    decreases |gs|
  {
    if gs != [] {
      var init := gs[..|gs| - 1];
      SkipReasonsExactly(init, alg, p, reason);
      assert forall k :: 0 <= k < |init| ==> init[k] == gs[k];
    }
  }

  /** The tally after one more group: a skipped group counts a skipped key, a resolved one runs its cases. */
  function GroupStep(t: Tally, g: TestGroup, alg: string, fmt: Format, p: Provider): Tally {
    match VerifierFor(g, alg, fmt, p)
    case None =>
      t.(skippedKeys := t.skippedKeys + 1, skippedGroups := t.skippedGroups + GroupSkipReason(g, alg, p))
    case Some(s) =>
      t.(cntTests := t.cntTests + |g.tests|, errors := t.errors + ErrorCount(AttemptsFor(s, g.tests), p))
  }

  /** The tally a run over the groups ends with, group by group. */
  function RunTally(gs: seq<TestGroup>, alg: string, fmt: Format, p: Provider): Tally
    decreases |gs|
  {
    if gs == [] then Tally(0, 0, 0, {})
    else GroupStep(RunTally(gs[..|gs| - 1], alg, fmt, p), gs[|gs| - 1], alg, fmt, p)
  }

  /** One more group extends the tally by that group's step. */
  lemma RunTallySnoc(gs: seq<TestGroup>, i: nat, alg: string, fmt: Format, p: Provider)
    requires i < |gs|
    ensures RunTally(gs[..i + 1], alg, fmt, p) == GroupStep(RunTally(gs[..i], alg, fmt, p), gs[i], alg, fmt, p)
  {
    assert gs[..i + 1][..i] == gs[..i];
  }

  /** The tally over the whole of a group list. */
  lemma RunTallyWhole(gs: seq<TestGroup>, alg: string, fmt: Format, p: Provider)
    ensures RunTally(gs[..|gs|], alg, fmt, p) == RunTally(gs, alg, fmt, p)
  {
    assert gs[..|gs|] == gs;
  }

  /**
   * The final tally counts every call made, the errors of those calls, the
   * skipped groups and the curves of the groups whose key failed.
   */
  lemma RunTallyCounts(gs: seq<TestGroup>, alg: string, fmt: Format, p: Provider)
    ensures var attempts := Attempts(gs, alg, fmt, p);
            RunTally(gs, alg, fmt, p) ==
              Tally(|attempts|, ErrorCount(attempts, p), SkippedCount(gs, alg, fmt, p), SkipReasons(gs, alg, p))
  {
    // One induction per counter keeps each proof small.
    RunTallyCountsCalls(gs, alg, fmt, p);
    RunTallyCountsSkipped(gs, alg, fmt, p);
  }

  /** The count and the errors of the tally are those of the calls made. */
  lemma {:induction false} RunTallyCountsCalls(gs: seq<TestGroup>, alg: string, fmt: Format, p: Provider)
    ensures var attempts := Attempts(gs, alg, fmt, p);
            RunTally(gs, alg, fmt, p).cntTests == |attempts| &&
            RunTally(gs, alg, fmt, p).errors == ErrorCount(attempts, p)
    decreases |gs|
  {
    if gs != [] {
      var init := gs[..|gs| - 1];
      RunTallyCountsCalls(init, alg, fmt, p);
      match VerifierFor(gs[|gs| - 1], alg, fmt, p)
      case None =>
        assert Attempts(gs, alg, fmt, p) == Attempts(init, alg, fmt, p);
      case Some(s) =>
        var run := AttemptsFor(s, gs[|gs| - 1].tests);
        assert Attempts(gs, alg, fmt, p) == Attempts(init, alg, fmt, p) + run;
        ErrorCountAppend(Attempts(init, alg, fmt, p), run, p);
    }
  }

  /** The skipped-key counter and the skip report of the tally follow the skipped groups. */
  lemma {:induction false} RunTallyCountsSkipped(gs: seq<TestGroup>, alg: string, fmt: Format, p: Provider)
    ensures RunTally(gs, alg, fmt, p).skippedKeys == SkippedCount(gs, alg, fmt, p)
    ensures RunTally(gs, alg, fmt, p).skippedGroups == SkipReasons(gs, alg, p)
    decreases |gs|
  {
    if gs != [] {
      RunTallyCountsSkipped(gs[..|gs| - 1], alg, fmt, p);
    }
  }

  /** Running one more case of a group adds that case's errors. */
  lemma CaseStep(s: Setup, cases: seq<TestCase>, j: nat, p: Provider)
    requires j < |cases|
    ensures ErrorCount(AttemptsFor(s, cases[..j + 1]), p) ==
              ErrorCount(AttemptsFor(s, cases[..j]), p) + AttemptErrors(Attempt(s.signatureName, s.key, cases[j]), p)
  {
    AttemptsForSnoc(s, cases, j);
    ErrorCountSnoc(AttemptsFor(s, cases[..j]), Attempt(s.signatureName, s.key, cases[j]), p);
  }

  /**
   * One case's try/catch: the verify call's outcome sets the verified flag,
   * an unexpected exception is an error, and the flag is then compared with
   * the expected result. Returns the errors the case adds.
   */
  method VerifyCase(signatureName: string, key: Bytes, testcase: TestCase, p: Provider) returns (added: nat)
    ensures added == AttemptErrors(Attempt(signatureName, key, testcase), p)
  {
    added := 0;
    var verified := false;
    match p.verify(signatureName, key, testcase.msg, testcase.sig) {
      case Returned(b) =>
        verified := b;
      case SignatureEx =>
        verified := false;
      case ArithmeticEx =>
        verified := false;
      case OtherEx =>
        verified := false;
        added := added + 1;
    }
    if !verified && testcase.result == Valid {
      added := added + 1;
    } else if verified && testcase.result == Invalid {
      added := added + 1;
    }
  }

  /**
   * Verifies every case of one resolved group, in order. Returns how many
   * cases were run and how many errors they added.
   */
  method VerifyGroupCases(signatureName: string, key: Bytes, cases: seq<TestCase>, p: Provider)
    returns (cntTests: nat, errors: nat)
    ensures cntTests == |cases|
    ensures errors == ErrorCount(AttemptsFor(Setup(signatureName, key), cases), p)
  {
    ghost var s := Setup(signatureName, key);
    cntTests, errors := 0, 0;
    for j := 0 to |cases|
      invariant cntTests == j
      invariant errors == ErrorCount(AttemptsFor(s, cases[..j]), p)
    {
      CaseStep(s, cases, j, p);
      cntTests := cntTests + 1;
      var added := VerifyCase(signatureName, key, cases[j], p);
      errors := errors + added;
    }
    AttemptsForWhole(s, cases);
  }

  /**
   * The verdict: no error, and the count of run cases equals the declared
   * count when nothing was skipped, or skipping was allowed otherwise.
   */
  function Passes(t: Tally, numberOfTests: int, allowSkippingKeys: bool): (passed: bool)
    ensures passed ==> t.errors == 0
    ensures t.skippedKeys == 0 ==> (passed <==> t.errors == 0 && t.cntTests == numberOfTests)
    ensures t.skippedKeys > 0 ==> (passed <==> t.errors == 0 && allowSkippingKeys)
  {
    t.errors == 0 && (if t.skippedKeys == 0 then t.cntTests == numberOfTests else allowSkippingKeys)
  }

  /**
   * Handles one group: builds its public key and resolves its signature
   * name, skipping the group when either fails, and otherwise verifies its
   * cases. Returns the tally with that group added.
   */
  method VerifyGroup(t: Tally, group: TestGroup, alg: string, fmt: Format, p: Provider) returns (t': Tally)
    ensures t' == GroupStep(t, group, alg, fmt, p)
  {
    if !p.acceptsPublicKey(PublicKeyFactoryName(alg), group.keyDer) {
      var skippedGroups := t.skippedGroups;
      if group.key.Some? && group.key.value.curve.Some? {
        skippedGroups := skippedGroups + {"curve = " + group.key.value.curve.value};
      }
      return t.(skippedKeys := t.skippedKeys + 1, skippedGroups := skippedGroups);
    }
    t' := VerifyKeyedGroup(t, group, alg, fmt, p);
  }

  /** Handles a group whose public key was built: resolves the signature name and verifies the cases. */
  method VerifyKeyedGroup(t: Tally, group: TestGroup, alg: string, fmt: Format, p: Provider) returns (t': Tally)
    requires PublicKeyBuilds(group, alg, p)
    ensures t' == GroupStep(t, group, alg, fmt, p)
  {
    var verifier := ResolveSignature(group.sha, alg, fmt, p.knows);
    if verifier.None? {
      return t.(skippedKeys := t.skippedKeys + 1);
    }
    var groupTests, groupErrors := VerifyGroupCases(verifier.value, group.keyDer, group.tests, p);
    t' := t.(cntTests := t.cntTests + groupTests, errors := t.errors + groupErrors);
  }

  /**
   * Runs the verification test over a document. Returns the final tally,
   * the verdict and whether the declared schema differs from the expected one.
   */
  method TestVerification(doc: TestDocument, alg: string, fmt: Format, allowSkippingKeys: bool, p: Provider)
    returns (t: Tally, passed: bool, schemaMismatch: bool)
    ensures t == RunTally(doc.testGroups, alg, fmt, p)
    ensures passed == Passes(t, doc.numberOfTests, allowSkippingKeys)
    ensures schemaMismatch == SchemaMismatch(alg, fmt, true, doc.schema)
  {
    schemaMismatch := SchemaMismatch(alg, fmt, true, doc.schema);
    var gs := doc.testGroups;
    t := Tally(0, 0, 0, {});
    for i := 0 to |gs|
      invariant t == RunTally(gs[..i], alg, fmt, p)
    {
      RunTallySnoc(gs, i, alg, fmt, p);
      t := VerifyGroup(t, gs[i], alg, fmt, p);
    }
    RunTallyWhole(gs, alg, fmt, p);
    passed := Passes(t, doc.numberOfTests, allowSkippingKeys);
  }

  /**
   * Every case of a document is either run exactly once or belongs to a
   * skipped group; with no skipped group, every case is run.
   */
  lemma {:induction false} CasesAccountedFor(gs: seq<TestGroup>, alg: string, fmt: Format, p: Provider)
    ensures |Attempts(gs, alg, fmt, p)| + SkippedCases(gs, alg, fmt, p) == TotalCases(gs)
    ensures SkippedCount(gs, alg, fmt, p) == 0 ==> SkippedCases(gs, alg, fmt, p) == 0
    decreases |gs|
  {
    if gs != [] {
      CasesAccountedFor(gs[..|gs| - 1], alg, fmt, p);
    }
  }

  /**
   * A document passes exactly when every case that was run behaves as
   * expected, and either no group was skipped and the document holds as
   * many cases as it declares, or some group was skipped and skipping is
   * allowed.
   */
  lemma VerificationVerdict(doc: TestDocument, alg: string, fmt: Format, allowSkippingKeys: bool, p: Provider)
    ensures var attempts := Attempts(doc.testGroups, alg, fmt, p);
            Passes(RunTally(doc.testGroups, alg, fmt, p), doc.numberOfTests, allowSkippingKeys) <==>
              (forall k :: 0 <= k < |attempts| ==> AttemptAgrees(attempts[k], p)) &&
              (if SkippedCount(doc.testGroups, alg, fmt, p) == 0 then TotalCases(doc.testGroups) == doc.numberOfTests
               else allowSkippingKeys)
  {
    RunTallyCounts(doc.testGroups, alg, fmt, p);
    ErrorCountZeroIff(Attempts(doc.testGroups, alg, fmt, p), p);
    CasesAccountedFor(doc.testGroups, alg, fmt, p);
  }

  /**
   * With skipping allowed and every run case behaving as expected, a
   * document with skipped groups passes whatever count it declares, having
   * run all cases but those of the skipped groups.
   */
  lemma SkippedGroupsTolerated(doc: TestDocument, alg: string, fmt: Format, p: Provider)
    requires SkippedCount(doc.testGroups, alg, fmt, p) > 0
    requires var attempts := Attempts(doc.testGroups, alg, fmt, p);
             forall k :: 0 <= k < |attempts| ==> AttemptAgrees(attempts[k], p)
    ensures Passes(RunTally(doc.testGroups, alg, fmt, p), doc.numberOfTests, true)
    ensures RunTally(doc.testGroups, alg, fmt, p).cntTests ==
              TotalCases(doc.testGroups) - SkippedCases(doc.testGroups, alg, fmt, p)
  {
    RunTallyCounts(doc.testGroups, alg, fmt, p);
    ErrorCountZeroIff(Attempts(doc.testGroups, alg, fmt, p), p);
    CasesAccountedFor(doc.testGroups, alg, fmt, p);
  }
}
