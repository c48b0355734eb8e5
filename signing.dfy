/**
 * The signing executor: for every group, build the private key and resolve
 * the signature instance (skipping the group when either fails), sign the
 * message of every case, compare the result byte for byte with the expected
 * signature, and render the verdict for the whole document.
 */
module Signing {
  import opened Wrappers
  import opened TestVectors
  import opened Oracle
  import opened SignatureNames
  import opened Runs

  /** The counters the signing executor keeps: matching signatures, errors, skipped groups. */
  datatype SignTally = SignTally(cntTests: nat, errors: nat, skippedKeys: nat)

  /**
   * A case behaves as expected: a produced signature equals the expected
   * one, whatever the expected result; a failure to sign is tolerated unless
   * the case is valid.
   */
  predicate SignAgrees(o: SignOutcome, tc: TestCase) {
    match o
    case Produced(s) => s == tc.sig
    case SignFailed => tc.result != Valid
  }

  /** The errors one signed case adds to the tally. */
  function SignCaseErrors(o: SignOutcome, tc: TestCase): (n: nat)
    ensures n <= 1
    ensures n == 0 <==> SignAgrees(o, tc)
  {
    match o
    case Produced(s) => if s != tc.sig then 1 else 0
    case SignFailed => if tc.result == Valid then 1 else 0
  }

  /**
   * Signing compares the result string only with "valid": classifying a case
   * by its parsed result gives the errors the harness computes from the
   * string, and "invalid" or any other string counts as "acceptable".
   */
  lemma SignResultStringClassification(o: SignOutcome, tc: TestCase, result: string)
    ensures SignCaseErrors(o, tc.(result := ParseResult(result))) ==
              match o
              case Produced(s) => (if s != tc.sig then 1 else 0)
              case SignFailed => (if result == "valid" then 1 else 0)
    ensures result != "valid" ==>
              SignCaseErrors(o, tc.(result := ParseResult(result))) == SignCaseErrors(o, tc.(result := Acceptable))
  {
  }

  /** Whether one signed case counts as a test run: only a matching signature does. */
  function SignCaseMatches(o: SignOutcome, tc: TestCase): (n: nat)
    ensures n <= 1
    ensures n == 1 <==> o.Produced? && o.signature == tc.sig
  {
    if o.Produced? && o.signature == tc.sig then 1 else 0
  }

  /** The outcome of signing one attempt's message with its setup. */
  function SignOutcomeOf(a: Attempt, p: Provider): SignOutcome {
    p.sign(a.signatureName, a.key, a.tc.msg)
  }

  predicate AttemptSignAgrees(a: Attempt, p: Provider) {
    SignAgrees(SignOutcomeOf(a, p), a.tc)
  }

  /** A failure to sign a case that is not valid: neither counted nor an error. */
  predicate ToleratedFailure(a: Attempt, p: Provider) {
    SignOutcomeOf(a, p) == SignFailed && a.tc.result != Valid
  }

  /** The errors a sequence of signing calls adds up to. */
  function SignErrorCount(attempts: seq<Attempt>, p: Provider): nat
    decreases |attempts|
  {
    if attempts == [] then 0
    else
      var a := attempts[|attempts| - 1];
      SignErrorCount(attempts[..|attempts| - 1], p) + SignCaseErrors(SignOutcomeOf(a, p), a.tc)
  }

  /** The number of signing calls whose signature matched. */
  function MatchCount(attempts: seq<Attempt>, p: Provider): nat
    decreases |attempts|
  {
    if attempts == [] then 0
    else
      var a := attempts[|attempts| - 1];
      MatchCount(attempts[..|attempts| - 1], p) + SignCaseMatches(SignOutcomeOf(a, p), a.tc)
  }

  /** The number of tolerated failures among signing calls. */
  function ToleratedCount(attempts: seq<Attempt>, p: Provider): nat
    decreases |attempts|
  {
    if attempts == [] then 0
    else ToleratedCount(attempts[..|attempts| - 1], p) + (if ToleratedFailure(attempts[|attempts| - 1], p) then 1 else 0)
  }

  lemma SignCountsSnoc(attempts: seq<Attempt>, a: Attempt, p: Provider)
    ensures SignErrorCount(attempts + [a], p) == SignErrorCount(attempts, p) + SignCaseErrors(SignOutcomeOf(a, p), a.tc)
    ensures MatchCount(attempts + [a], p) == MatchCount(attempts, p) + SignCaseMatches(SignOutcomeOf(a, p), a.tc)
  {
  }

  lemma {:induction false} SignCountsAppend(xs: seq<Attempt>, ys: seq<Attempt>, p: Provider)
    ensures SignErrorCount(xs + ys, p) == SignErrorCount(xs, p) + SignErrorCount(ys, p)
    ensures MatchCount(xs + ys, p) == MatchCount(xs, p) + MatchCount(ys, p)
    decreases |ys|
  {
    if ys == [] {
      assert xs + ys == xs;
    } else {
      var init := ys[..|ys| - 1];
      assert xs + ys == (xs + init) + [ys[|ys| - 1]];
      SignCountsSnoc(xs + init, ys[|ys| - 1], p);
      SignCountsAppend(xs, init, p);
    }
  }

  /**
   * Every signing call is exactly one of: a match (counted), an error, or a
   * tolerated failure; no error at all exactly when every call agrees.
   */
  lemma {:induction false} SignCasesPartition(attempts: seq<Attempt>, p: Provider)
    ensures MatchCount(attempts, p) + SignErrorCount(attempts, p) + ToleratedCount(attempts, p) == |attempts|
    ensures SignErrorCount(attempts, p) == 0 <==> forall k :: 0 <= k < |attempts| ==> AttemptSignAgrees(attempts[k], p)
    decreases |attempts|
  {
    if attempts != [] {
      var init := attempts[..|attempts| - 1];
      SignCasesPartition(init, p);
      assert forall k :: 0 <= k < |init| ==> init[k] == attempts[k];
    }
  }

  /** The private key of a group can be built, under the key-factory name for the algorithm. */
  predicate PrivateKeyBuilds(g: TestGroup, alg: string, p: Provider) {
    p.acceptsPrivateKey(PrivateKeyFactoryName(alg), g.privateKeyPkcs8)
  }

  /** The setup of a group for signing, or None when the group is skipped. */
  function SignerFor(g: TestGroup, alg: string, fmt: Format, p: Provider): (r: Option<Setup>)
    ensures r.Some? <==> PrivateKeyBuilds(g, alg, p) && ResolveSignature(g.sha, alg, fmt, p.knows).Some?
  {
    if !PrivateKeyBuilds(g, alg, p) then None
    else
      match ResolveSignature(g.sha, alg, fmt, p.knows)
      case None => None
      case Some(name) => Some(Setup(name, g.privateKeyPkcs8))
  }

  /** The signing calls a run over the groups makes, in order: skipped groups make none. */
  function SignAttempts(gs: seq<TestGroup>, alg: string, fmt: Format, p: Provider): seq<Attempt>
    decreases |gs|
  {
    if gs == [] then []
    else
      var g := gs[|gs| - 1];
      SignAttempts(gs[..|gs| - 1], alg, fmt, p) +
      match SignerFor(g, alg, fmt, p)
      case None => []
      case Some(s) => AttemptsFor(s, g.tests)
  }

  /** The number of groups skipped because their private key or their signature did not resolve. */
  function SignSkippedCount(gs: seq<TestGroup>, alg: string, fmt: Format, p: Provider): nat
    decreases |gs|
  {
    if gs == [] then 0
    else SignSkippedCount(gs[..|gs| - 1], alg, fmt, p) + (if SignerFor(gs[|gs| - 1], alg, fmt, p).None? then 1 else 0)
  }

  /** The tally after one more group: a skipped group counts a skipped key, a resolved one signs its cases. */
  function SignGroupStep(t: SignTally, g: TestGroup, alg: string, fmt: Format, p: Provider): SignTally {
    match SignerFor(g, alg, fmt, p)
    case None => t.(skippedKeys := t.skippedKeys + 1)
    case Some(s) =>
      var attempts := AttemptsFor(s, g.tests);
      t.(cntTests := t.cntTests + MatchCount(attempts, p), errors := t.errors + SignErrorCount(attempts, p))
  }

  /** The tally a signing run over the groups ends with, group by group. */
  function SignRunTally(gs: seq<TestGroup>, alg: string, fmt: Format, p: Provider): SignTally
    decreases |gs|
  {
    if gs == [] then SignTally(0, 0, 0)
    else SignGroupStep(SignRunTally(gs[..|gs| - 1], alg, fmt, p), gs[|gs| - 1], alg, fmt, p)
  }

  /**
   * The final tally counts the matching signatures among all calls made,
   * the errors of those calls and the skipped groups.
   */
  lemma {:induction false} SignRunTallyCounts(gs: seq<TestGroup>, alg: string, fmt: Format, p: Provider)
    ensures var attempts := SignAttempts(gs, alg, fmt, p);
            SignRunTally(gs, alg, fmt, p) ==
              SignTally(MatchCount(attempts, p), SignErrorCount(attempts, p), SignSkippedCount(gs, alg, fmt, p))
  {
    // One induction per counter keeps each proof small.
    SignRunTallyCountsCalls(gs, alg, fmt, p);
    SignRunTallyCountsSkipped(gs, alg, fmt, p);
  }

  /** The count and the errors of the tally are those of the calls made. */
  lemma {:induction false} SignRunTallyCountsCalls(gs: seq<TestGroup>, alg: string, fmt: Format, p: Provider)
    ensures var attempts := SignAttempts(gs, alg, fmt, p);
            SignRunTally(gs, alg, fmt, p).cntTests == MatchCount(attempts, p) &&
            SignRunTally(gs, alg, fmt, p).errors == SignErrorCount(attempts, p)
    decreases |gs|
  {
    if gs != [] {
      var init := gs[..|gs| - 1];
      SignRunTallyCountsCalls(init, alg, fmt, p);
      match SignerFor(gs[|gs| - 1], alg, fmt, p)
      case None =>
        assert SignAttempts(gs, alg, fmt, p) == SignAttempts(init, alg, fmt, p);
      case Some(s) =>
        var run := AttemptsFor(s, gs[|gs| - 1].tests);
        assert SignAttempts(gs, alg, fmt, p) == SignAttempts(init, alg, fmt, p) + run;
        SignCountsAppend(SignAttempts(init, alg, fmt, p), run, p);
    }
  }

  /** The skipped-key counter of the tally is the number of skipped groups. */
  lemma {:induction false} SignRunTallyCountsSkipped(gs: seq<TestGroup>, alg: string, fmt: Format, p: Provider)
    ensures SignRunTally(gs, alg, fmt, p).skippedKeys == SignSkippedCount(gs, alg, fmt, p)
    decreases |gs|
  {
    if gs != [] {
      SignRunTallyCountsSkipped(gs[..|gs| - 1], alg, fmt, p);
    }
  }

  /** Signing one more case of a group adds that case's match and errors. */
  lemma SignCaseStep(s: Setup, cases: seq<TestCase>, j: nat, p: Provider)
    requires j < |cases|
    ensures var o := p.sign(s.signatureName, s.key, cases[j].msg);
            MatchCount(AttemptsFor(s, cases[..j + 1]), p) ==
              MatchCount(AttemptsFor(s, cases[..j]), p) + SignCaseMatches(o, cases[j]) &&
            SignErrorCount(AttemptsFor(s, cases[..j + 1]), p) ==
              SignErrorCount(AttemptsFor(s, cases[..j]), p) + SignCaseErrors(o, cases[j])
  {
    AttemptsForSnoc(s, cases, j);
    SignCountsSnoc(AttemptsFor(s, cases[..j]), Attempt(s.signatureName, s.key, cases[j]), p);
  }

  /**
   * Signs every case of one resolved group, in order. Returns how many
   * signatures matched and how many errors the group added.
   */
  method SignGroupCases(signatureName: string, key: Bytes, cases: seq<TestCase>, p: Provider)
    returns (cntTests: nat, errors: nat)
    ensures cntTests == MatchCount(AttemptsFor(Setup(signatureName, key), cases), p)
    ensures errors == SignErrorCount(AttemptsFor(Setup(signatureName, key), cases), p)
  {
    cntTests, errors := 0, 0;
    for j := 0 to |cases|
      invariant cntTests == MatchCount(AttemptsFor(Setup(signatureName, key), cases[..j]), p)
      invariant errors == SignErrorCount(AttemptsFor(Setup(signatureName, key), cases[..j]), p)
    {
      SignCaseStep(Setup(signatureName, key), cases, j, p);
      var testcase := cases[j];
      match p.sign(signatureName, key, testcase.msg) {
        case Produced(sig) =>
          if sig != testcase.sig {
            errors := errors + 1;
          } else {
            cntTests := cntTests + 1;
          }
        case SignFailed =>
          if testcase.result == Valid {
            errors := errors + 1;
          }
      }
    }
    AttemptsForWhole(Setup(signatureName, key), cases);
  }

  /**
   * Handles one group: builds its private key and resolves its signature
   * name, skipping the group when either fails, and otherwise signs its
   * cases. Returns the tally with that group added.
   */
  method SignGroup(t: SignTally, group: TestGroup, alg: string, fmt: Format, p: Provider) returns (t': SignTally)
    ensures t' == SignGroupStep(t, group, alg, fmt, p)
  {
    if !p.acceptsPrivateKey(PrivateKeyFactoryName(alg), group.privateKeyPkcs8) {
      return t.(skippedKeys := t.skippedKeys + 1);
    }
    t' := SignKeyedGroup(t, group, alg, fmt, p);
  }

  /** Handles a group whose private key was built: resolves the signature name and signs the cases. */
  method SignKeyedGroup(t: SignTally, group: TestGroup, alg: string, fmt: Format, p: Provider) returns (t': SignTally)
    requires PrivateKeyBuilds(group, alg, p)
    ensures t' == SignGroupStep(t, group, alg, fmt, p)
  {
    var signer := ResolveSignature(group.sha, alg, fmt, p.knows);
    if signer.None? {
      return t.(skippedKeys := t.skippedKeys + 1);
    }
    var groupMatches, groupErrors := SignGroupCases(signer.value, group.privateKeyPkcs8, group.tests, p);
    t' := t.(cntTests := t.cntTests + groupMatches, errors := t.errors + groupErrors);
  }

  /** The signing verdict: no error, and skipping allowed if some group was skipped. */
  function SignPasses(t: SignTally, allowSkippingKeys: bool): (passed: bool)
    ensures passed ==> t.errors == 0
    ensures allowSkippingKeys || t.skippedKeys == 0 ==> (passed <==> t.errors == 0)
    ensures t.skippedKeys > 0 && !allowSkippingKeys ==> !passed
  {
    t.errors == 0 && (t.skippedKeys > 0 ==> allowSkippingKeys)
  }

  /**
   * Runs the signing test over a document. Returns the final tally, the
   * verdict and whether the declared schema differs from the expected one.
   * The declared number of tests plays no part.
   */
  method TestSigning(doc: TestDocument, alg: string, fmt: Format, allowSkippingKeys: bool, p: Provider)
    returns (t: SignTally, passed: bool, schemaMismatch: bool)
    ensures t == SignRunTally(doc.testGroups, alg, fmt, p)
    ensures passed == SignPasses(t, allowSkippingKeys)
    ensures schemaMismatch == SchemaMismatch(alg, fmt, false, doc.schema)
  {
    schemaMismatch := SchemaMismatch(alg, fmt, false, doc.schema);
    var gs := doc.testGroups;
    t := SignTally(0, 0, 0);
    for i := 0 to |gs|
      invariant t == SignRunTally(gs[..i], alg, fmt, p)
    {
      assert gs[..i + 1][..i] == gs[..i];
      t := SignGroup(t, gs[i], alg, fmt, p);
    }
    assert gs[..|gs|] == gs;
    passed := t.errors == 0;
    if t.skippedKeys > 0 {
      passed := passed && allowSkippingKeys;
    }
  }

  /**
   * A document passes signing exactly when every signing call agrees with
   * its case, and skipping is allowed if some group was skipped.
   */
  lemma SigningVerdict(doc: TestDocument, alg: string, fmt: Format, allowSkippingKeys: bool, p: Provider)
    ensures var attempts := SignAttempts(doc.testGroups, alg, fmt, p);
            SignPasses(SignRunTally(doc.testGroups, alg, fmt, p), allowSkippingKeys) <==>
              (forall k :: 0 <= k < |attempts| ==> AttemptSignAgrees(attempts[k], p)) &&
              (SignSkippedCount(doc.testGroups, alg, fmt, p) > 0 ==> allowSkippingKeys)
  {
    SignRunTallyCounts(doc.testGroups, alg, fmt, p);
    SignCasesPartition(SignAttempts(doc.testGroups, alg, fmt, p), p);
  }

  /**
   * The count the signing run reports is the number of calls made, less
   * the errors and the tolerated failures; a passing run counts every call
   * that was not a tolerated failure.
   */
  lemma SigningCountsMatches(gs: seq<TestGroup>, alg: string, fmt: Format, p: Provider)
    ensures var t := SignRunTally(gs, alg, fmt, p);
            var attempts := SignAttempts(gs, alg, fmt, p);
            t.cntTests + t.errors + ToleratedCount(attempts, p) == |attempts|
  {
    SignRunTallyCounts(gs, alg, fmt, p);
    SignCasesPartition(SignAttempts(gs, alg, fmt, p), p);
  }
}
