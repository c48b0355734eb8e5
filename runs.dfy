/**
 * What the two executors share: a group either resolves to a signature
 * instance and a key, and then every one of its cases is run once under
 * them, or it is skipped as a whole.
 */
module Runs {
  import opened TestVectors

  /** The signature name and the encoded key a group's cases run under. */
  datatype Setup = Setup(signatureName: string, key: Bytes)

  /** One provider call: one test case run under its group's setup. */
  datatype Attempt = Attempt(signatureName: string, key: Bytes, tc: TestCase)

  /** The calls made for the cases of a resolved group, in order. */
  function AttemptsFor(s: Setup, cases: seq<TestCase>): (r: seq<Attempt>)
    ensures |r| == |cases|
    decreases |cases|
  {
    if cases == [] then []
    else AttemptsFor(s, cases[..|cases| - 1]) + [Attempt(s.signatureName, s.key, cases[|cases| - 1])]
  }

  /** Each call runs the case at the same position under the group's setup. */
  lemma {:induction false} AttemptsForAt(s: Setup, cases: seq<TestCase>, k: nat)
    requires k < |cases|
    ensures AttemptsFor(s, cases)[k] == Attempt(s.signatureName, s.key, cases[k])
    decreases |cases|
  {
    if k < |cases| - 1 {
      AttemptsForAt(s, cases[..|cases| - 1], k);
    }
  }

  lemma AttemptsForSnoc(s: Setup, cases: seq<TestCase>, j: nat)
    requires j < |cases|
    ensures AttemptsFor(s, cases[..j + 1]) ==
              AttemptsFor(s, cases[..j]) + [Attempt(s.signatureName, s.key, cases[j])]
  {
    assert cases[..j + 1][..j] == cases[..j];
  }

  /**
   * The calls for the whole of a case list. Used after a case loop in place
   * of the inline slice assertion, which keeps that loop's proof cost stable.
   */
  lemma AttemptsForWhole(s: Setup, cases: seq<TestCase>)
    ensures AttemptsFor(s, cases[..|cases|]) == AttemptsFor(s, cases)
  {
    assert cases[..|cases|] == cases;
  }

  /** The number of test cases a document holds. */
  function TotalCases(gs: seq<TestGroup>): nat
    decreases |gs|
  {
    if gs == [] then 0 else TotalCases(gs[..|gs| - 1]) + |gs[|gs| - 1].tests|
  }
}
