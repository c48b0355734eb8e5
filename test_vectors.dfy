/**
 * The parsed form of a Wycheproof signature test-vector file: a document
 * with an ordered list of groups, each holding one key and an ordered list
 * of test cases. JSON parsing and hex decoding are not modelled; the
 * document is given directly as these values.
 */
module TestVectors {
  import opened Wrappers

  type Bytes = seq<bv8>

  /** The "result" field of a test case. */
  datatype ExpectedResult = Valid | Invalid | Acceptable

  /**
   * The harness only ever compares the result string with "valid" and with
   * "invalid"; every other string is treated exactly like "acceptable".
   */
  function ParseResult(s: string): (r: ExpectedResult)
    ensures r == Valid <==> s == "valid"
    ensures r == Invalid <==> s == "invalid"
    ensures r == Acceptable <==> s != "valid" && s != "invalid"
  {
    if s == "valid" then Valid
    else if s == "invalid" then Invalid
    else Acceptable
  }

  datatype TestCase = TestCase(
    tcId: int,
    comment: string,
    msg: Bytes,
    sig: Bytes,
    result: ExpectedResult)

  /** The optional "key" object of a group; only its "curve" member is read. */
  datatype KeyStruct = KeyStruct(curve: Option<string>)

  datatype TestGroup = TestGroup(
    key: Option<KeyStruct>,
    keyDer: Bytes,
    privateKeyPkcs8: Bytes,
    sha: string,
    tests: seq<TestCase>)

  datatype TestDocument = TestDocument(
    algorithm: string,
    schema: string,
    numberOfTests: int,
    testGroups: seq<TestGroup>)
}
