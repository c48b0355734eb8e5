# Wycheproof signature test harness, modelled in Dafny

This project models the decision logic of the Wycheproof test harness
`JsonSignatureTest`. The harness reads a JSON file of signature test vectors
and runs each vector against a JCA signature provider. It then decides
whether the provider behaved as the vectors expect. The model covers five
parts:

- **Name resolution.** Digest names are normalised: "SHA-256", matched
  ignoring case, becomes "SHA256". The harness then builds the JCA signature
  name for each format. RAW and ASN use `<md>WITH<alg>`. P1363 is tried only
  for ECDSA and DSA: first the JDK name `<md>WITH<alg>inP1363Format`, then the
  BouncyCastle name `<md>WITHPLAIN-<alg>`, and the first one the provider
  knows is used.
- **Expected schema.** A table gives the JSON schema that a test-vector file
  should declare for a given (algorithm, format, verify or sign) triple. The
  table entry is "" when no schema is defined.
- **Key factories.** Public keys for ECDSA come from the "EC" key factory.
  Private keys always come from the factory named after the algorithm.
- **Verification executor** (`testVerification`). For each group it builds
  the public key and resolves the signature instance. If either fails, it
  skips the whole group. Otherwise it verifies every case and classifies the
  outcome against the case's expected result ("valid", "invalid" or
  "acceptable"). It keeps the counters `cntTests`, `errors` and
  `skippedKeys` and the set `skippedGroups`. The verdict compares the counts
  with the declared `numberOfTests` and with `allowSkippingKeys`.
- **Signing executor** (`testSigning`). It follows the same loop. Each
  produced signature must equal the expected one byte for byte. A failure to
  sign is an error only for "valid" cases. The verdict ignores
  `numberOfTests`.

The provider is an oracle: the `Oracle.Provider` datatype holds, as function
values, whether it knows a signature name, whether a key factory accepts an
encoded key, and how a verify or sign call ends. The test-vector document is
given directly as datatypes (`TestVectors`). A case's "result" string is
held as the enumeration `ExpectedResult`, read by `TestVectors.ParseResult`:
the harness only ever compares the string with "valid" and "invalid", so
every other string behaves as "acceptable". The lemmas
`ResultStringClassification` and `SignResultStringClassification` prove that
classifying by the parsed value gives the source's counts for every string.

Each executor is a method with a `for` loop over groups and a `for` loop over
cases. It is proved against left-fold specification functions:

- `RunTally` and `SignRunTally` fold the tally group by group.
- `Attempts` and `SignAttempts` list, in order, the provider calls a run
  makes.

Lemmas tie the folds together (`RunTallyCounts`, `SignRunTallyCounts`) and
characterise the verdicts as if-and-only-if statements over the individual
calls (`VerificationVerdict`, `SigningVerdict`). The body of each group loop
is split into a helper method: `VerifyGroup` and `VerifyKeyedGroup` for
verification, and `SignGroup` and `SignKeyedGroup` for signing.

Modules: `Wrappers` (Option), `TestVectors`, `Oracle`, `SignatureNames`
(name resolution, schema table and key factories), `Runs` (what both
executors share), `Verification` and `Signing`.

## Model

Source paths are relative to the repository root.

| member | source | states |
|---|---|---|
| SignatureNames.Sha2NamesExclusive | java/com/google/security/wycheproof/testcases/JsonSignatureTest.java:86-96 | no digest name matches two of the SHA-2 names ignoring case, so the order of the if-chain does not matter |
| SignatureNames.NormalizeDigest | java/com/google/security/wycheproof/testcases/JsonSignatureTest.java:86-96 | each of "SHA-1", "SHA-224", "SHA-256", "SHA-384" and "SHA-512", matched ignoring case, maps to its hyphen-free name; any other name is returned unchanged |
| SignatureNames.NormalizeDigestExamples | java/com/google/security/wycheproof/testcases/JsonSignatureTest.java:82-96 | "sha-256" becomes "SHA256"; "SHA3-256" is kept as it is |
| SignatureNames.CandidateNames | java/com/google/security/wycheproof/testcases/JsonSignatureTest.java:97-127 | at most two candidates; none exactly when the format is P1363 and the algorithm is neither "ECDSA" nor "DSA"; each starts with the normalised digest followed by "WITH"; no candidate is repeated |
| SignatureNames.FirstKnown | java/com/google/security/wycheproof/testcases/JsonSignatureTest.java:107-118 | None exactly when the provider knows no candidate; otherwise the result is a known candidate and every earlier candidate is unknown |
| SignatureNames.ResolveSignature | java/com/google/security/wycheproof/testcases/JsonSignatureTest.java:79-127 | a name is returned only if the provider knows it; None stands for NoSuchAlgorithmException |
| SignatureNames.ResolveSignatureIsFirstKnown | java/com/google/security/wycheproof/testcases/JsonSignatureTest.java:97-127 | the try-and-fall-back code gives the same result as taking the first known name in the ordered candidate list |
| SignatureNames.RawAndAsnResolveAlike | java/com/google/security/wycheproof/testcases/JsonSignatureTest.java:97-100 | RAW and ASN resolve to the same signature name |
| SignatureNames.Sha256EcdsaNames | java/com/google/security/wycheproof/testcases/JsonSignatureTest.java:86-115 | "SHA-256" with "ECDSA" gives ["SHA256WITHECDSA"] for ASN, and ["SHA256WITHECDSAinP1363Format", "SHA256WITHPLAIN-ECDSA"] in this order for P1363 |
| SignatureNames.ExpectedSchema | java/com/google/security/wycheproof/testcases/JsonSignatureTest.java:138-171 | a schema is defined in exactly three cases: verification of ECDSA or DSA in ASN or P1363; verification of RSA in RAW; generation of RSA in any format |
| SignatureNames.ExpectedSchemaDistinguishesTests | java/com/google/security/wycheproof/testcases/JsonSignatureTest.java:138-171 | two test kinds that expect the same defined schema have the same algorithm and direction, and the same format unless they are RSA generation |
| SignatureNames.SchemaMismatch | java/com/google/security/wycheproof/testcases/JsonSignatureTest.java:250-252 | a mismatch is reported exactly when a schema is defined for the test and the declared schema differs from it; both executors compute their schema warning with it (lines 252 and 397) |
| SignatureNames.KeyFactoriesDifferOnlyForEcdsa | java/com/google/security/wycheproof/testcases/JsonSignatureTest.java:181-203 | the public-key factory (`PublicKeyFactoryName`, lines 183-187) and the private-key factory (`PrivateKeyFactoryName`, line 199) differ exactly for "ECDSA", where the public one is "EC"; for every other algorithm both are the algorithm name |
| Runs.AttemptsFor | java/com/google/security/wycheproof/testcases/JsonSignatureTest.java:288-289 | a resolved group makes exactly one provider call per case |
| Runs.AttemptsForAt | java/com/google/security/wycheproof/testcases/JsonSignatureTest.java:288-301 | the k-th call runs the k-th case under the group's signature name and key |
| Verification.CaseErrors | java/com/google/security/wycheproof/testcases/JsonSignatureTest.java:300-359 | no error exactly when the outcome agrees with the expected result; two errors exactly for an unexpected exception on a valid case; SignatureException and ArithmeticException add an error only on a valid case; an acceptable case errs only on an unexpected exception |
| Verification.ResultStringClassification | java/com/google/security/wycheproof/testcases/JsonSignatureTest.java:330-359 | for every result string and verify outcome, the errors of the parsed result equal the errors the source counts by comparing the string with "valid" and "invalid"; any other string counts as "acceptable" |
| Verification.ErrorCountAppend | java/com/google/security/wycheproof/testcases/JsonSignatureTest.java:328-358 | errors of consecutive runs add up |
| Verification.ErrorCountZeroIff | java/com/google/security/wycheproof/testcases/JsonSignatureTest.java:300-359 | a run has no error exactly when every call agrees with its case; each call adds at most two errors |
| Verification.VerifierFor | java/com/google/security/wycheproof/testcases/JsonSignatureTest.java:266-287 | a group gets a verifier exactly when the public-key factory ("EC" for "ECDSA", otherwise the algorithm name) accepts its encoded key and its signature name resolves |
| Verification.SkipReasonsExactly | java/com/google/security/wycheproof/testcases/JsonSignatureTest.java:268-286 | "curve = X" is reported exactly for the groups whose public key failed and whose key object names curve X; a group skipped for its signature name reports nothing |
| Verification.RunTallyCounts | java/com/google/security/wycheproof/testcases/JsonSignatureTest.java:265-361 | the final tally counts one test per call made, the errors of those calls, one skipped key per skipped group, and the curve reasons |
| Verification.RunTallyCountsCalls | java/com/google/security/wycheproof/testcases/JsonSignatureTest.java:288-359 | the tally's test count is the number of calls made and its errors are those of the calls |
| Verification.RunTallyCountsSkipped | java/com/google/security/wycheproof/testcases/JsonSignatureTest.java:265-287 | the tally's skipped-key count is the number of skipped groups and its report is the set of curve reasons |
| Verification.CaseStep | java/com/google/security/wycheproof/testcases/JsonSignatureTest.java:288-359 | verifying one more case adds exactly that case's errors |
| Verification.VerifyCase | java/com/google/security/wycheproof/testcases/JsonSignatureTest.java:296-359 | one case's try/catch, with its verified flag, its three catch arms and its error increments, adds exactly the errors `CaseErrors` assigns to the verify outcome and the expected result |
| Verification.VerifyGroupCases | java/com/google/security/wycheproof/testcases/JsonSignatureTest.java:288-360 | the case loop counts every case once and adds the errors the specification assigns to its calls |
| Verification.VerifyGroup | java/com/google/security/wycheproof/testcases/JsonSignatureTest.java:266-279 | one pass of the group loop yields the specified group step: a failed public key skips the group and records its curve |
| Verification.VerifyKeyedGroup | java/com/google/security/wycheproof/testcases/JsonSignatureTest.java:280-360 | with the key built, an unresolved name skips the group; otherwise its cases are run and counted |
| Verification.TestVerification | java/com/google/security/wycheproof/testcases/JsonSignatureTest.java:244-374 | the executor ends with the specified tally; its verdict is errors == 0 and, when no key was skipped, cntTests == numberOfTests, otherwise allowSkippingKeys; it flags a schema mismatch exactly when a schema is expected and differs from the declared one |
| Verification.CasesAccountedFor | java/com/google/security/wycheproof/testcases/JsonSignatureTest.java:265-289 | every case of the document is either run once or belongs to a skipped group; with no skipped group, every case runs |
| Verification.VerificationVerdict | java/com/google/security/wycheproof/testcases/JsonSignatureTest.java:368-373 | the verdict `Passes` holds exactly when every call agrees with its case and, if nothing was skipped, the document holds numberOfTests cases, otherwise skipping is allowed |
| Verification.SkippedGroupsTolerated | java/com/google/security/wycheproof/testcases/JsonSignatureTest.java:369-373 | with skipping allowed, agreeing calls and a skipped group, the file passes whatever count it declares, having run all cases outside the skipped groups |
| Signing.SignCaseErrors | java/com/google/security/wycheproof/testcases/JsonSignatureTest.java:432-462 | at most one error per case, and none exactly when the case agrees: a produced signature must equal the expected one whatever the result, and a sign failure is tolerated unless the case is valid |
| Signing.SignResultStringClassification | java/com/google/security/wycheproof/testcases/JsonSignatureTest.java:432-462 | for every result string and sign outcome, the errors of the parsed result equal the errors the source counts by comparing the string with "valid" only; "invalid" and any other string count as "acceptable" |
| Signing.SignCountsAppend | java/com/google/security/wycheproof/testcases/JsonSignatureTest.java:425-463 | matches and errors of consecutive runs add up |
| Signing.SignCasesPartition | java/com/google/security/wycheproof/testcases/JsonSignatureTest.java:425-463 | each signing call is exactly one of a counted match (a produced signature equal to the expected one), an error or a tolerated failure; no error exactly when every call agrees |
| Signing.SignerFor | java/com/google/security/wycheproof/testcases/JsonSignatureTest.java:409-424 | a group gets a signer exactly when the private-key factory, named by the algorithm itself, accepts its PKCS#8 key and its signature name resolves |
| Signing.SignRunTallyCounts | java/com/google/security/wycheproof/testcases/JsonSignatureTest.java:405-464 | the final tally counts the matching signatures among the calls made, their errors, and one skipped key per skipped group |
| Signing.SignRunTallyCountsCalls | java/com/google/security/wycheproof/testcases/JsonSignatureTest.java:425-463 | the tally's count is the number of matching signatures among the calls made and its errors are those of the calls |
| Signing.SignRunTallyCountsSkipped | java/com/google/security/wycheproof/testcases/JsonSignatureTest.java:408-424 | the tally's skipped-key count is the number of skipped groups |
| Signing.SignCaseStep | java/com/google/security/wycheproof/testcases/JsonSignatureTest.java:425-463 | signing one more case adds exactly that case's match and error |
| Signing.SignGroupCases | java/com/google/security/wycheproof/testcases/JsonSignatureTest.java:425-463 | the case loop counts the matching signatures and the errors the specification assigns to its calls |
| Signing.SignGroup | java/com/google/security/wycheproof/testcases/JsonSignatureTest.java:409-416 | one pass of the group loop yields the specified group step: a failed private key skips the group |
| Signing.SignKeyedGroup | java/com/google/security/wycheproof/testcases/JsonSignatureTest.java:417-463 | with the key built, an unresolved name skips the group; otherwise its cases are signed and checked |
| Signing.TestSigning | java/com/google/security/wycheproof/testcases/JsonSignatureTest.java:389-472 | the executor ends with the specified tally; its verdict is errors == 0 and, when a key was skipped, allowSkippingKeys, with no check against numberOfTests; it flags a schema mismatch exactly when a generation schema is expected and differs |
| Signing.SigningVerdict | java/com/google/security/wycheproof/testcases/JsonSignatureTest.java:465-471 | the verdict `SignPasses` holds exactly when every call agrees with its case and skipping is allowed if some group was skipped |
| Signing.SigningCountsMatches | java/com/google/security/wycheproof/testcases/JsonSignatureTest.java:425-471 | the reported count plus the errors plus the tolerated failures equals the number of signing calls made |

## Left out

- Cryptography and key decoding (`Signature.getInstance`, `initVerify`, `update`, `verify`, `initSign`, `sign`, `KeyFactory.generatePublic`, `KeyFactory.generatePrivate`) are not modelled. They are oracle fields of `Oracle.Provider`; the model takes their answers as given.
- JSON parsing and hex conversion (`getString`, `getBytes`, `JsonUtil`, `TestUtil.hexToBytes`) are not modelled. The document is given as datatypes, with bytes as `seq<bv8>`.
- In signing, the harness compares hex strings from `bytesToHex`. The model compares the bytes directly, which is equivalent because hex encoding is one-to-one.
- Console output (`System.out.println`) is not modelled. It does not affect the verdict; the schema warning is the `schemaMismatch` output.
- JUnit assertions are replaced by a returned `passed` flag. The `@Test` entry methods, which only bind file names to parameters, are not modelled.
- Exceptions that escape the executors abort a run rather than being classified, and are not modelled: `initVerify`/`update` outside the try block at line 296, a missing JSON field, a runtime exception from `generatePublic` or `generatePrivate` while building a key (only `GeneralSecurityException` is caught, at lines 270 and 413), and in signing any exception other than `InvalidKeyException` or `SignatureException`. The model treats every document as well-formed.
- SignatureNames.EqualsIgnoreCase: folds ASCII letters only. Java's `equalsIgnoreCase` also applies Unicode case folding, for example U+017F long s to 'S', so a non-ASCII spelling of "sha-256" would be normalised by Java but not by the model.
- Verification.Tally and Signing.SignTally: the counters are unbounded naturals. Java's `int` counters would wrap after 2^31 increments.
- Verification.VerifyGroup, Verification.VerifyKeyedGroup, Verification.VerifyCase, Signing.SignGroup and Signing.SignKeyedGroup: each is one pass of a group or case loop, split out of the source's loop body. Their order of effects is the source's.
