/**
 * Resolution of JCA algorithm names: digest-name normalisation, the
 * candidate signature names per format, the first-success-wins choice
 * among them, the expected schema per test kind and the key-factory names.
 */
module SignatureNames {
  import opened Wrappers

  /** The encoding of the signatures in a test-vector file. */
  datatype Format = RAW | ASN | P1363

  /** ASCII upper-casing, the folding equalsIgnoreCase applies to these names. */
  function UpperAscii(c: char): char {
    if 'a' <= c <= 'z' then (c as int - 32) as char else c
  }

  /** Java's equalsIgnoreCase on these names: same length, equal characters after upper-casing. */
  predicate EqualsIgnoreCase(a: string, b: string) {
    |a| == |b| && forall i :: 0 <= i < |a| ==> UpperAscii(a[i]) == UpperAscii(b[i])
  }

  /** The hyphenated digest names that are rewritten, matched ignoring case. */
  predicate IsHyphenatedSha(md: string) {
    EqualsIgnoreCase(md, "SHA-1") || EqualsIgnoreCase(md, "SHA-224") || EqualsIgnoreCase(md, "SHA-256") ||
    EqualsIgnoreCase(md, "SHA-384") || EqualsIgnoreCase(md, "SHA-512")
  }

  /** No name matches two of the SHA-2 names: they differ in their fifth or sixth character. */
  lemma Sha2NamesExclusive(md: string)
    ensures !(EqualsIgnoreCase(md, "SHA-224") && EqualsIgnoreCase(md, "SHA-256"))
    ensures !(EqualsIgnoreCase(md, "SHA-224") && EqualsIgnoreCase(md, "SHA-384"))
    ensures !(EqualsIgnoreCase(md, "SHA-224") && EqualsIgnoreCase(md, "SHA-512"))
    ensures !(EqualsIgnoreCase(md, "SHA-256") && EqualsIgnoreCase(md, "SHA-384"))
    ensures !(EqualsIgnoreCase(md, "SHA-256") && EqualsIgnoreCase(md, "SHA-512"))
    ensures !(EqualsIgnoreCase(md, "SHA-384") && EqualsIgnoreCase(md, "SHA-512"))
  {
    if |md| == 7 {
      var c4, c5 := UpperAscii(md[4]), UpperAscii(md[5]);
      assert EqualsIgnoreCase(md, "SHA-224") ==> c4 == '2' && c5 == '2';
      assert EqualsIgnoreCase(md, "SHA-256") ==> c4 == '2' && c5 == '5';
      assert EqualsIgnoreCase(md, "SHA-384") ==> c4 == '3';
      assert EqualsIgnoreCase(md, "SHA-512") ==> c4 == '5';
    }
  }

  /**
   * Rewrites a hyphenated SHA-1/SHA-2 digest name, matched ignoring case, to
   * the form used inside signature names; every other name (e.g. "SHA3-256")
   * is kept as it is.
   */
  function NormalizeDigest(md: string): (r: string)
    ensures EqualsIgnoreCase(md, "SHA-1") ==> r == "SHA1"
    ensures EqualsIgnoreCase(md, "SHA-224") ==> r == "SHA224"
    ensures EqualsIgnoreCase(md, "SHA-256") ==> r == "SHA256"
    ensures EqualsIgnoreCase(md, "SHA-384") ==> r == "SHA384"
    ensures EqualsIgnoreCase(md, "SHA-512") ==> r == "SHA512"
    ensures !IsHyphenatedSha(md) ==> r == md
  {
    Sha2NamesExclusive(md);
    if EqualsIgnoreCase(md, "SHA-1") then "SHA1"
    else if EqualsIgnoreCase(md, "SHA-224") then "SHA224"
    else if EqualsIgnoreCase(md, "SHA-256") then "SHA256"
    else if EqualsIgnoreCase(md, "SHA-384") then "SHA384"
    else if EqualsIgnoreCase(md, "SHA-512") then "SHA512"
    else md
  }

  /** A lower-case SHA-2 name is rewritten too; a SHA-3 name is kept. */
  lemma NormalizeDigestExamples()
    ensures NormalizeDigest("sha-256") == "SHA256"
    ensures NormalizeDigest("SHA3-256") == "SHA3-256"
  {
  }

  /** The only algorithms for which a P1363 signature encoding is tried. */
  predicate SupportsP1363(alg: string) {
    alg == "ECDSA" || alg == "DSA"
  }

  /** The name the JDK (11 and later) uses for P1363-encoded signatures. */
  function JdkP1363Name(md: string, alg: string): string {
    NormalizeDigest(md) + "WITH" + alg + "inP1363Format"
  }

  /** The name BouncyCastle uses for P1363-encoded signatures. */
  function BcP1363Name(md: string, alg: string): string {
    NormalizeDigest(md) + "WITHPLAIN-" + alg
  }

  /**
   * The signature names tried, in order, for a digest, an algorithm and a
   * format; empty when the combination is not supported at all.
   */
  function CandidateNames(md: string, alg: string, fmt: Format): (r: seq<string>)
    ensures |r| <= 2
    ensures r == [] <==> fmt == P1363 && !SupportsP1363(alg)
    ensures forall k :: 0 <= k < |r| ==> NormalizeDigest(md) + "WITH" <= r[k]
    ensures forall i, j :: 0 <= i < j < |r| ==> r[i] != r[j]
  {
    match fmt
    case RAW | ASN => [NormalizeDigest(md) + "WITH" + alg]
    case P1363 =>
      if SupportsP1363(alg) then
        var n := NormalizeDigest(md);
        assert JdkP1363Name(md, alg)[|n| + 4] != BcP1363Name(md, alg)[|n| + 4];
        assert (n + "WITH") + ("PLAIN-" + alg) == BcP1363Name(md, alg);
        assert (n + "WITH") + (alg + "inP1363Format") == JdkP1363Name(md, alg);
        [JdkP1363Name(md, alg), BcP1363Name(md, alg)]
      else []
  }

  /**
   * The first name the provider knows, trying them in order; None when it
   * knows none of them.
   */
  function FirstKnown(names: seq<string>, known: string -> bool): (r: Option<string>)
    ensures r.None? <==> forall k :: 0 <= k < |names| ==> !known(names[k])
    ensures r.Some? ==> exists i :: 0 <= i < |names| && names[i] == r.value && known(names[i]) &&
                          forall k :: 0 <= k < i ==> !known(names[k])
  {
    if names == [] then None
    else if known(names[0]) then Some(names[0])
    else
      var r := FirstKnown(names[1..], known);
      if r.Some? then
        var i :| 0 <= i < |names[1..]| && names[1..][i] == r.value && known(names[1..][i]) &&
                 forall k :: 0 <= k < i ==> !known(names[1..][k]);
        assert names[i + 1] == r.value;
        r
      else r
  }

  /**
   * The signature name the harness obtains from the provider, or None where
   * getSignatureInstance throws NoSuchAlgorithmException.
   */
  function ResolveSignature(md: string, alg: string, fmt: Format, known: string -> bool): (r: Option<string>)
    ensures r.Some? ==> known(r.value)
  {
    match fmt
    case RAW | ASN =>
      var n := NormalizeDigest(md) + "WITH" + alg;
      if known(n) then Some(n) else None
    case P1363 =>
      if !SupportsP1363(alg) then None
      else if known(JdkP1363Name(md, alg)) then Some(JdkP1363Name(md, alg))
      else if known(BcP1363Name(md, alg)) then Some(BcP1363Name(md, alg))
      else None
  }

  /** The name obtained is the first candidate the provider knows, or None when it knows none. */
  lemma ResolveSignatureIsFirstKnown(md: string, alg: string, fmt: Format, known: string -> bool)
    ensures ResolveSignature(md, alg, fmt, known) == FirstKnown(CandidateNames(md, alg, fmt), known)
  {
  }

  /** RAW and ASN signatures are looked up under the same name. */
  lemma RawAndAsnResolveAlike(md: string, alg: string, known: string -> bool)
    ensures ResolveSignature(md, alg, RAW, known) == ResolveSignature(md, alg, ASN, known)
  {
  }

  /** "SHA-256" with "ECDSA": one ASN name, two P1363 names in this order. */
  lemma Sha256EcdsaNames()
    ensures CandidateNames("SHA-256", "ECDSA", ASN) == ["SHA256WITHECDSA"]
    ensures CandidateNames("SHA-256", "ECDSA", P1363) ==
              ["SHA256WITHECDSAinP1363Format", "SHA256WITHPLAIN-ECDSA"]
  {
    assert EqualsIgnoreCase("SHA-256", "SHA-256");
    var n := NormalizeDigest("SHA-256");
    assert n == "SHA256";
    assert n + "WITH" + "ECDSA" == "SHA256WITHECDSA";
    assert n + "WITH" + "ECDSA" + "inP1363Format" == "SHA256WITHECDSAinP1363Format";
    assert n + "WITHPLAIN-" + "ECDSA" == "SHA256WITHPLAIN-ECDSA";
  }

  /** True exactly where the schema table defines a schema. */
  predicate SchemaDefined(alg: string, fmt: Format, verify: bool) {
    if verify then
      ((alg == "ECDSA" || alg == "DSA") && (fmt == ASN || fmt == P1363)) ||
      (alg == "RSA" && fmt == RAW)
    else
      alg == "RSA"
  }

  /**
   * The JSON schema a test-vector file is expected to declare for a test of
   * the given kind, or "" when none is defined.
   */
  function ExpectedSchema(alg: string, fmt: Format, verify: bool): (r: string)
    ensures r != "" <==> SchemaDefined(alg, fmt, verify)
  {
    if verify then
      if alg == "ECDSA" then
        match fmt
        case ASN => "ecdsa_verify_schema.json"
        case P1363 => "ecdsa_p1363_verify_schema.json"
        case RAW => ""
      else if alg == "DSA" then
        match fmt
        case ASN => "dsa_verify_schema.json"
        case P1363 => "dsa_p1363_verify_schema.json"
        case RAW => ""
      else if alg == "RSA" then
        match fmt
        case RAW => "rsassa_pkcs1_verify_schema.json"
        case _ => ""
      else ""
    else
      if alg == "RSA" then "rsassa_pkcs1_generate_schema.json" else ""
  }

  /**
   * Distinct test kinds expect distinct schemas; only RSA signature
   * generation shares one schema across formats.
   */
  lemma ExpectedSchemaDistinguishesTests(a1: string, f1: Format, v1: bool, a2: string, f2: Format, v2: bool)
    requires ExpectedSchema(a1, f1, v1) != ""
    requires ExpectedSchema(a1, f1, v1) == ExpectedSchema(a2, f2, v2)
    ensures a1 == a2 && v1 == v2
    ensures f1 == f2 || (a1 == "RSA" && !v1)
  {
  }

  /** Whether the harness reports a schema different from the expected one. */
  predicate SchemaMismatch(alg: string, fmt: Format, verify: bool, actualSchema: string)
    ensures SchemaMismatch(alg, fmt, verify, actualSchema) <==>
              SchemaDefined(alg, fmt, verify) && actualSchema != ExpectedSchema(alg, fmt, verify)
  {
    var schema := ExpectedSchema(alg, fmt, verify);
    schema != "" && schema != actualSchema
  }

  /** The key factory for public keys: "EC" for ECDSA, the algorithm name otherwise. */
  function PublicKeyFactoryName(alg: string): (r: string)
    ensures alg == "ECDSA" ==> r == "EC"
    ensures alg != "ECDSA" ==> r == alg
  {
    if alg == "ECDSA" then "EC" else alg
  }

  /** The key factory for private keys: always the algorithm name. */
  function PrivateKeyFactoryName(alg: string): (r: string)
    ensures r == alg
  {
    alg
  }

  /** The two key paths ask for different factories exactly for ECDSA. */
  lemma KeyFactoriesDifferOnlyForEcdsa(alg: string)
    ensures PublicKeyFactoryName(alg) != PrivateKeyFactoryName(alg) <==> alg == "ECDSA"
    ensures alg == "ECDSA" ==> PublicKeyFactoryName(alg) == "EC"
  {
  }
}
