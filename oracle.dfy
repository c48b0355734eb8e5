/**
 * The cryptographic provider the harness drives, reduced to its observable
 * answers. Each field stands for a foreign call whose outcome the model
 * takes as given.
 */
module Oracle {
  import opened TestVectors

  /** How a call to verify ended. */
  datatype VerifyOutcome =
    | Returned(verified: bool)  // verify returned normally
    | SignatureEx               // SignatureException: malformed signature
    | ArithmeticEx              // ArithmeticException thrown by some DSA providers
    | OtherEx                   // any other (unchecked) exception

  /** How initSign, update and sign ended. */
  datatype SignOutcome =
    | Produced(signature: Bytes)
    | SignFailed                // InvalidKeyException or SignatureException

  datatype Provider = Provider(
    /** Signature.getInstance(name) succeeds. */
    knows: string -> bool,
    /** A key factory of the given name exists and accepts the X.509-encoded public key. */
    acceptsPublicKey: (string, Bytes) -> bool,
    /** A key factory of the given name exists and accepts the PKCS#8-encoded private key. */
    acceptsPrivateKey: (string, Bytes) -> bool,
    /** Verifying (signature name, encoded public key, message, signature). */
    verify: (string, Bytes, Bytes, Bytes) -> VerifyOutcome,
    /** Signing (signature name, encoded private key, message). */
    sign: (string, Bytes, Bytes) -> SignOutcome)
}
