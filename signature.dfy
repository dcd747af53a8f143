/**
 The delegate side of signature verification: the value a verifier is bound to
 (one public key, one algorithm name, one charset name) and the cryptographic
 primitive it hands the actual check to.

 The primitive (base64 decoding, charset conversion and the platform's
 signature check) is not part of this model: it is a parameter of type
 `Primitive`. Being a total function value it is deterministic: the same key,
 algorithm, charset, message and signature always give the same answer.
 */
module Signature {

  datatype Option<+T> = None | Some(value: T)

  datatype Result<+T, +E> = Success(value: T) | Failure(error: E)

  /** Opaque public-key material, as the key store hands it over. */
  datatype PublicKey = PublicKey(encoded: seq<bv8>)

  /**
   The platform check: (key, algorithm, charset, message, base64 signature) to
   a verdict, or to the reason it could not be reached (malformed base64, an
   unknown algorithm, a key that does not fit the algorithm).
   */
  type Primitive = (PublicKey, string, string, string, string) -> Result<bool, string>

  /** The start of the message of the exception raised for an unknown key id. */
  const KeyNotFoundPrefix: string := "public key not found: publicKeyId="

  /** The failures a verification call surfaces to its caller. */
  datatype SignatureError =
    | KeyNotFound(publicKeyId: string)  // raised by the chooser itself
    | VerificationFailed(reason: string) // raised by the delegated verifier
  {
    /** The text of the exception the caller sees. */
    function Message(): string
    {
      match this
      case KeyNotFound(id) => KeyNotFoundPrefix + id
      case VerificationFailed(reason) => reason
    }
  }

  /** Two unknown ids never produce the same exception text. */
  lemma KeyNotFoundMessageNamesId(a: string, b: string)
    ensures KeyNotFound(a).Message() == KeyNotFound(b).Message() <==> a == b
  {
    if KeyNotFound(a).Message() == KeyNotFound(b).Message() {
      var n := |KeyNotFoundPrefix|;
      assert KeyNotFound(a).Message()[n..] == a;
      assert KeyNotFound(b).Message()[n..] == b;
    }
  }

  /**
   A verifier bound to one key, one algorithm and one charset. It is a value:
   once built it never changes.
   */
  datatype Verifier = Verifier(publicKey: PublicKey, algorithm: string, charsetName: string)
  {
    /** Hands (message, signature) to the primitive under this verifier's binding. */
    function Verify(primitive: Primitive, message: string, signature: string): Result<bool, SignatureError>
    {
      match primitive(publicKey, algorithm, charsetName, message, signature)
      case Success(verdict) => Success(verdict)
      case Failure(reason) => Failure(VerificationFailed(reason))
    }
  }
}
