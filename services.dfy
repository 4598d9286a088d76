/**
  The collaborators the commands call but whose code is not part of this
  model: compression, AES and RSA encryption, base64, signing, UTF-8 and the
  XML serialisers of the small signature documents.  Each is a parameter,
  so that nothing is assumed about it; the functions here only fix the order
  in which the commands compose them.
*/
module Services {
  import opened Protocol

  datatype Crypto = Crypto(
    utf8Encode: string -> Bytes,
    utf8Decode: Bytes -> string,
    compress: Bytes -> Bytes,
    encryptAes: (Bytes, Bytes) -> Bytes,   // (plain, transaction key)
    encryptRsa: Bytes -> Bytes,            // wraps a transaction key for the bank
    toBase64: Bytes -> string,
    signData: (Bytes, KeyPair) -> string)  // detached signature value

  /** The protected-payload pipeline: compress, then AES under `key`, then base64. */
  function Protect(c: Crypto, plain: Bytes, key: Bytes): string {
    c.toBase64(c.encryptAes(c.compress(plain), key))
  }

  /** The transaction key, RSA-wrapped for the bank and base64-encoded. */
  function WrapKey(c: Crypto, key: Bytes): string {
    c.toBase64(c.encryptRsa(key))
  }

  /** The unencrypted pipeline: compress, then base64. */
  function Pack(c: Crypto, plain: Bytes): string {
    c.toBase64(c.compress(plain))
  }

  /** UserSignatureData / OrderSignatureData: the user's signature over an order. */
  datatype UserSignatureData = UserSignatureData(
    partnerId: string, userId: string, signatureValue: string, signKeys: KeyPair)

  /** SignaturePubKeyOrderData: the user's public signature key, sent by INI. */
  datatype SignaturePubKeyOrderData = SignaturePubKeyOrderData(
    partnerId: string, userId: string, signKeys: KeyPair)

  /** Unformatted XML text of the two signature documents. */
  datatype Writers = Writers(
    userSignature: UserSignatureData -> string,
    signaturePubKey: SignaturePubKeyOrderData -> string)

  /** Concatenation of segments in index order. */
  function Concat(segments: seq<string>): string {
    if segments == [] then "" else Concat(segments[..|segments| - 1]) + segments[|segments| - 1]
  }
}
