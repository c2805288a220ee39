/**
 * The JWT library (golang-jwt v4) as the gateway sees it. Decoding a compact token and checking
 * a signature are the library's own work and stay opaque: a Library value supplies them. What is
 * modelled is the order of jwt.Parse: decode, then ask the caller's key function for a key, then
 * verify with that key — so a key function that refuses stops the parse before any verification.
 */
module Jwt {
  import opened Base

  /** The families of signing methods; each is its own Go type, and only HMAC is symmetric. */
  datatype Family = HMAC | RSA | RSAPSS | ECDSA | Ed25519 | Unsecured

  datatype SigningMethod = SigningMethod(alg: string, family: Family)

  /**
   * One claim value. A JSON number decodes to float64; the conversion of that float to uint64 is
   * not modelled, so a numeric claim carries the uint64 the gateway ends up with.
   */
  datatype ClaimValue = Number(asUint: UInt64) | NotNumber

  /** token.Claims: jwt.MapClaims, or some other Claims implementation. */
  datatype Claims = MapClaims(entries: map<string, ClaimValue>) | OtherClaims

  datatype Token = Token(signingMethod: SigningMethod, claims: Claims, valid: bool)

  /**
   * The library's opaque steps: `decode` turns a compact token into its header and claims (or a
   * malformation error); `verify(tokenString, key)` checks the signature and the registered claims
   * with the key, answering token.Valid or the validation error.
   */
  datatype Library = Library(decode: string -> Outcome<Token>, verify: (string, string) -> Outcome<bool>)

  /** The text of jwt.ErrSignatureInvalid. */
  const ErrSignatureInvalid: string := "signature is invalid"

  /** jwt.Parse(tokenString, keyFunc). */
  function Parse(lib: Library, tokenString: string, keyFunc: Token -> Outcome<string>): Outcome<Token>
  {
    match lib.decode(tokenString)
    case Err(msg) => Err(msg)
    case Ok(token) =>
      match keyFunc(token)
      case Err(msg) => Err(msg)
      case Ok(key) =>
        match lib.verify(tokenString, key)
        case Err(msg) => Err(msg)
        case Ok(valid) => Ok(token.(valid := valid))
  }
}
