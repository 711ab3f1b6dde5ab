/**
 * The libraries the core calls but whose insides are not modelled: SHA-256 and
 * HMAC-SHA256, UTF-8 encoding, github.com/google/uuid and the token layer of
 * github.com/golang-jwt/jwt/v5. Each is a parameter (a `Lib` value) so that every
 * operation of the core is stated for whatever those libraries compute; the only
 * assumptions made about them are the round-trip laws below. Hex encoding is
 * written out, because the lower-case alphabet it uses decides which Telegram
 * hashes can match.
 */
module Foreign {
  import opened Wrappers

  type Bytes = seq<bv8>

  const UuidBound: int := 0x1_0000_0000_0000_0000_0000_0000_0000_0000

  /** A 128-bit UUID; the zero value is uuid.Nil. */
  type Uuid = x: int | 0 <= x < UuidBound

  const Nil: Uuid := 0

  /** A JSON value as encoding/json decodes it into an interface{}. */
  datatype JsonValue = Str(s: string) | Num(n: int) | Bool(b: bool) | Null | Composite

  /** jwt.MapClaims */
  type Claims = map<string, JsonValue>

  /** The `alg` values golang-jwt knows; `NoneAlg` is its "none" method. */
  datatype SigningMethod = HS256 | HS384 | HS512 | RS256 | RS384 | RS512 | PS256 | ES256 | EdDSA | NoneAlg

  /** Whether the method is a *jwt.SigningMethodHMAC. */
  predicate IsHmac(m: SigningMethod)
  {
    m.HS256? || m.HS384? || m.HS512?
  }

  /** A compact JWS split into its parts: header `alg`, decoded claims, signature. */
  datatype Jws = Jws(alg: SigningMethod, claims: Claims, signingInput: string, signature: Bytes)

  datatype Lib = Lib(
    sha256: Bytes -> Bytes,
    hmacSha256: (Bytes, Bytes) -> Bytes,
    utf8: string -> Bytes,
    /** uuid.Parse */
    parseUuid: string -> Option<Uuid>,
    /** uuid.UUID.String, also its JSON text form */
    formatUuid: Uuid -> string,
    /** base64url/JSON decoding of a compact token; None when it is malformed */
    decodeJws: string -> Option<Jws>,
    /** Method.Verify of the signature under a key */
    macValid: (Jws, Bytes) -> bool,
    /** jwt.NewWithClaims(jwt.SigningMethodHS256, c).SignedString(key); None is the error return */
    signHs256: (Claims, Bytes) -> Option<string>)
  {
    /** uuid.Parse accepts what UUID.String prints, and gives back the same UUID. */
    ghost predicate UuidRoundTrip()
    {
      forall u: Uuid :: parseUuid(formatUuid(u)) == Some(u)
    }

    /** A token signed with a key decodes to the signed claims, as HS256, with a signature that key verifies. */
    ghost predicate SignRoundTrip()
    {
      forall c: Claims, key: Bytes :: signHs256(c, key).Some? ==>
        var jws := decodeJws(signHs256(c, key).value);
        jws.Some? && jws.value.alg == HS256 && jws.value.claims == c && macValid(jws.value, key)
    }

    /** Signing never reports an error. */
    ghost predicate SigningTotal()
    {
      forall c: Claims, key: Bytes :: signHs256(c, key).Some?
    }

    ghost predicate Laws()
    {
      UuidRoundTrip() && SignRoundTrip()
    }
  }

  const LowerHexDigits: string := "0123456789abcdef"

  /** The two lower-case digits of one byte, high nibble first. */
  function HexPair(x: bv8): (p: string)
    ensures |p| == 2 && p[0] in LowerHexDigits && p[1] in LowerHexDigits
    ensures p[0] == LowerHexDigits[x as int / 16] && p[1] == LowerHexDigits[x as int % 16]
  {
    [LowerHexDigits[x as int / 16], LowerHexDigits[x as int % 16]]
  }

  /** hex.EncodeToString: character k is digit k % 2 of byte k / 2, high nibble first. */
  function HexEncode(b: Bytes): (s: string)
    ensures |s| == 2 * |b|
  {
    seq(2 * |b|, k requires 0 <= k < 2 * |b| => HexPair(b[k / 2])[k % 2])
  }

  /** Every character of the encoding is a lower-case hex digit. */
  lemma HexEncodeAlphabet(b: Bytes)
    ensures forall k :: 0 <= k < |HexEncode(b)| ==> HexEncode(b)[k] in LowerHexDigits
  {
  }

  /** Byte i of the input becomes characters 2i and 2i+1 of the encoding. */
  lemma HexEncodePositions(b: Bytes)
    ensures forall i :: 0 <= i < |b| ==>
      HexEncode(b)[2 * i] == HexPair(b[i])[0] && HexEncode(b)[2 * i + 1] == HexPair(b[i])[1]
  {
    forall i | 0 <= i < |b|
      ensures HexEncode(b)[2 * i] == HexPair(b[i])[0] && HexEncode(b)[2 * i + 1] == HexPair(b[i])[1]
    {
      assert (2 * i) / 2 == i && (2 * i) % 2 == 0;
      assert (2 * i + 1) / 2 == i && (2 * i + 1) % 2 == 1;
    }
  }

  /** An encoding that contains an upper-case hex letter is never the output of HexEncode. */
  lemma UpperCaseNeverEncoded(b: Bytes, s: string, i: int)
    requires 0 <= i < |s| && 'A' <= s[i] <= 'F'
    ensures HexEncode(b) != s
  {
    HexEncodeAlphabet(b);
  }
}
