/**
 RSA keys as JSON Web Keys, sections 2 and 6.3 of RFC 7518: big-endian integers in base64url inside
 a JWK, written for GoTrue and PostgREST and read back by the operator.
 */
module JwtKeys {
  import opened Wrappers
  import opened Base64Url

  datatype PublicKey = PublicKey(n: nat, e: int)

  datatype PrivateKey = PrivateKey(pub: PublicKey, d: nat, p: nat, q: nat)

  /** Multiplication and divisibility of long integers, by repeated addition. */
  function Product(a: nat, b: nat): nat
    decreases a
  {
    if a == 0 then 0 else b + Product(a - 1, b)
  }

  predicate Divides(m: nat, n: int)
    requires m >= 1
    decreases if n < 0 then 1 else 0, if n < 0 then -n else n
  {
    if n < 0 then Divides(m, n + m) else if n < m then n == 0 else Divides(m, n - m)
  }

  /** What rsa.PrivateKey.Validate accepts for two primes. */
  predicate Valid(k: PrivateKey) {
    && 2 <= k.pub.e <= 0x7FFF_FFFF
    && k.p > 1 && k.q > 1 && Product(k.p, k.q) == k.pub.n
    && Divides(k.p - 1, Product(k.d, k.pub.e) - 1) && Divides(k.q - 1, Product(k.d, k.pub.e) - 1)
  }

  lemma {:induction false} ProductIs(a: nat, b: nat)
    ensures Product(a, b) == a * b
    decreases a
  {
    if a > 0 {
      ProductIs(a - 1, b);
      assert (a - 1) * b == a * b - b;
    }
  }

  lemma {:induction false} DividesIs(m: nat, n: int)
    requires m >= 1
    ensures Divides(m, n) <==> exists c: int :: c * m == n
    decreases if n < 0 then 1 else 0, if n < 0 then -n else n
  {
    if n < 0 {
      DividesIs(m, n + m);
      Shifted(m, n, 1);
      Shifted(m, n + m, -1);
    } else if n >= m {
      DividesIs(m, n - m);
      Shifted(m, n, -1);
      Shifted(m, n - m, 1);
    } else {
      assert n == 0 ==> 0 * m == n;
      forall c: int | c * m == n
        ensures n == 0
      {
        SmallMultiple(c, m, n);
      }
    }
  }

  lemma Shifted(m: nat, n: int, k: int)
    requires k == 1 || k == -1
    ensures (exists c: int :: c * m == n) ==> exists c: int :: c * m == n + k * m
  {
    if c: int :| c * m == n {
      assert (c + k) * m == n + k * m;
    }
  }

  lemma SmallMultiple(c: int, m: nat, n: int)
    requires m >= 1 && c * m == n && 0 <= n < m
    ensures n == 0
  {
    if c >= 1 {
      AtLeast(c, m);
    } else if c <= -1 {
      AtLeast(-c, m);
    }
  }

  lemma AtLeast(c: int, m: nat)
    requires c >= 1
    ensures c * m >= m
  {
  }

  // Integers

  /** The shortest big-endian form; zero has no bytes. */
  function BigEndian(n: nat): seq<Byte>
    decreases n
  {
    if n == 0 then [] else BigEndian(n / 256) + [n % 256]
  }

  function FromBigEndian(b: seq<Byte>): nat
    decreases |b|
  {
    if b == [] then 0 else 256 * FromBigEndian(b[..|b| - 1]) + b[|b| - 1]
  }

  lemma {:induction false} BigEndianRoundTrip(n: nat)
    ensures FromBigEndian(BigEndian(n)) == n
    ensures BigEndian(n) != [] ==> BigEndian(n)[0] != 0
    decreases n
  {
    if n != 0 {
      BigEndianRoundTrip(n / 256);
      assert BigEndian(n)[..|BigEndian(n)| - 1] == BigEndian(n / 256);
    }
  }

  function TrimPadding(s: string): string
    decreases |s|
  {
    if s != "" && s[|s| - 1] == '=' then TrimPadding(s[..|s| - 1]) else s
  }

  function EncodeInteger(n: nat): string {
    Encode(BigEndian(n))
  }

  function DecodeInteger(s: string): Option<nat> {
    var b := Decode(TrimPadding(s));
    if b.None? then None else Some(FromBigEndian(b.value))
  }

  /** big.Int.Int64: the low 64 bits, signed. */
  function Int64(n: nat): int {
    var m := n % 0x1_0000_0000_0000_0000;
    if m >= 0x8000_0000_0000_0000 then m - 0x1_0000_0000_0000_0000 else m
  }

  lemma {:induction false} NoPadding(b: seq<Byte>)
    ensures '=' !in Encode(b)
    decreases |b|
  {
    if |b| > 3 {
      NoPadding(b[3..]);
    }
  }

  /** Integers survive the codec, with or without the padding some writers add. */
  lemma IntegerRoundTrip(n: nat)
    ensures DecodeInteger(EncodeInteger(n)) == Some(n)
    ensures DecodeInteger(EncodeInteger(n) + "=") == Some(n)
  {
    var s := EncodeInteger(n);
    NoPadding(BigEndian(n));
    BigEndianRoundTrip(n);
    RoundTrip(BigEndian(n));
    hide Encode, Decode, BigEndian, FromBigEndian;
    assert TrimPadding(s) == s;
    assert (s + "=")[..|s + "="| - 1] == s;
  }

  // Keys as JSON

  /** The integer members of a JWK; absent members are empty. */
  datatype Jwk = Jwk(kty: string, n: string, e: string, d: string, p: string, q: string)

  /** A JSON document: an array of keys, an object with a `keys` array, or neither. */
  datatype Document = KeyArray(keys: seq<Jwk>) | KeySet(keys: seq<Jwk>) | OtherJson

  function PrivateKeyToJwkSet(k: PrivateKey): Document
    requires Valid(k)
  {
    KeyArray([Jwk("RSA", EncodeInteger(k.pub.n), EncodeInteger(k.pub.e),
                  EncodeInteger(k.d), EncodeInteger(k.p), EncodeInteger(k.q))])
  }

  function PublicKeyToJwk(k: PublicKey): Jwk
    requires k.e >= 0
  {
    Jwk("RSA", EncodeInteger(k.n), EncodeInteger(k.e), "", "", "")
  }

  datatype ParseError = NotJwkData | EmptySet | WrongType | BadInteger | InvalidKey

  function ParsePrivateKey(doc: Document): (r: Result<PrivateKey, ParseError>)
    ensures r.Ok? ==> Valid(r.value)
  {
    if doc.OtherJson? then Err(NotJwkData)
    else if doc.keys == [] then Err(EmptySet)
    else
      var jwk := doc.keys[0];
      if jwk.kty != "RSA" then Err(WrongType)
      else
        var n, e, d := DecodeInteger(jwk.n), DecodeInteger(jwk.e), DecodeInteger(jwk.d);
        var p, q := DecodeInteger(jwk.p), DecodeInteger(jwk.q);
        if n.None? || e.None? || d.None? || p.None? || q.None? then Err(BadInteger)
        else
          var k := PrivateKey(PublicKey(n.value, Int64(e.value)), d.value, p.value, q.value);
          if Valid(k) then Ok(k) else Err(InvalidKey)
  }

  /** What PostgREST reads from its verification key. */
  function ReadPublicKey(jwk: Jwk): Option<PublicKey> {
    var n, e := DecodeInteger(jwk.n), DecodeInteger(jwk.e);
    if jwk.kty != "RSA" || n.None? || e.None? then None else Some(PublicKey(n.value, Int64(e.value)))
  }

  /** A stored key is recovered exactly, modulus, exponents and primes. */
  lemma PrivateKeyRoundTrip(k: PrivateKey)
    requires Valid(k)
    ensures ParsePrivateKey(PrivateKeyToJwkSet(k)) == Ok(k)
    ensures ParsePrivateKey(KeySet(PrivateKeyToJwkSet(k).keys)) == Ok(k)
  {
    hide EncodeInteger, DecodeInteger, Valid;
    IntegerRoundTrip(k.pub.n);
    IntegerRoundTrip(k.d);
    IntegerRoundTrip(k.p);
    IntegerRoundTrip(k.q);
    ValidExponent(k);
    IntegerRoundTrip(k.pub.e);
  }

  lemma ValidExponent(k: PrivateKey)
    requires Valid(k)
    ensures 2 <= k.pub.e <= 0x7FFF_FFFF && Int64(k.pub.e) == k.pub.e
  {
  }

  lemma PublicKeyRoundTrip(k: PublicKey)
    requires 0 <= k.e < 0x8000_0000_0000_0000
    ensures ReadPublicKey(PublicKeyToJwk(k)) == Some(k)
  {
    hide EncodeInteger, DecodeInteger;
    IntegerRoundTrip(k.n);
    IntegerRoundTrip(k.e);
  }
}
