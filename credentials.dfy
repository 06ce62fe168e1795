/**
 * The password hashing and bearer tokens of auth.py. bcrypt itself is not
 * modelled, but what it compares is: the password's UTF-8 bytes, cut to the
 * first 72. A digest is salted, so two hashes of one password may differ; a
 * token is an opaque value carrying its subject and expiry.
 */
module Credentials {
  import opened Common

  /** bcrypt reads at most this many bytes of the password. */
  const BcryptKeyBytes := 72

  /** A byte of an encoded string. */
  predicate IsByte(b: int)
  {
    0 <= b < 0x100
  }

  /** A UTF-8 continuation byte, `10xxxxxx`. */
  predicate IsContinuation(b: int)
  {
    0x80 <= b < 0xC0
  }

  /** How many bytes a UTF-8 sequence has, read off its first byte. */
  function SequenceLength(lead: int): nat
  {
    if lead < 0x80 then 1 else if lead < 0xE0 then 2 else if lead < 0xF0 then 3 else 4
  }

  /** The UTF-8 bytes of one character, six bits per continuation byte. */
  function EncodeChar(c: char): (b: seq<int>)
    ensures 1 <= |b| <= 4 && |b| == SequenceLength(b[0])
    ensures forall k :: 0 <= k < |b| ==> IsByte(b[k])
    ensures forall k :: 1 <= k < |b| ==> IsContinuation(b[k])
  {
    var n := c as int;
    var q1 := n / 0x40;
    var q2 := q1 / 0x40;
    var q3 := q2 / 0x40;
    if n < 0x80 then [n]
    else if n < 0x800 then [0xC0 + q1, 0x80 + n % 0x40]
    else if n < 0x1_0000 then [0xE0 + q2, 0x80 + q1 % 0x40, 0x80 + n % 0x40]
    else [0xF0 + q3, 0x80 + q2 % 0x40, 0x80 + q1 % 0x40, 0x80 + n % 0x40]
  }

  /** The code point a UTF-8 sequence of one character stands for. */
  function DecodeChar(b: seq<int>): int
    requires 1 <= |b| <= 4
  {
    if |b| == 1 then b[0]
    else if |b| == 2 then (b[0] - 0xC0) * 0x40 + (b[1] - 0x80)
    else if |b| == 3 then ((b[0] - 0xE0) * 0x40 + (b[1] - 0x80)) * 0x40 + (b[2] - 0x80)
    else (((b[0] - 0xF0) * 0x40 + (b[1] - 0x80)) * 0x40 + (b[2] - 0x80)) * 0x40 + (b[3] - 0x80)
  }

  /** Decoding a character's bytes gives the character back. */
  lemma DecodeEncodeChar(c: char)
    ensures DecodeChar(EncodeChar(c)) == c as int
  {
    var n := c as int;
    var q1 := n / 0x40;
    var q2 := q1 / 0x40;
    assert n == q1 * 0x40 + n % 0x40;
    assert q1 == q2 * 0x40 + q1 % 0x40;
    assert q2 == q2 / 0x40 * 0x40 + q2 % 0x40;
  }

  /** `password.encode('utf-8')`. */
  function Utf8(s: string): (b: seq<int>)
    ensures |b| >= |s|
    ensures forall k :: 0 <= k < |b| ==> IsByte(b[k])
  {
    if s == [] then [] else EncodeChar(s[0]) + Utf8(s[1..])
  }

  /** Different strings have different encodings. */
  lemma {:induction false} Utf8Injective(s: string, t: string)
    requires Utf8(s) == Utf8(t)
    ensures s == t
  {
    if s != [] && t != [] {
      var a := EncodeChar(s[0]);
      var b := EncodeChar(t[0]);
      assert a[0] == Utf8(s)[0] == Utf8(t)[0] == b[0];
      assert |a| == |b|;
      assert a == Utf8(s)[..|a|] == Utf8(t)[..|b|] == b;
      DecodeEncodeChar(s[0]);
      DecodeEncodeChar(t[0]);
      assert Utf8(s[1..]) == Utf8(s)[|a|..] == Utf8(t)[|b|..] == Utf8(t[1..]);
      Utf8Injective(s[1..], t[1..]);
      assert s == [s[0]] + s[1..] && t == [t[0]] + t[1..];
    }
  }

  /** The encoding of a concatenation is the concatenation of the encodings. */
  lemma {:induction false} Utf8Append(s: string, t: string)
    ensures Utf8(s + t) == Utf8(s) + Utf8(t)
  {
    if s != [] {
      assert (s + t)[0] == s[0] && (s + t)[1..] == s[1..] + t;
      Utf8Append(s[1..], t);
    } else {
      assert s + t == t;
    }
  }

  /** An ASCII string encodes to one byte per character. */
  lemma {:induction false} AsciiLength(s: string)
    requires forall k :: 0 <= k < |s| ==> s[k] as int < 0x80
    ensures |Utf8(s)| == |s|
  {
    if s != [] {
      AsciiLength(s[1..]);
    }
  }

  /** The bytes bcrypt hashes: the UTF-8 encoding, cut to its first 72 bytes. */
  function BcryptKey(password: string): (key: seq<int>)
    ensures |key| <= BcryptKeyBytes
    ensures key <= Utf8(password)
    ensures |Utf8(password)| <= BcryptKeyBytes ==> key == Utf8(password)
  {
    var b := Utf8(password);
    if |b| <= BcryptKeyBytes then b else b[..BcryptKeyBytes]
  }

  /** A digest: its salt and what it was computed over. */
  datatype Digest = Digest(salt: nat, key: seq<int>)

  /** `hash_password`: a fresh salt per call. */
  function HashPassword(password: string, salt: nat): (d: Digest)
    ensures d.salt == salt
    ensures |d.key| <= BcryptKeyBytes
  {
    Digest(salt, BcryptKey(password))
  }

  /** `verify_password`: the password's key is the one the digest was made from. */
  predicate VerifyPassword(password: string, digest: Digest)
  {
    BcryptKey(password) == digest.key
  }

  /**
   * A password verifies against its own hash; among passwords that encode to
   * at most 72 bytes, no other one does.
   */
  lemma HashThenVerify(password: string, other: string, salt: nat)
    ensures VerifyPassword(password, HashPassword(password, salt))
    ensures |Utf8(password)| <= BcryptKeyBytes && |Utf8(other)| <= BcryptKeyBytes ==>
      (VerifyPassword(other, HashPassword(password, salt)) <==> other == password)
  {
    if |Utf8(password)| <= BcryptKeyBytes && |Utf8(other)| <= BcryptKeyBytes
       && VerifyPassword(other, HashPassword(password, salt)) {
      Utf8Injective(other, password);
    }
  }

  /**
   * Bytes past the 72nd are never looked at: two different passwords that
   * share their first 72 bytes verify against each other's hash.
   */
  lemma LongPasswordsCollide(salt: nat)
    ensures var common := seq(72, _ => 'a');
      && common + "1" != common + "2"
      && VerifyPassword(common + "2", HashPassword(common + "1", salt))
  {
    var common := seq(72, _ => 'a');
    assert (common + "1")[72] != (common + "2")[72];
    AsciiLength(common);
    Utf8Append(common, "1");
    Utf8Append(common, "2");
    assert Utf8(common + "1")[..72] == Utf8(common) == Utf8(common + "2")[..72];
  }

  /** A bearer token: the claims `create_access_token` encodes. */
  datatype Token = Token(sub: string, expiresAt: Time)

  /** The token type the login response declares. */
  const TokenType := "bearer"
}
