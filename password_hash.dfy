/**
 * bcryptjs as the server uses it (`bcrypt.hash(p, 10)`, `bcrypt.compare(p, h)`).
 * The password is encoded as UTF-8 and, for the `$2a$`/`$2b$` variants,
 * given a NUL terminator; the key schedule then reads 72 bytes of that key,
 * repeated cyclically when it is shorter, so bytes past the 72nd never reach
 * the hash. A digest stands for the password it was made from (salt and
 * cost are not modelled), and a password matches it exactly when the two
 * give the same key bytes.
 */
module PasswordHash {
  import opened PasswordPolicy

  type Byte = b: int | 0 <= b < 256

  /** The UTF-8 encoding of one character; only the encoding of NUL holds a zero byte. */
  function Utf8Char(c: char): (bytes: seq<Byte>)
    ensures 1 <= |bytes| <= 4
    ensures |bytes| == 1 <==> c as int < 0x80
    ensures forall i :: 0 <= i < |bytes| ==> (bytes[i] == 0 <==> c == '\0')
  {
    var cp := c as int;
    if cp < 0x80 then [cp]
    else if cp < 0x800 then [0xC0 + cp / 0x40, 0x80 + cp % 0x40]
    else if cp < 0x10000 then [0xE0 + cp / 0x1000, 0x80 + cp / 0x40 % 0x40, 0x80 + cp % 0x40]
    else [0xF0 + cp / 0x40000, 0x80 + cp / 0x1000 % 0x40, 0x80 + cp / 0x40 % 0x40, 0x80 + cp % 0x40]
  }

  /** The UTF-8 encoding of a string, character by character. */
  function Utf8(s: string): (bytes: seq<Byte>)
    ensures |bytes| >= |s|
  {
    if |s| == 0 then [] else Utf8Char(s[0]) + Utf8(s[1..])
  }

  /** 72 bytes read from `key` cyclically, starting over at its first byte when it runs out. */
  function Cycle72(key: seq<Byte>): (stream: seq<Byte>)
    requires |key| >= 1
    ensures |stream| == 72
    ensures forall i :: 0 <= i < 72 ==> stream[i] == key[i % |key|]
  {
    seq(72, i requires 0 <= i < 72 => key[i % |key|])
  }

  /** The key bytes bcrypt reads from `password`. */
  function KeyBytes(password: string): (key: seq<Byte>)
    ensures |key| == 72
  {
    Cycle72(Utf8(password) + [0])
  }

  /** A bcrypt hash, standing for the password it was made from (no salt, no cost). */
  datatype Digest = Bcrypt(plain: string)

  /** `bcrypt.hash(password, 10)` */
  function Hash(password: string): Digest { Bcrypt(password) }

  /** `bcrypt.compare(password, digest)`: the password's key bytes are those the digest was made from. */
  predicate Compare(password: string, digest: Digest) { KeyBytes(password) == KeyBytes(digest.plain) }

  /** Characters of one UTF-8 byte each, none of them NUL; every password the strength rule admits is one. */
  predicate IsAsciiText(s: string)
  {
    forall i :: 0 <= i < |s| ==> 0 < s[i] as int < 0x80
  }

  lemma {:induction false} Utf8Ascii(s: string)
    requires IsAsciiText(s)
    ensures |Utf8(s)| == |s|
    ensures forall i :: 0 <= i < |s| ==> Utf8(s)[i] == s[i] as int
  {
    if |s| > 0 {
      Utf8Ascii(s[1..]);
      assert Utf8Char(s[0]) == [s[0] as int];
      assert forall i :: 1 <= i < |s| ==> Utf8(s)[i] == Utf8(s[1..])[i - 1];
    }
  }

  lemma ModBelow(i: int, m: int)
    requires 0 <= i < m
    ensures i % m == i
  {
  }

  lemma {:induction false} ModAtMost(x: int, m: int)
    requires 0 <= x && 0 < m
    ensures x % m <= x
  {
    if x >= m {
      assert x % m < m;
    } else {
      ModBelow(x, m);
    }
  }

  /** A terminated key of at most 72 bytes is read whole, so the stream pins it down. */
  lemma {:induction false} ShortKeyDetermines(a: seq<Byte>, b: seq<Byte>)
    requires 0 !in a && 0 !in b && |b| < 72
    requires Cycle72(a + [0]) == Cycle72(b + [0])
    ensures a == b
  {
    var ka, kb := a + [0], b + [0];
    var sa, sb := Cycle72(ka), Cycle72(kb);
    ModBelow(|b|, |kb|);
    assert sb[|b|] == 0;
    var ja := |b| % |ka|;
    assert ka[ja] == 0;
    assert ja == |a|;
    ModAtMost(|b|, |ka|);
    assert |a| <= |b|;
    ModBelow(|a|, |ka|);
    assert sa[|a|] == 0;
    var jb := |a| % |kb|;
    ModBelow(|a|, |kb|);
    assert kb[jb] == 0;
    assert jb == |b|;
    assert |a| == |b|;
    forall i | 0 <= i < |a|
      ensures a[i] == b[i]
    {
      ModBelow(i, |ka|);
      assert sa[i] == ka[i] == a[i];
      assert sb[i] == kb[i] == b[i];
    }
  }

  /** Two terminated keys give the same stream exactly when both are long and share 72 bytes, or are equal. */
  lemma {:induction false} StreamDetermines(a: seq<Byte>, b: seq<Byte>)
    requires 0 !in a && 0 !in b
    ensures Cycle72(a + [0]) == Cycle72(b + [0]) <==>
      if |a| >= 72 && |b| >= 72 then a[..72] == b[..72] else a == b
  {
    var ka, kb := a + [0], b + [0];
    if |a| >= 72 && |b| >= 72 {
      forall i | 0 <= i < 72
        ensures Cycle72(ka)[i] == a[i] && Cycle72(kb)[i] == b[i]
      {
        ModBelow(i, |ka|);
        ModBelow(i, |kb|);
      }
      if a[..72] == b[..72] {
        assert forall i :: 0 <= i < 72 ==> a[..72][i] == a[i] && b[..72][i] == b[i];
      }
      if Cycle72(ka) == Cycle72(kb) {
        assert forall i :: 0 <= i < 72 ==> a[..72][i] == Cycle72(ka)[i];
      }
    } else if Cycle72(ka) == Cycle72(kb) {
      if |b| < 72 {
        ShortKeyDetermines(a, b);
      } else {
        ShortKeyDetermines(b, a);
      }
    }
  }

  /**
   * bcrypt's promise for passwords of one-byte characters: a password
   * matches another's hash exactly when the two are equal or, both being
   * 72 characters or longer, agree on their first 72.
   */
  lemma CompareHash(p: string, q: string)
    requires IsAsciiText(p) && IsAsciiText(q)
    ensures Compare(p, Hash(q)) <==>
      if |p| >= 72 && |q| >= 72 then p[..72] == q[..72] else p == q
  {
    Utf8Ascii(p);
    Utf8Ascii(q);
    var a, b := Utf8(p), Utf8(q);
    assert 0 !in a && 0 !in b;
    StreamDetermines(a, b);
    if |p| >= 72 && |q| >= 72 {
      assert a[..72] == b[..72] <==> p[..72] == q[..72] by {
        if a[..72] == b[..72] {
          assert forall i :: 0 <= i < 72 ==> p[i] as int == a[..72][i] == b[..72][i] == q[i] as int;
        }
      }
    } else {
      assert a == b <==> p == q by {
        if a == b {
          assert forall i :: 0 <= i < |p| ==> p[i] as int == a[i] == q[i] as int;
        }
      }
    }
  }

  /** Whatever the characters, bytes past the 72nd of the encoding do not take part in a comparison. */
  lemma {:induction false} CompareReadsKeyPrefix(p: string, q: string)
    requires |Utf8(p)| >= 72 && |Utf8(q)| >= 72
    requires Utf8(p)[..72] == Utf8(q)[..72]
    ensures Compare(p, Hash(q))
  {
    var ka, kb := Utf8(p) + [0], Utf8(q) + [0];
    forall i | 0 <= i < 72
      ensures Cycle72(ka)[i] == Cycle72(kb)[i]
    {
      ModBelow(i, |ka|);
      ModBelow(i, |kb|);
      assert Utf8(p)[..72][i] == Utf8(q)[..72][i];
    }
  }

  /** Every password the strength rule admits is one-byte text without NUL. */
  lemma StrongIsAscii(s: string)
    requires RegexTest(s)
    ensures IsAsciiText(s)
  {
  }
}
