/**
 * Bytes as they reach a file: `write_all` takes `&[u8]`, and text is turned into
 * bytes by `str::as_bytes`, which is its UTF-8 encoding.
 */
module Bytes {

  newtype Byte = b: int | 0 <= b < 256

  /** The UTF-8 encoding of one Unicode scalar value (1 to 4 bytes). */
  function EncodeChar(c: char): (r: seq<Byte>)
    ensures |r| == 1 <==> (c as int) < 0x80
    ensures |r| == 2 <==> 0x80 <= (c as int) < 0x800
    ensures |r| == 3 <==> 0x800 <= (c as int) < 0x1_0000
    ensures |r| == 4 <==> 0x1_0000 <= (c as int)
    ensures |r| == 1 ==> r[0] as int == c as int
  {
    var n := c as int;
    if n < 0x80 then
      [n as Byte]
    else if n < 0x800 then
      [(0xC0 + n / 0x40) as Byte, (0x80 + n % 0x40) as Byte]
    else if n < 0x1_0000 then
      [(0xE0 + n / 0x1000) as Byte, (0x80 + n / 0x40 % 0x40) as Byte, (0x80 + n % 0x40) as Byte]
    else
      [(0xF0 + n / 0x4_0000) as Byte, (0x80 + n / 0x1000 % 0x40) as Byte,
       (0x80 + n / 0x40 % 0x40) as Byte, (0x80 + n % 0x40) as Byte]
  }

  /** `s.as_bytes()`: the UTF-8 encoding of a string, character by character. */
  function Encode(s: string): (r: seq<Byte>)
    ensures |s| <= |r| <= 4 * |s|
  {
    if s == [] then [] else EncodeChar(s[0]) + Encode(s[1..])
  }

  /** Encoding distributes over concatenation. */
  lemma {:induction false} EncodeAppend(a: string, b: string)
    ensures Encode(a + b) == Encode(a) + Encode(b)
  {
    if a == [] {
      assert a + b == b;
    } else {
      assert (a + b)[0] == a[0];
      assert (a + b)[1..] == a[1..] + b;
      EncodeAppend(a[1..], b);
    }
  }

  /** `f` occurs in `s` as a contiguous block. */
  predicate Contains<T(==)>(s: seq<T>, f: seq<T>)
  {
    exists k :: 0 <= k <= |s| && f <= s[k..]
  }

  /** A block placed between two others is contained in the whole. */
  lemma ContainsBetween<T>(pre: seq<T>, f: seq<T>, post: seq<T>)
    ensures Contains(pre + f + post, f)
  {
    var s := pre + f + post;
    assert s[|pre|..] == f + post;
  }

  lemma ContainsSelf<T>(f: seq<T>)
    ensures Contains(f, f)
  {
    assert f[0..] == f;
  }

  /** What the left part of a concatenation contains, the whole contains. */
  lemma ContainsInLeft<T>(a: seq<T>, b: seq<T>, f: seq<T>)
    requires Contains(a, f)
    ensures Contains(a + b, f)
  {
    var k :| 0 <= k <= |a| && f <= a[k..];
    assert (a + b)[k..] == a[k..] + b;
  }

  /** What the right part of a concatenation contains, the whole contains. */
  lemma ContainsInRight<T>(a: seq<T>, b: seq<T>, f: seq<T>)
    requires Contains(b, f)
    ensures Contains(a + b, f)
  {
    var k :| 0 <= k <= |b| && f <= b[k..];
    assert (a + b)[|a| + k..] == b[k..];
  }

  /** Containment is transitive. */
  lemma ContainsTrans<T>(a: seq<T>, b: seq<T>, c: seq<T>)
    requires Contains(a, b) && Contains(b, c)
    ensures Contains(a, c)
  {
    var i :| 0 <= i <= |a| && b <= a[i..];
    var j :| 0 <= j <= |b| && c <= b[j..];
    assert a[i..][j..] == a[i + j..];
    assert b[j..] <= a[i..][j..];
  }

  /** Splitting `a + c` after `a` and putting `m` in the cut gives `a + m + c`. */
  lemma SpliceAt<T>(a: seq<T>, m: seq<T>, c: seq<T>)
    ensures |a| <= |a + c| && a + m + c == (a + c)[..|a|] + m + (a + c)[|a|..]
  {
    assert (a + c)[..|a|] == a && (a + c)[|a|..] == c;
  }

  /** Containment survives encoding: the bytes of a fragment appear in the bytes of the text. */
  lemma EncodeContains(s: string, f: string)
    requires Contains(s, f)
    ensures Contains(Encode(s), Encode(f))
  {
    var k :| 0 <= k <= |s| && f <= s[k..];
    var rest := s[k + |f|..];
    assert s == s[..k] + f + rest;
    EncodeAppend(s[..k] + f, rest);
    EncodeAppend(s[..k], f);
    ContainsBetween(Encode(s[..k]), Encode(f), Encode(rest));
  }
}
