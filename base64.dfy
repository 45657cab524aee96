/** Standard base64 (section 4 of RFC 4648), and the line-wrapped form in which the
    ResourceDistribution generator writes binary ConfigMap data and Secret data
    (`encodeBase64`, cmd/resourcedistributiongenerator/generator/utils.go). */
module Base64 {
  import opened Wrappers

  /** One byte of a Go string. */
  newtype byte = b: int | 0 <= b < 256

  // ---------------------------------------------------------------- the alphabet

  /** The character for a 6-bit value (Table 1 of RFC 4648). */
  function CharOf(i: int): (c: char)
    requires 0 <= i < 64
  {
    if i < 26 then ('A' as int + i) as char
    else if i < 52 then ('a' as int + i - 26) as char
    else if i < 62 then ('0' as int + i - 52) as char
    else if i == 62 then '+'
    else '/'
  }

  predicate IsAlphabet(c: char)
  {
    'A' <= c <= 'Z' || 'a' <= c <= 'z' || '0' <= c <= '9' || c == '+' || c == '/'
  }

  /** The 6-bit value of an alphabet character. */
  function IndexOf(c: char): (i: int)
    requires IsAlphabet(c)
    ensures 0 <= i < 64 && CharOf(i) == c
  {
    if 'A' <= c <= 'Z' then c as int - 'A' as int
    else if 'a' <= c <= 'z' then c as int - 'a' as int + 26
    else if '0' <= c <= '9' then c as int - '0' as int + 52
    else if c == '+' then 62
    else 63
  }

  lemma CharOfIndex(i: int)
    requires 0 <= i < 64
    ensures IsAlphabet(CharOf(i)) && IndexOf(CharOf(i)) == i
  {
  }

  // ---------------------------------------------------------------- encoding

  /** The number of characters `base64.StdEncoding.EncodedLen` reports. */
  function EncodedLen(n: nat): nat { (n + 2) / 3 * 4 }

  /** Three bytes as four characters. */
  function Quad(b0: byte, b1: byte, b2: byte): string
  {
    [CharOf(b0 as int / 4), CharOf(b0 as int % 4 * 16 + b1 as int / 16),
     CharOf(b1 as int % 16 * 4 + b2 as int / 64), CharOf(b2 as int % 64)]
  }

  /** A final single byte: two characters and two pads. */
  function Single(b0: byte): string
  {
    [CharOf(b0 as int / 4), CharOf(b0 as int % 4 * 16), '=', '=']
  }

  /** A final pair of bytes: three characters and one pad. */
  function Pair(b0: byte, b1: byte): string
  {
    [CharOf(b0 as int / 4), CharOf(b0 as int % 4 * 16 + b1 as int / 16), CharOf(b1 as int % 16 * 4), '=']
  }

  /** The padded standard encoding. */
  function Encode(bs: seq<byte>): (r: string)
    ensures |r| == EncodedLen(|bs|)
  {
    if |bs| == 0 then ""
    else if |bs| == 1 then Single(bs[0])
    else if |bs| == 2 then Pair(bs[0], bs[1])
    else Quad(bs[0], bs[1], bs[2]) + Encode(bs[3..])
  }

  // ---------------------------------------------------------------- decoding

  /** The bytes of one group of four characters: three for a full group, fewer when
      the final group is padded. */
  function DecodeQuad(q: string, last: bool): Option<seq<byte>>
    requires |q| == 4
  {
    if IsAlphabet(q[0]) && IsAlphabet(q[1]) && IsAlphabet(q[2]) && IsAlphabet(q[3]) then
      var i0, i1, i2, i3 := IndexOf(q[0]), IndexOf(q[1]), IndexOf(q[2]), IndexOf(q[3]);
      Some([(i0 * 4 + i1 / 16) as byte, (i1 % 16 * 16 + i2 / 4) as byte, (i2 % 4 * 64 + i3) as byte])
    else if last && IsAlphabet(q[0]) && IsAlphabet(q[1]) && IsAlphabet(q[2]) && q[3] == '=' then
      var i0, i1, i2 := IndexOf(q[0]), IndexOf(q[1]), IndexOf(q[2]);
      Some([(i0 * 4 + i1 / 16) as byte, (i1 % 16 * 16 + i2 / 4) as byte])
    else if last && IsAlphabet(q[0]) && IsAlphabet(q[1]) && q[2] == '=' && q[3] == '=' then
      var i0, i1 := IndexOf(q[0]), IndexOf(q[1]);
      Some([(i0 * 4 + i1 / 16) as byte])
    else None
  }

  /** The inverse of `Encode` on well-formed input; `None` on anything else. */
  function Decode(s: string): Option<seq<byte>>
    decreases |s|
  {
    if s == [] then Some([])
    else if |s| < 4 then None
    else match DecodeQuad(s[..4], |s| == 4)
      case None => None
      case Some(head) =>
        match Decode(s[4..])
        case None => None
        case Some(tail) => Some(head + tail)
  }

  /** The first byte comes back from the first two 6-bit values. */
  lemma Recombine0(x: int, y: int)
    requires 0 <= x < 256 && 0 <= y < 256
    ensures 0 <= x % 4 * 16 + y / 16 < 64
    ensures x / 4 * 4 + (x % 4 * 16 + y / 16) / 16 == x
  {
    assert (x % 4 * 16 + y / 16) / 16 == x % 4;
  }

  /** The second byte comes back from the second and third 6-bit values. */
  lemma Recombine1(x: int, y: int, z: int)
    requires 0 <= x < 256 && 0 <= y < 256 && 0 <= z < 256
    ensures 0 <= y % 16 * 4 + z / 64 < 64
    ensures (x % 4 * 16 + y / 16) % 16 * 16 + (y % 16 * 4 + z / 64) / 4 == y
  {
    assert (x % 4 * 16 + y / 16) % 16 == y / 16;
    assert (y % 16 * 4 + z / 64) / 4 == y % 16;
  }

  /** The third byte comes back from the third and fourth 6-bit values. */
  lemma Recombine2(y: int, z: int)
    requires 0 <= y < 256 && 0 <= z < 256
    ensures (y % 16 * 4 + z / 64) % 4 * 64 + z % 64 == z
  {
    assert (y % 16 * 4 + z / 64) % 4 == z / 64;
  }

  /** The characters of a full group are alphabet characters for the group's four
      6-bit values. */
  lemma QuadIndices(b0: byte, b1: byte, b2: byte)
    ensures var q, x, y, z := Quad(b0, b1, b2), b0 as int, b1 as int, b2 as int;
            && IsAlphabet(q[0]) && IsAlphabet(q[1]) && IsAlphabet(q[2]) && IsAlphabet(q[3])
            && IndexOf(q[0]) == x / 4 && IndexOf(q[1]) == x % 4 * 16 + y / 16
            && IndexOf(q[2]) == y % 16 * 4 + z / 64 && IndexOf(q[3]) == z % 64
  {
    var x, y, z := b0 as int, b1 as int, b2 as int;
    CharOfIndex(x / 4);
    CharOfIndex(x % 4 * 16 + y / 16);
    CharOfIndex(y % 16 * 4 + z / 64);
    CharOfIndex(z % 64);
  }

  /** A full group decodes to its three bytes. */
  lemma QuadRoundTrip(b0: byte, b1: byte, b2: byte, last: bool)
    ensures DecodeQuad(Quad(b0, b1, b2), last) == Some([b0, b1, b2])
  {
    var x, y, z := b0 as int, b1 as int, b2 as int;
    QuadIndices(b0, b1, b2);
    Recombine0(x, y);
    Recombine1(x, y, z);
    Recombine2(y, z);
  }

  /** A final group padded once decodes to its two bytes. */
  lemma PairRoundTrip(b0: byte, b1: byte)
    ensures DecodeQuad(Pair(b0, b1), true) == Some([b0, b1])
  {
    var i0, i1, i2 := b0 as int / 4, b0 as int % 4 * 16 + b1 as int / 16, b1 as int % 16 * 4;
    CharOfIndex(i0); CharOfIndex(i1); CharOfIndex(i2);
    assert i1 / 16 == b0 as int % 4 && i1 % 16 == b1 as int / 16;
    assert i2 / 4 == b1 as int % 16;
  }

  /** A final group padded twice decodes to its one byte. */
  lemma SingleRoundTrip(b0: byte)
    ensures DecodeQuad(Single(b0), true) == Some([b0])
  {
    CharOfIndex(b0 as int / 4); CharOfIndex(b0 as int % 4 * 16);
  }

  /** A group followed by more text decodes group by group. */
  lemma DecodeCons(q: string, rest: string, head: seq<byte>, tail: seq<byte>)
    requires |q| == 4 && DecodeQuad(q, rest == []) == Some(head) && Decode(rest) == Some(tail)
    ensures Decode(q + rest) == Some(head + tail)
  {
    assert (q + rest)[..4] == q && (q + rest)[4..] == rest;
  }

  lemma DecodeEncodeOne(bs: seq<byte>)
    requires |bs| == 1
    ensures Decode(Encode(bs)) == Some(bs)
  {
    SingleRoundTrip(bs[0]);
    DecodeCons(Single(bs[0]), [], [bs[0]], []);
    assert Single(bs[0]) + [] == Encode(bs) && [bs[0]] + [] == bs;
  }

  lemma DecodeEncodeTwo(bs: seq<byte>)
    requires |bs| == 2
    ensures Decode(Encode(bs)) == Some(bs)
  {
    PairRoundTrip(bs[0], bs[1]);
    DecodeCons(Pair(bs[0], bs[1]), [], [bs[0], bs[1]], []);
    assert Pair(bs[0], bs[1]) + [] == Encode(bs) && [bs[0], bs[1]] + [] == bs;
  }

  /** A full group followed by decodable text decodes to its three bytes and then the rest. */
  lemma GroupThenRest(b0: byte, b1: byte, b2: byte, rest: string, tail: seq<byte>)
    requires Decode(rest) == Some(tail)
    ensures Decode(Quad(b0, b1, b2) + rest) == Some([b0, b1, b2] + tail)
  {
    QuadRoundTrip(b0, b1, b2, rest == []);
    DecodeCons(Quad(b0, b1, b2), rest, [b0, b1, b2], tail);
  }

  lemma EncodeStep(bs: seq<byte>)
    requires |bs| >= 3
    ensures Encode(bs) == Quad(bs[0], bs[1], bs[2]) + Encode(bs[3..])
  {
  }

  lemma SplitThree(bs: seq<byte>)
    requires |bs| >= 3
    ensures [bs[0], bs[1], bs[2]] + bs[3..] == bs
  {
  }

  lemma DecodeEncodeStep(bs: seq<byte>)
    requires |bs| >= 3 && Decode(Encode(bs[3..])) == Some(bs[3..])
    ensures Decode(Encode(bs)) == Some(bs)
  {
    EncodeStep(bs);
    GroupThenRest(bs[0], bs[1], bs[2], Encode(bs[3..]), bs[3..]);
    SplitThree(bs);
  }

  /** Decoding what was encoded gives back the input. */
  lemma {:induction false} DecodeEncode(bs: seq<byte>)
    ensures Decode(Encode(bs)) == Some(bs)
    decreases |bs|
  {
    if |bs| == 1 {
      DecodeEncodeOne(bs);
    } else if |bs| == 2 {
      DecodeEncodeTwo(bs);
    } else if |bs| >= 3 {
      DecodeEncode(bs[3..]);
      DecodeEncodeStep(bs);
    }
  }

  // ---------------------------------------------------------------- line wrapping

  const LineLen := 70

  /** The encoding cut into 70-character chunks, each followed by a newline when
      `newlines` holds. */
  function Chunked(e: string, newlines: bool): string
    decreases |e|
  {
    if |e| == 0 then ""
    else if |e| <= LineLen then e + (if newlines then "\n" else "")
    else e[..LineLen] + (if newlines then "\n" else "") + Chunked(e[LineLen..], newlines)
  }

  /** What `encodeBase64` returns: the encoding unchanged when shorter than 70
      characters, otherwise cut into chunks of 70 with a newline after every chunk,
      the last included. */
  function Wrapped(e: string): string
  {
    Chunked(e, |e| >= LineLen)
  }

  /** The characters other than newlines, in order. */
  function WithoutNewlines(s: string): (r: string)
    ensures '\n' !in r
  {
    if s == [] then [] else (if s[0] == '\n' then [] else [s[0]]) + WithoutNewlines(s[1..])
  }

  lemma {:induction false} WithoutNewlinesAppend(a: string, b: string)
    ensures WithoutNewlines(a + b) == WithoutNewlines(a) + WithoutNewlines(b)
    decreases |a|
  {
    if a == [] {
      assert a + b == b;
    } else {
      assert (a + b)[0] == a[0] && (a + b)[1..] == a[1..] + b;
      WithoutNewlinesAppend(a[1..], b);
    }
  }

  lemma {:induction false} WithoutNewlinesFree(s: string)
    requires '\n' !in s
    ensures WithoutNewlines(s) == s
    decreases |s|
  {
    if s != [] {
      assert s == [s[0]] + s[1..];
      WithoutNewlinesFree(s[1..]);
    }
  }

  /** Deleting the newlines of the wrapped form gives back the plain encoding. */
  lemma {:induction false} UnwrapChunked(e: string, newlines: bool)
    requires '\n' !in e
    ensures WithoutNewlines(Chunked(e, newlines)) == e
    decreases |e|
  {
    var nl := if newlines then "\n" else "";
    assert WithoutNewlines(nl) == [];
    if 0 < |e| <= LineLen {
      WithoutNewlinesAppend(e, nl);
      WithoutNewlinesFree(e);
    } else if |e| > LineLen {
      assert '\n' !in e[..LineLen] && '\n' !in e[LineLen..];
      UnwrapChunked(e[LineLen..], newlines);
      WithoutNewlinesAppend(e[..LineLen] + nl, Chunked(e[LineLen..], newlines));
      WithoutNewlinesAppend(e[..LineLen], nl);
      WithoutNewlinesFree(e[..LineLen]);
      assert e == e[..LineLen] + e[LineLen..];
    }
  }

  /** The wrapped encoding of any input unwraps to the plain encoding. */
  lemma WrappedUnwraps(bs: seq<byte>)
    ensures WithoutNewlines(Wrapped(Encode(bs))) == Encode(bs)
  {
    UnwrapChunked(Encode(bs), |Encode(bs)| >= LineLen);
  }

  function NewlineCount(s: string): nat
  {
    if s == [] then 0 else (if s[0] == '\n' then 1 else 0) + NewlineCount(s[1..])
  }

  lemma {:induction false} NewlineCountAppend(a: string, b: string)
    ensures NewlineCount(a + b) == NewlineCount(a) + NewlineCount(b)
    decreases |a|
  {
    if a == [] {
      assert a + b == b;
    } else {
      assert (a + b)[0] == a[0] && (a + b)[1..] == a[1..] + b;
      NewlineCountAppend(a[1..], b);
    }
  }

  lemma {:induction false} NewlineCountFree(s: string)
    requires '\n' !in s
    ensures NewlineCount(s) == 0
    decreases |s|
  {
    if s != [] { NewlineCountFree(s[1..]); }
  }

  /** With newlines, there is one per chunk: the length divided by 70, rounded up. */
  lemma {:induction false} ChunkedNewlines(e: string, newlines: bool)
    requires '\n' !in e
    ensures NewlineCount(Chunked(e, newlines)) == if newlines then (|e| + LineLen - 1) / LineLen else 0
    decreases |e|
  {
    var nl := if newlines then "\n" else "";
    assert NewlineCount(nl) == if newlines then 1 else 0;
    if 0 < |e| <= LineLen {
      NewlineCountAppend(e, nl);
      NewlineCountFree(e);
    } else if |e| > LineLen {
      assert '\n' !in e[..LineLen] && '\n' !in e[LineLen..];
      ChunkedNewlines(e[LineLen..], newlines);
      NewlineCountAppend(e[..LineLen] + nl, Chunked(e[LineLen..], newlines));
      NewlineCountAppend(e[..LineLen], nl);
      NewlineCountFree(e[..LineLen]);
    }
  }

  /** Taking one chunk off the front: the chunk, its newline, and the rest. */
  lemma ChunkedStep(e: string, i: int, j: int, newlines: bool)
    requires 0 <= i < j <= |e| && j == (if i + LineLen <= |e| then i + LineLen else |e|)
    ensures Chunked(e[i..], newlines) == e[i..j] + (if newlines then "\n" else "") + Chunked(e[j..], newlines)
  {
    if |e| - i > LineLen {
      assert e[i..][..LineLen] == e[i..j] && e[i..][LineLen..] == e[j..];
    } else {
      assert e[i..] == e[i..j] && e[j..] == [];
    }
  }

  /** `copy(out[k:], src)`. */
  method CopyInto(out: array<char>, k: nat, src: string)
    requires k + |src| <= out.Length
    modifies out
    ensures out[..k + |src|] == old(out[..k]) + src
  {
    forall t | 0 <= t < |src| {
      out[k + t] := src[t];
    }
  }

  /** `encodeBase64`: the input is encoded into one half of a buffer and copied into
      the other half 70 characters at a time through the write index `k`, with a
      newline after each chunk when the encoding has 70 characters or more. */
  method EncodeBase64(s: seq<byte>) returns (r: string)
    ensures r == Wrapped(Encode(s))
  {
    r := WrapLines(Encode(s));
  }

  /** The loop invariant of `WrapLines` carried over one chunk. */
  lemma WrapStep(enc: string, before: string, i: int, j: int, newlines: bool)
    requires 0 <= i < j <= |enc| && j == (if i + LineLen <= |enc| then i + LineLen else |enc|)
    requires before + Chunked(enc[i..], newlines) == Chunked(enc, newlines)
    ensures (before + enc[i..j] + (if newlines then "\n" else "")) + Chunked(enc[j..], newlines) == Chunked(enc, newlines)
  {
    ChunkedStep(enc, i, j, newlines);
  }

  /** The copying loop of `encodeBase64`, given the plain encoding. */
  method WrapLines(enc: string) returns (r: string)
    ensures r == Wrapped(enc)
  {
    var encLen := |enc|;
    var lines := encLen / LineLen + 1;
    var out := new char[encLen + lines];
    var k := 0;
    var i := 0;
    ghost var m, chunks := 0, 0;
    while i < encLen
      invariant i == LineLen * chunks && 0 <= m <= encLen
      invariant m == (if i <= encLen then i else encLen) && (i > encLen ==> chunks * LineLen < encLen + LineLen)
      invariant k == m + (if lines > 1 then chunks else 0) && k <= out.Length
      invariant out[..k] + Chunked(enc[m..], lines > 1) == Chunked(enc, lines > 1)
      decreases encLen - i
    {
      var j := i + LineLen;
      if j > encLen {
        j := encLen;
      }
      ghost var before := out[..k];
      WrapStep(enc, before, i, j, lines > 1);
      CopyInto(out, k, enc[i..j]);
      k := k + (j - i);
      if lines > 1 {
        CopyInto(out, k, "\n");
        k := k + 1;
      }
      ghost var nl := lines > 1;
      assert out[..k] == before + enc[i..j] + (if nl then "\n" else "");
      assert out[..k] + Chunked(enc[j..], nl) == Chunked(enc, nl);
      i := i + LineLen;
      m, chunks := j, chunks + 1;
    }
    r := out[..k];
  }
}
