/**
 * The string operations the telemetry parsers rely on: `bytes.decode("ascii",
 * "ignore")` and `str.split(sep)` with a non-empty separator, each with the
 * inverse that pins it down.
 */
module Strings {
  import opened Wrappers

  newtype byte = x: int | 0 <= x < 256

  /** `b.decode("ascii", "ignore")`: bytes above 127 are dropped, the rest become characters. */
  function DecodeAscii(b: seq<byte>): (s: string)
    ensures |s| <= |b|
    ensures forall i | 0 <= i < |s| :: s[i] as int < 128
  {
    if b == [] then []
    else
      var last := b[|b| - 1];
      DecodeAscii(b[..|b| - 1]) + (if last < 128 then [last as int as char] else [])
  }

  predicate IsAscii(s: string) { forall i | 0 <= i < |s| :: s[i] as int < 128 }

  /** `s.encode("ascii")` for a string of ASCII characters. */
  function EncodeAscii(s: string): (b: seq<byte>)
    requires IsAscii(s)
    ensures |b| == |s|
    ensures forall i | 0 <= i < |s| :: b[i] as int == s[i] as int
  {
    seq(|s|, i requires 0 <= i < |s| => s[i] as int as byte)
  }

  lemma {:induction false} DecodeAsciiConcat(a: seq<byte>, b: seq<byte>)
    ensures DecodeAscii(a + b) == DecodeAscii(a) + DecodeAscii(b)
    decreases |b|
  {
    if b != [] {
      var b' := b[..|b| - 1];
      assert (a + b)[..|a + b| - 1] == a + b';
      DecodeAsciiConcat(a, b');
    } else {
      assert a + b == a;
    }
  }

  /** Decoding what was encoded gives the ASCII string back. */
  lemma {:induction false} DecodeEncodeAscii(s: string)
    requires IsAscii(s)
    ensures DecodeAscii(EncodeAscii(s)) == s
    decreases |s|
  {
    if s != [] {
      var s' := s[..|s| - 1];
      assert EncodeAscii(s)[..|s| - 1] == EncodeAscii(s');
      DecodeEncodeAscii(s');
    }
  }

  /** A byte above 127 anywhere in the buffer leaves no trace in the decoded text. */
  lemma DecodeAsciiDropsHighByte(a: seq<byte>, x: byte, b: seq<byte>)
    requires x >= 128
    ensures DecodeAscii(a + [x] + b) == DecodeAscii(a + b)
  {
    DecodeAsciiConcat(a + [x], b);
    DecodeAsciiConcat(a, [x]);
    DecodeAsciiConcat(a, b);
    assert DecodeAscii([x]) == [] by {
      assert [x][..0] == [];
    }
  }

  /** `sep` occurs in `s` starting at position `i`. */
  predicate OccursAt(s: string, sep: string, i: nat)
  {
    i + |sep| <= |s| && s[i..i + |sep|] == sep
  }

  /** The first occurrence of `sep` in `s` at or after `from`, as `str.find` reports it. */
  function Find(s: string, sep: string, from: nat): (r: Option<nat>)
    requires |sep| > 0
    decreases |s| - from
    ensures r.Some? ==> from <= r.value && OccursAt(s, sep, r.value)
    ensures forall j: nat | from <= j && (r.None? || j < r.value) :: !OccursAt(s, sep, j)
  {
    if from + |sep| > |s| then None
    else if s[from..from + |sep|] == sep then Some(from)
    else Find(s, sep, from + 1)
  }

  /** `s.split(sep)`: the pieces between the occurrences of `sep`, found from left to right. */
  function Split(s: string, sep: string): (parts: seq<string>)
    requires |sep| > 0
    decreases |s|
    ensures |parts| >= 1
  {
    match Find(s, sep, 0)
    case None => [s]
    case Some(i) => [s[..i]] + Split(s[i + |sep|..], sep)
  }

  /** `sep.join(parts)`. */
  function Join(parts: seq<string>, sep: string): string
  {
    if |parts| == 0 then ""
    else if |parts| == 1 then parts[0]
    else parts[0] + sep + Join(parts[1..], sep)
  }

  /** Joining the pieces with the separator restores the string. */
  lemma {:induction false} JoinSplit(s: string, sep: string)
    requires |sep| > 0
    ensures Join(Split(s, sep), sep) == s
    decreases |s|
  {
    var f := Find(s, sep, 0);
    if f.Some? {
      var i := f.value;
      var rest := s[i + |sep|..];
      var tail := Split(rest, sep);
      JoinSplit(rest, sep);
      var parts := [s[..i]] + tail;
      assert Split(s, sep) == parts;
      assert parts[1..] == tail;
      assert Join(parts, sep) == s[..i] + sep + Join(tail, sep);
      assert s[i..i + |sep|] == sep;
      assert s == s[..i] + s[i..i + |sep|] + rest;
    }
  }

  /** No piece contains the separator. */
  lemma {:induction false} SplitPiecesFree(s: string, sep: string)
    requires |sep| > 0
    ensures forall p, j: nat | p in Split(s, sep) :: !OccursAt(p, sep, j)
    decreases |s|
  {
    match Find(s, sep, 0)
    case None =>
    case Some(i) =>
      var rest := s[i + |sep|..];
      SplitPiecesFree(rest, sep);
      forall j: nat | OccursAt(s[..i], sep, j)
        ensures false
      {
        assert s[..i][j..j + |sep|] == s[j..j + |sep|];
        assert OccursAt(s, sep, j);
      }
  }

  /** A string without the separator is a single piece. */
  lemma SplitWithoutSeparator(s: string, sep: string)
    requires |sep| > 0
    requires forall j: nat :: !OccursAt(s, sep, j)
    ensures Split(s, sep) == [s]
  {
  }

  /** For a one-character separator, occurring means being at that position. */
  lemma OccursAtChar(s: string, c: char, j: nat)
    ensures OccursAt(s, [c], j) <==> j < |s| && s[j] == c
  {
    if j < |s| {
      assert s[j..j + 1] == [s[j]];
    }
  }

  /**
   * A piece that does not contain the separator's first character is split
   * off the front unchanged.
   */
  lemma SplitHead(piece: string, sep: string, rest: string)
    requires |sep| > 0 && sep[0] !in piece
    ensures Split(piece + sep + rest, sep) == [piece] + Split(rest, sep)
  {
    var s := piece + sep + rest;
    forall j: nat | j < |piece|
      ensures !OccursAt(s, sep, j)
    {
      assert s[j] == piece[j];
      if j + |sep| <= |s| {
        assert s[j..j + |sep|][0] == s[j];
      }
    }
    assert s[|piece|..|piece| + |sep|] == sep;
    assert OccursAt(s, sep, |piece|);
    var f := Find(s, sep, 0);
    assert f.Some? && f.value >= |piece|;
    assert f == Some(|piece|);
    assert s[..|piece|] == piece;
    assert s[|piece| + |sep|..] == rest;
  }

  /** A `KEY<TAB>VALUE` record without further tabs splits into exactly its key and its value. */
  lemma SplitTabPair(key: string, value: string)
    requires '\t' !in key && '\t' !in value
    ensures Split(key + "\t" + value, "\t") == [key, value]
  {
    SplitHead(key, "\t", value);
    SplitTabSingle(value);
  }

  /** A record with further tabs keeps its key and value as its first two tokens. */
  lemma SplitTabFields(key: string, value: string, rest: string)
    requires '\t' !in key && '\t' !in value
    ensures var f := Split(key + "\t" + value + "\t" + rest, "\t"); |f| > 2 && f[0] == key && f[1] == value
  {
    var tail := value + "\t" + rest;
    assert key + "\t" + value + "\t" + rest == key + "\t" + tail;
    SplitHead(key, "\t", tail);
    SplitHead(value, "\t", rest);
  }

  /** A string without a tab is a single token. */
  lemma SplitTabSingle(s: string)
    requires '\t' !in s
    ensures Split(s, "\t") == [s]
  {
    forall j: nat
      ensures !OccursAt(s, "\t", j)
    {
      OccursAtChar(s, '\t', j);
    }
    SplitWithoutSeparator(s, "\t");
  }
}
