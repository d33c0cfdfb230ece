/** Python text: white space, `strip`, `join`, and the text that splitting must not lose. */
module Text {
  import opened Common

  /** `str.isspace`, and `\s` in a pattern. */
  predicate IsSpace(c: char) {
    || '\U{0009}' <= c <= '\U{000d}' || '\U{001c}' <= c <= '\U{0020}' || c == '\U{0085}' || c == '\U{00a0}'
    || c == '\U{1680}' || '\U{2000}' <= c <= '\U{200a}' || c == '\U{2028}' || c == '\U{2029}'
    || c == '\U{202f}' || c == '\U{205f}' || c == '\U{3000}'
  }

  predicate AllSpace(s: string) { forall i :: 0 <= i < |s| ==> IsSpace(s[i]) }

  /** Not empty, and no white space at either end. */
  predicate Tight(s: string) { s != "" && !IsSpace(s[0]) && !IsSpace(s[|s| - 1]) }

  /** The first position from i on that is not white space. */
  function SkipSpace(s: string, i: nat): (j: nat)
    requires i <= |s|
    ensures i <= j <= |s| && (j < |s| ==> !IsSpace(s[j])) && forall k :: i <= k < j ==> IsSpace(s[k])
    decreases |s| - i
  {
    if i == |s| || !IsSpace(s[i]) then i else SkipSpace(s, i + 1)
  }

  /** The end of s once its white space before position i is gone. */
  function BackSpace(s: string, i: nat): (j: nat)
    requires i <= |s|
    ensures j <= i && (j > 0 ==> !IsSpace(s[j - 1])) && forall k :: j <= k < i ==> IsSpace(s[k])
  {
    if i == 0 || !IsSpace(s[i - 1]) then i else BackSpace(s, i - 1)
  }

  function Strip(s: string): (r: string)
    ensures r == "" || Tight(r)
    ensures |r| <= |s|
  {
    var i, j := SkipSpace(s, 0), BackSpace(s, |s|);
    if i == |s| then "" else s[i..j]
  }

  lemma StripTight(s: string)
    requires Tight(s)
    ensures Strip(s) == s
  {
  }

  // ---- join ----

  function Join(parts: seq<string>): string {
    if parts == [] then ""
    else if |parts| == 1 then parts[0]
    else Join(parts[..|parts| - 1]) + "\n\n" + parts[|parts| - 1]
  }

  lemma JoinMore(parts: seq<string>, part: string)
    ensures Join(parts + [part]) == if parts == [] then part else Join(parts) + "\n\n" + part
  {
    assert (parts + [part])[..|parts|] == parts;
  }

  lemma {:induction false} JoinTight(parts: seq<string>)
    requires parts != [] && forall i :: 0 <= i < |parts| ==> Tight(parts[i])
    ensures Tight(Join(parts))
  {
    if |parts| > 1 {
      JoinTight(parts[..|parts| - 1]);
    }
  }

  function SumLengths(parts: seq<string>): nat {
    if parts == [] then 0 else SumLengths(parts[..|parts| - 1]) + |parts[|parts| - 1]|
  }

  /** `_joined_length` */
  function JoinedLength(parts: seq<string>, next: string): nat {
    if parts == [] then |next| else SumLengths(parts) + 2 * |parts| + |next|
  }

  lemma {:induction false} JoinLength(parts: seq<string>)
    requires parts != []
    ensures |Join(parts)| == SumLengths(parts) + 2 * (|parts| - 1)
  {
    if |parts| > 1 {
      JoinLength(parts[..|parts| - 1]);
    } else {
      assert parts[..0] == [];
    }
  }

  /** The length test predicts the length of the joined block. */
  lemma JoinedLengthIsExact(parts: seq<string>, next: string)
    ensures JoinedLength(parts, next) == |Join(parts + [next])|
  {
    JoinMore(parts, next);
    if parts != [] {
      JoinLength(parts);
    }
  }

  // ---- The text without its white space ----

  function Ink(s: string): string {
    if s == "" then "" else Ink(s[..|s| - 1]) + if IsSpace(s[|s| - 1]) then "" else [s[|s| - 1]]
  }

  lemma {:induction false} InkSplits(s: string, t: string)
    ensures Ink(s + t) == Ink(s) + Ink(t)
  {
    if t == "" {
      assert s + t == s;
    } else {
      InkSplits(s, t[..|t| - 1]);
      assert (s + t)[..|s + t| - 1] == s + t[..|t| - 1];
    }
  }

  lemma {:induction false} InkOfSpace(s: string)
    requires AllSpace(s)
    ensures Ink(s) == ""
  {
    if s != "" {
      InkOfSpace(s[..|s| - 1]);
    }
  }

  lemma InkOfWhole(s: string, left: string, right: string)
    requires s == left + right
    ensures Ink(s) == Ink(left) + Ink(right)
  {
    InkSplits(left, right);
  }

  lemma InkCut(s: string, i: nat)
    requires i <= |s|
    ensures Ink(s) == Ink(s[..i]) + Ink(s[i..])
  {
    InkOfWhole(s, s[..i], s[i..]);
  }

  /** The ink of a slice is a slice of the ink. */
  lemma InkSlice(s: string, i: nat, j: nat)
    requires i <= j <= |s|
    ensures |Ink(s[..i])| <= |Ink(s[..j])| && Ink(s[i..j]) == Ink(s[..j])[|Ink(s[..i])|..]
    ensures Ink(s[..i]) <= Ink(s[..j])
  {
    InkCut(s[..j], i);
    assert s[..j][..i] == s[..i] && s[..j][i..] == s[i..j];
  }

  lemma InkOfStrip(s: string)
    ensures Ink(Strip(s)) == Ink(s)
  {
    var i, j := SkipSpace(s, 0), BackSpace(s, |s|);
    if i == |s| {
      InkOfSpace(s);
    } else {
      InkCut(s, j);
      InkCut(s[..j], i);
      InkOfSpace(s[..j][..i]);
      InkOfSpace(s[j..]);
    }
  }

  lemma InkOfBlankLine()
    ensures Ink("\n\n") == ""
  {
    InkOfSpace("\n\n");
  }

  lemma InkJoins(s: string, t: string)
    ensures Ink(s + "\n\n" + t) == Ink(s) + Ink(t)
  {
    InkSplits(s + "\n\n", t);
    InkSplits(s, "\n\n");
    InkOfBlankLine();
  }

  // ---- Coverage ----

  /** The pieces cover t from left to right without a gap; with `exact`, without overlap either. */
  ghost predicate Covers(pieces: seq<string>, t: string, exact: bool)
    decreases |pieces|, 1
  {
    if pieces == [] then t == "" else exists c: nat, b: nat :: LastPiece(pieces, t, c, b, exact)
  }

  /** The last piece is t from c on, the others cover t up to b, and there is no gap between them: every further piece
      ends exactly where the covered text now does. */
  ghost predicate LastPiece(pieces: seq<string>, t: string, c: nat, b: nat, exact: bool)
    requires pieces != []
    decreases |pieces|, 0
  {
    && c <= b <= |t| && pieces[|pieces| - 1] == t[c..]
    && Covers(pieces[..|pieces| - 1], t[..b], exact) && (exact ==> b == c)
  }

  lemma CoversMore(pieces: seq<string>, t: string, u: string, c: nat, piece: string, exact: bool)
    requires Covers(pieces, t, exact) && t <= u && c <= |t| && (exact ==> c == |t|) && piece == u[c..]
    ensures Covers(pieces + [piece], u, exact)
  {
    var more := pieces + [piece];
    assert more[..|more| - 1] == pieces && u[..|t|] == t;
    assert LastPiece(more, u, c, |t|, exact);
  }

  lemma {:induction false} CoversJoin(a: seq<string>, s: string, b: seq<string>, t: string, exact: bool)
    requires Covers(a, s, exact) && Covers(b, t, exact)
    ensures Covers(a + b, s + t, exact)
  {
    if b == [] {
      assert a + b == a && s + t == s;
    } else {
      var c: nat, e: nat :| LastPiece(b, t, c, e, exact);
      var init, last := b[..|b| - 1], b[|b| - 1];
      CoversJoin(a, s, init, t[..e], exact);
      assert (s + t)[|s| + c..] == last;
      CoversMore(a + init, s + t[..e], s + t, |s| + c, last, exact);
      assert a + init + [last] == a + b;
    }
  }

  function Flatten(pieces: seq<string>): string {
    if pieces == [] then "" else Flatten(pieces[..|pieces| - 1]) + pieces[|pieces| - 1]
  }

  /** Covering without overlap is concatenation. */
  lemma {:induction false} ExactCoverConcatenates(pieces: seq<string>, t: string)
    requires Covers(pieces, t, true)
    ensures Flatten(pieces) == t
  {
    if pieces != [] {
      var c: nat, b: nat :| LastPiece(pieces, t, c, b, true);
      ExactCoverConcatenates(pieces[..|pieces| - 1], t[..b]);
    }
  }

  /** The piece is the text around the given position, from c on. */
  predicate SliceAround(piece: string, t: string, c: nat, at: nat) {
    c <= at < c + |piece| <= |t| && piece == t[c..c + |piece|]
  }

  /** A slice around a position of a slice is a slice of the whole. */
  lemma SliceThrough(inner: string, outer: string, t: string, c: nat, d: nat, at: nat)
    requires SliceAround(outer, t, c, at) && SliceAround(inner, outer, d, at - c)
    ensures SliceAround(inner, t, c + d, at)
  {
    forall k | 0 <= k < |inner| ensures inner[k] == t[c + d + k] {
      assert outer[d + k] == t[c + (d + k)];
    }
  }

  /** Every position of a covered text lies in a piece, which is the text around it. */
  lemma {:induction false} CoveredCharacter(pieces: seq<string>, t: string, i: nat, exact: bool)
    returns (k: nat, c: nat)
    requires Covers(pieces, t, exact) && i < |t|
    ensures k < |pieces| && SliceAround(pieces[k], t, c, i)
  {
    var from: nat, b: nat :| LastPiece(pieces, t, from, b, exact);
    if b <= i {
      k, c := |pieces| - 1, from;
    } else {
      k, c := CoveredCharacter(pieces[..|pieces| - 1], t[..b], i, exact);
      assert t[..b][c..c + |pieces[k]|] == t[c..c + |pieces[k]|];
    }
  }

  /** The visible text of the piece is the visible text of s around position i, from its c-th character on. */
  predicate ShowsAround(piece: string, s: string, i: nat, c: nat)
    requires i <= |s|
  {
    SliceAround(Ink(piece), Ink(s), c, |Ink(s[..i])|)
  }

  lemma InkOfCharacter(s: string, i: nat)
    requires i < |s| && !IsSpace(s[i])
    ensures |Ink(s[..i])| < |Ink(s)| && Ink(s)[|Ink(s[..i])|] == s[i]
  {
    InkSlice(s, i + 1, |s|);
    assert s[..i + 1][..i] == s[..i] && s[..|s|] == s;
  }

  /** Each visible character has its position in the text. */
  lemma {:induction false} InkPosition(s: string, q: nat) returns (at: nat)
    requires q < |Ink(s)|
    ensures at < |s| && !IsSpace(s[at]) && |Ink(s[..at])| == q
  {
    var init := s[..|s| - 1];
    if q < |Ink(init)| {
      at := InkPosition(init, q);
      assert init[..at] == s[..at];
    } else {
      at := |s| - 1;
    }
  }

  /** Two levels of splitting: what a part of the piece shows of the piece, it shows of the text. */
  lemma ShowsThrough(inner: string, outer: string, s: string, i: nat, c: nat, at: nat, d: nat)
    requires i <= |s| && at <= |outer| && ShowsAround(outer, s, i, c) && |Ink(outer[..at])| == |Ink(s[..i])| - c
    requires ShowsAround(inner, outer, at, d)
    ensures ShowsAround(inner, s, i, c + d)
  {
    SliceThrough(Ink(inner), Ink(outer), Ink(s), c, d, |Ink(s[..i])|);
  }
}
