/**
 * The JavaScript string operations the modelled components use: `toLowerCase`
 * (ASCII letters), `trim`, `startsWith`, `indexOf`/`includes` and `split` with a
 * non-empty separator. Strings are sequences of Unicode scalar values, one `char` each.
 */
module Text {
  import opened Wrappers

  /** `toLowerCase` on one character; only ASCII letters change. */
  function LowerChar(c: char): char
  {
    if 'A' <= c <= 'Z' then (c as int - 'A' as int + 'a' as int) as char else c
  }

  /** `toUpperCase` on one character; only ASCII letters change. */
  function UpperChar(c: char): char
  {
    if 'a' <= c <= 'z' then (c as int - 'a' as int + 'A' as int) as char else c
  }

  /** `s.toLowerCase()`. */
  function Lower(s: string): (r: string)
    ensures |r| == |s|
    ensures forall i :: 0 <= i < |s| ==> r[i] == LowerChar(s[i])
  {
    seq(|s|, i requires 0 <= i < |s| => LowerChar(s[i]))
  }

  /** The characters ECMAScript's `trim` removes: WhiteSpace and LineTerminator. */
  predicate IsSpace(c: char)
  {
    || c == '\t' || c == '\n' || c == '\U{000B}' || c == '\U{000C}' || c == '\r' || c == ' '
    || c == '\U{00A0}' || c == '\U{1680}' || ('\U{2000}' <= c <= '\U{200A}')
    || c == '\U{2028}' || c == '\U{2029}' || c == '\U{202F}' || c == '\U{205F}'
    || c == '\U{3000}' || c == '\U{FEFF}'
  }

  /** The number of leading white-space characters. */
  function Lead(s: string): (n: nat)
    ensures n <= |s|
  {
    if |s| > 0 && IsSpace(s[0]) then 1 + Lead(s[1..]) else 0
  }

  /** The leading run is all white space and stops at a non-space. */
  lemma {:induction false} LeadIsSpace(s: string)
    ensures forall i :: 0 <= i < Lead(s) ==> IsSpace(s[i])
    ensures Lead(s) < |s| ==> !IsSpace(s[Lead(s)])
    decreases |s|
  {
    if |s| > 0 && IsSpace(s[0]) {
      var t := s[1..];
      LeadIsSpace(t);
      forall i | 0 < i < Lead(s) ensures IsSpace(s[i]) {
        assert s[i] == t[i - 1];
      }
      if Lead(s) < |s| {
        assert s[Lead(s)] == t[Lead(t)];
      }
    }
  }

  /** The number of trailing white-space characters. */
  function Trail(s: string): (n: nat)
    ensures n <= |s|
  {
    if |s| > 0 && IsSpace(s[|s| - 1]) then 1 + Trail(s[..|s| - 1]) else 0
  }

  /** The trailing run is all white space and stops at a non-space. */
  lemma {:induction false} TrailIsSpace(s: string)
    ensures forall i :: |s| - Trail(s) <= i < |s| ==> IsSpace(s[i])
    ensures Trail(s) < |s| ==> !IsSpace(s[|s| - Trail(s) - 1])
    decreases |s|
  {
    if |s| > 0 && IsSpace(s[|s| - 1]) {
      var t := s[..|s| - 1];
      TrailIsSpace(t);
      forall i | |s| - Trail(s) <= i < |s| - 1 ensures IsSpace(s[i]) {
        assert s[i] == t[i];
      }
      if Trail(s) < |s| {
        assert s[|s| - Trail(s) - 1] == t[|t| - Trail(t) - 1];
      }
    }
  }

  /** `s.trim()`: the slice of `s` between its leading and trailing white space. */
  function Trim(s: string): (r: string)
    ensures |r| <= |s|
  {
    var t := s[Lead(s)..];
    t[..|t| - Trail(t)]
  }

  /** `trim` yields the empty string exactly when every character is white space. */
  lemma TrimEmptyIff(s: string)
    ensures Trim(s) == "" <==> forall i :: 0 <= i < |s| ==> IsSpace(s[i])
  {
    var t := s[Lead(s)..];
    LeadIsSpace(s);
    TrailIsSpace(t);
    assert Trim(s) == "" ==> Trail(t) == |t|;
  }

  /** A non-empty trimmed string starts and ends with a non-space character. */
  lemma TrimEnds(s: string)
    requires Trim(s) != ""
    ensures !IsSpace(Trim(s)[0]) && !IsSpace(Trim(s)[|Trim(s)| - 1])
  {
    var t := s[Lead(s)..];
    LeadIsSpace(s);
    TrailIsSpace(t);
    assert t[0] == s[Lead(s)];
  }

  /** The normalised form the terminal dispatches on: `cmd.toLowerCase().trim()`. */
  function Normalize(cmd: string): (r: string)
    ensures |r| <= |cmd|
  {
    Trim(Lower(cmd))
  }

  /** `s.startsWith(p)`. */
  predicate StartsWith(s: string, p: string)
  {
    |p| <= |s| && s[..|p|] == p
  }

  /** `s.endsWith(p)`. */
  predicate EndsWith(s: string, p: string)
  {
    |p| <= |s| && s[|s| - |p|..] == p
  }

  /** `sep` occurs in `s` at index `j`. */
  predicate OccursAt(s: string, sep: string, j: nat)
  {
    j + |sep| <= |s| && s[j..j + |sep|] == sep
  }

  /** The first index at or after `i` where `sep` occurs: `s.indexOf(sep, i)`. */
  function IndexFrom(s: string, sep: string, i: nat): (r: Option<nat>)
    requires i <= |s|
    ensures r.Some? ==> i <= r.value && OccursAt(s, sep, r.value)
    ensures forall j: nat :: i <= j && (r.None? || j < r.value) ==> !OccursAt(s, sep, j)
    decreases |s| - i
  {
    if i + |sep| > |s| then None
    else if s[i..i + |sep|] == sep then Some(i)
    else if i == |s| then None
    else IndexFrom(s, sep, i + 1)
  }

  /** `s.indexOf(sep)`, with `None` for -1. */
  function IndexOf(s: string, sep: string): (r: Option<nat>)
    ensures r.Some? ==> OccursAt(s, sep, r.value)
    ensures forall j: nat :: (r.None? || j < r.value) ==> !OccursAt(s, sep, j)
  {
    IndexFrom(s, sep, 0)
  }

  /** `s.includes(sub)`. */
  predicate Contains(s: string, sub: string)
  {
    IndexOf(s, sub).Some?
  }

  /** `s.split(sep)` for a non-empty separator: the pieces between successive occurrences. */
  function Split(s: string, sep: string): (parts: seq<string>)
    requires |sep| > 0
    ensures |parts| >= 1
    ensures |parts| >= 2 <==> Contains(s, sep)
    decreases |s|
  {
    match IndexOf(s, sep)
    case None => [s]
    case Some(k) => [s[..k]] + Split(s[k + |sep|..], sep)
  }

  /** `pieces.join(sep)`: the inverse of `Split`. */
  function Join(pieces: seq<string>, sep: string): (r: string)
    requires |pieces| >= 1
    ensures StartsWith(r, pieces[0])
    decreases |pieces|
  {
    if |pieces| == 1 then pieces[0] else pieces[0] + sep + Join(pieces[1..], sep)
  }

  /** Joining the pieces of a split with the same separator gives back the string. */
  lemma {:induction false} JoinSplit(s: string, sep: string)
    requires |sep| > 0
    ensures Join(Split(s, sep), sep) == s
    decreases |s|
  {
    match IndexOf(s, sep)
    case None =>
    case Some(k) =>
      var rest := s[k + |sep|..];
      JoinSplit(rest, sep);
      assert s[k..k + |sep|] == sep;
      assert s == s[..k] + sep + rest;
  }

  /** An occurrence inside a prefix of `s` is an occurrence in `s`. */
  lemma OccursInPrefix(s: string, sep: string, k: nat, j: nat)
    requires k <= |s| && OccursAt(s[..k], sep, j)
    ensures OccursAt(s, sep, j)
  {
    assert s[..k][j..j + |sep|] == s[j..j + |sep|];
  }

  /** No piece of a split contains the separator. */
  lemma {:induction false} SplitPiecesLackSeparator(s: string, sep: string)
    requires |sep| > 0
    ensures forall i :: 0 <= i < |Split(s, sep)| ==> !Contains(Split(s, sep)[i], sep)
    decreases |s|
  {
    match IndexOf(s, sep)
    case None =>
    case Some(k) =>
      var rest := s[k + |sep|..];
      SplitPiecesLackSeparator(rest, sep);
      var head := s[..k];
      if Contains(head, sep) {
        var j := IndexOf(head, sep).value;
        OccursInPrefix(s, sep, k, j);
        assert false;
      }
      assert Split(s, sep) == [head] + Split(rest, sep);
  }

  /** The first index where `sep` occurs is `k` whenever it occurs there and nowhere before. */
  lemma IndexOfIs(s: string, sep: string, k: nat)
    requires OccursAt(s, sep, k)
    requires forall j: nat :: j < k ==> !OccursAt(s, sep, j)
    ensures IndexOf(s, sep) == Some(k)
  {
  }

  /** The first piece of a split on a one-character separator never contains it. */
  lemma FirstPieceLacksSeparator(s: string, c: char)
    ensures c !in Split(s, [c])[0]
  {
    var head := Split(s, [c])[0];
    if c in head {
      var j :| 0 <= j < |head| && head[j] == c;
      assert head[j..j + 1] == [c];
      assert s[j..j + 1] == head[j..j + 1];
      assert OccursAt(s, [c], j);
      assert false;
    }
  }

  /** The first piece of a split is a prefix of the string. */
  lemma FirstPieceIsPrefix(s: string, sep: string)
    requires |sep| > 0
    ensures StartsWith(s, Split(s, sep)[0])
  {
  }
  /**
   * For a string that starts with a space-free word and a space, the second
   * space-separated piece is the text after that space up to the next space.
   */
  lemma SecondPieceAfterWord(s: string, w: string)
    requires StartsWith(s, w + " ") && ' ' !in w
    ensures |Split(s, " ")| >= 2
    ensures Split(s, " ")[1] == Split(s[|w| + 1..], " ")[0]
  {
    assert s[|w|..|w| + 1] == (w + " ")[|w|..|w| + 1] == " ";
    forall j: nat | j < |w| ensures !OccursAt(s, " ", j) {
      assert s[j] == w[j] && s[j..j + 1] == [s[j]];
    }
    IndexOfIs(s, " ", |w|);
  }

  /** A split whose string starts with the separator has an empty first piece. */
  lemma FirstPieceEmpty(s: string, sep: string)
    requires |sep| > 0 && StartsWith(s, sep)
    ensures Split(s, sep)[0] == ""
  {
    IndexOfIs(s, sep, 0);
  }
}
