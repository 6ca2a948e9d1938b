/**
  String helpers the two components rely on: joining a list with a separator
  (the shape an appending loop produces) and Java's `String.trim`, on which
  `StringUtils.trimToNull` is built.
 */
module Text {
  import opened Wrappers

  /** The elements joined with `sep`, built as an appending loop builds it:
      the last element goes after the join of the ones before it. */
  function Join(parts: seq<string>, sep: string): string
    decreases |parts|
  {
    if |parts| == 0 then ""
    else if |parts| == 1 then parts[0]
    else Join(parts[..|parts| - 1], sep) + sep + parts[|parts| - 1]
  }

  /** One more element on a prefix: what the appending loop does per step. */
  lemma JoinStep(parts: seq<string>, sep: string, i: nat)
    requires i < |parts|
    ensures Join(parts[..i + 1], sep) == if i == 0 then parts[0] else Join(parts[..i], sep) + sep + parts[i]
  {
    assert parts[..i + 1][..i] == parts[..i];
  }

  lemma AppendAssociative(a: string, b: string, c: string)
    ensures (a + b) + c == a + (b + c)
  {
  }

  /** Plain concatenation of a list of pieces. */
  function Flatten(pieces: seq<string>): string
    decreases |pieces|
  {
    if |pieces| == 0 then "" else Flatten(pieces[..|pieces| - 1]) + pieces[|pieces| - 1]
  }

  /** The pieces `parts[0], sep, parts[1], sep, ..., parts[n-1]`: every element
      in its own order, a separator between each adjacent pair, n - 1 separators
      in all and none after the last element. */
  function Interleave(parts: seq<string>, sep: string): (pieces: seq<string>)
    decreases |parts|
    ensures |parts| == 0 ==> pieces == []
    ensures |parts| > 0 ==> |pieces| == 2 * |parts| - 1
    ensures forall i :: 0 <= i < |pieces| && i % 2 == 0 ==> pieces[i] == parts[i / 2]
    ensures forall i :: 0 <= i < |pieces| && i % 2 == 1 ==> pieces[i] == sep
  {
    if |parts| <= 1 then parts
    else Interleave(parts[..|parts| - 1], sep) + [sep, parts[|parts| - 1]]
  }

  /** Joining is the same as laying the elements out with a separator between
      each adjacent pair and concatenating. */
  lemma {:induction false} JoinIsInterleaved(parts: seq<string>, sep: string)
    ensures Join(parts, sep) == Flatten(Interleave(parts, sep))
    decreases |parts|
  {
    if |parts| == 0 {
    } else if |parts| == 1 {
      assert Interleave(parts, sep) == [parts[0]];
      assert Flatten([parts[0]]) == Flatten([]) + parts[0];
    } else {
      var front := parts[..|parts| - 1];
      var last := parts[|parts| - 1];
      var pieces := Interleave(front, sep);
      JoinIsInterleaved(front, sep);
      assert Interleave(parts, sep) == pieces + [sep, last];
      assert (pieces + [sep, last])[..|pieces| + 1] == pieces + [sep];
      assert (pieces + [sep])[..|pieces|] == pieces;
    }
  }

  /** Java's `trim` removes every character whose code is at most U+0020. */
  predicate IsTrimmable(c: char) {
    c <= ' '
  }

  /** `s` without its leading trimmable characters. */
  function TrimStart(s: string): (r: string)
    decreases |s|
    ensures |r| <= |s| && r == s[|s| - |r|..]
    ensures forall i :: 0 <= i < |s| - |r| ==> IsTrimmable(s[i])
    ensures r == [] || !IsTrimmable(r[0])
  {
    if |s| > 0 && IsTrimmable(s[0]) then TrimStart(s[1..]) else s
  }

  /** `s` without its trailing trimmable characters. */
  function TrimEnd(s: string): (r: string)
    decreases |s|
    ensures |r| <= |s| && r == s[..|r|]
    ensures forall i :: |r| <= i < |s| ==> IsTrimmable(s[i])
    ensures r == [] || !IsTrimmable(r[|r| - 1])
  {
    if |s| > 0 && IsTrimmable(s[|s| - 1]) then TrimEnd(s[..|s| - 1]) else s
  }

  /** Java's `String.trim`. */
  function Trim(s: string): string {
    TrimEnd(TrimStart(s))
  }

  /** `StringUtils.trimToNull`: null stays null; a value that trims to the
      empty string becomes null; anything else becomes its trimmed form.
      The result is null exactly when there is no character beyond U+0020. */
  function TrimToNull(s: Option<string>): (r: Option<string>)
    ensures r.None? <==> (s.None? || forall i :: 0 <= i < |s.value| ==> IsTrimmable(s.value[i]))
    ensures r.Some? ==> r.value != "" && !IsTrimmable(r.value[0]) && !IsTrimmable(r.value[|r.value| - 1])
  {
    match s
    case None => None
    case Some(t) => if Trim(t) == "" then None else Some(Trim(t))
  }
}
