/** The fallback extraction of `content.match(/\[[\s\S]*\]/)`. The pattern is greedy and
    unanchored: the leftmost `[` that has some `]` after it, through the LAST `]` of the
    text. It does not balance brackets. */
module BracketScan {
  import opened Wrappers

  /** Index of the first `c` in `s`. */
  function IndexOf(s: string, c: char): (r: Option<nat>)
    ensures r.None? <==> c !in s
    ensures r.Some? ==> r.value < |s| && s[r.value] == c && c !in s[..r.value]
  {
    if s == [] then None
    else if s[0] == c then Some(0)
    else
      match IndexOf(s[1..], c)
      case None => None
      case Some(i) =>
        assert s[..i + 1] == [s[0]] + s[1..][..i];
        Some(i + 1)
  }

  /** Index of the last `c` in `s`. */
  function LastIndexOf(s: string, c: char): (r: Option<nat>)
    ensures r.None? <==> c !in s
    ensures r.Some? ==> r.value < |s| && s[r.value] == c && c !in s[r.value + 1..]
  {
    if s == [] then None
    else if s[|s| - 1] == c then Some(|s| - 1)
    else
      var r := LastIndexOf(s[..|s| - 1], c);
      assert r.Some? ==> s[r.value + 1..] == s[..|s| - 1][r.value + 1..] + [s[|s| - 1]];
      assert c in s[..|s| - 1] ==> c in s;
      r
  }

  /** `s[i..j]` is a string the pattern accepts: it opens with `[` and closes with `]`. */
  predicate IsSpan(s: string, i: nat, j: nat)
  {
    i + 2 <= j <= |s| && s[i] == '[' && s[j - 1] == ']'
  }

  /** The bounds `(i, j)` of the match, `jsonMatch[0] == s[i..j]`. A match exists exactly
      when some span does, and it covers every span: it starts at or before, and ends
      at or after, any substring that opens with `[` and closes with `]`. So it is both
      the leftmost and, from there, the longest candidate, as the regex semantics demand. */
  function MatchBounds(s: string): (r: Option<(nat, nat)>)
    ensures r.None? ==> forall i: nat, j: nat :: !IsSpan(s, i, j)
    ensures r.Some? ==> IsSpan(s, r.value.0, r.value.1)
    ensures r.Some? ==> forall i: nat, j: nat :: IsSpan(s, i, j) ==> r.value.0 <= i && j <= r.value.1
  {
    match IndexOf(s, '[')
    case None => None
    case Some(i) =>
      match LastIndexOf(s, ']')
      case None => None
      case Some(k) =>
        if i < k then Some((i, k + 1))
        else
          forall i': nat, j': nat | i' + 2 <= j' <= |s| ensures !IsSpan(s, i', j') {
            if i' < i { assert s[i'] == s[..i][i']; }
            else { assert s[j' - 1] == s[k + 1..][j' - 1 - (k + 1)]; }
          }
          None
  }

  /** `content.match(/\[[\s\S]*\]/)?.[0]`. */
  function Match(s: string): (r: Option<string>)
    ensures r.Some? ==> |r.value| >= 2 && r.value[0] == '[' && r.value[|r.value| - 1] == ']'
    ensures r.None? <==> forall i: nat, j: nat :: !IsSpan(s, i, j)
  {
    match MatchBounds(s)
    case None => None
    case Some((i, j)) => Some(s[i..j])
  }

  /** Text wrapped around a bracketed array (a preamble with no `[`, a trailer with no `]`,
      as in a Markdown code fence) yields exactly the array. */
  lemma WrappedArrayRecovered(pre: string, arr: string, post: string)
    requires '[' !in pre && ']' !in post
    requires |arr| >= 2 && arr[0] == '[' && arr[|arr| - 1] == ']'
    ensures Match(pre + arr + post) == Some(arr)
  {
    var s := pre + arr + post;
    var a, b := |pre|, |pre| + |arr|;
    assert s[a] == arr[0] && s[b - 1] == arr[|arr| - 1];
    assert IsSpan(s, a, b);
    assert MatchBounds(s) == Some((a, b));
    assert s[a..b] == arr;
  }

  /** The match is not balanced: when a later `]` follows a bracketed array, the match
      runs on to it, so it is not that array. */
  lemma GreedyPastTheArray(s: string, i: nat, j: nat, j2: nat)
    requires IsSpan(s, i, j) && j < j2 <= |s| && s[j2 - 1] == ']'
    ensures MatchBounds(s).Some? && MatchBounds(s).value.0 <= i && MatchBounds(s).value.1 >= j2
    ensures Match(s).Some? && Match(s) != Some(s[i..j])
  {
    assert IsSpan(s, i, j2);
  }

  /** An instance: the match of `[1] see [2]` is the whole text, not `[1]`. */
  lemma GreedyExample()
    ensures Match("[1] see [2]") == Some("[1] see [2]")
  {
    var s := "[1] see [2]";
    assert IsSpan(s, 0, |s|);
    assert MatchBounds(s) == Some((0, |s|));
    assert s[0..|s|] == s;
  }
}
