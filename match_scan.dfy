// `String.prototype.match` with the global flag, for the four numbered-list
// regular expressions of the result pages. Each expression is a marker made
// of a run of digits between fixed characters, followed by the longest run
// of characters that are not its stop character:
//
//   /\(\d+\)[^(]*/g   /\$\$\d+\$\$[^$]*/g   /\d+\.[^0-9]*/g   /\$\$\d+\$\$[^(]*/g
//
// A global match tries every start index from the left, and after a match
// resumes where the match ended. The character after `\d+` is never a digit,
// so the greedy run of digits is the only way the marker can match.
module MatchScan {
  import opened Wrappers
  import Text

  datatype Pattern =
    | ParenItems      // (n) text up to the next "("
    | DollarItems     // $$n$$ text up to the next "$"
    | NumberedItems   // n. text up to the next digit
    | DollarToParen   // $$n$$ text up to the next "("

  /** The end of the run of decimal digits starting at `i`. */
  function DigitsEnd(s: string, i: nat): (j: nat)
    requires i <= |s|
    ensures i <= j <= |s|
    ensures forall k :: i <= k < j ==> Text.IsDigit(s[k])
    ensures j < |s| ==> !Text.IsDigit(s[j])
    decreases |s| - i
  {
    if i < |s| && Text.IsDigit(s[i]) then DigitsEnd(s, i + 1) else i
  }

  /** The index just after the marker of `p` that starts at index `i`, if one does. */
  function MarkerEnd(s: string, i: nat, p: Pattern): (r: Option<nat>)
    ensures r.Some? ==> i < r.value <= |s|
  {
    if i >= |s| then None
    else if p.ParenItems? then
      if s[i] != '(' then None
      else
        var d := DigitsEnd(s, i + 1);
        if d > i + 1 && d < |s| && s[d] == ')' then Some(d + 1) else None
    else if p.NumberedItems? then
      var d := DigitsEnd(s, i);
      if d > i && d < |s| && s[d] == '.' then Some(d + 1) else None
    else
      if i + 1 >= |s| || s[i] != '$' || s[i + 1] != '$' then None
      else
        var d := DigitsEnd(s, i + 2);
        if d > i + 2 && d + 1 < |s| && s[d] == '$' && s[d + 1] == '$' then Some(d + 2) else None
  }

  /** The character the text after the marker may not contain. */
  predicate Stops(p: Pattern, c: char) {
    match p
    case ParenItems => c == '('
    case DollarItems => c == '$'
    case NumberedItems => Text.IsDigit(c)
    case DollarToParen => c == '('
  }

  /** The end of the longest run from `j` of characters that do not stop `p`. */
  function TailEnd(s: string, j: nat, p: Pattern): (k: nat)
    requires j <= |s|
    ensures j <= k <= |s|
    ensures forall m :: j <= m < k ==> !Stops(p, s[m])
    ensures k < |s| ==> Stops(p, s[k])
    decreases |s| - j
  {
    if j < |s| && !Stops(p, s[j]) then TailEnd(s, j + 1, p) else j
  }

  /**
   * A global scan over a text of length `n`, given where a match starting at
   * `j` has its marker end (`marker(j)`) and where the run after a marker
   * ending at `m` stops (`tail(m)`): the spans of the matches at or after `i`.
   */
  function Scan(n: nat, marker: nat -> Option<nat>, tail: nat -> nat, i: nat): (r: seq<(nat, nat)>)
    requires i <= n
    requires forall j: nat :: marker(j).Some? ==> j < marker(j).value <= n
    requires forall j: nat :: j <= n ==> j <= tail(j) <= n
    ensures forall k :: 0 <= k < |r| ==>
              && i <= r[k].0 < r[k].1 <= n
              && marker(r[k].0).Some? && r[k].1 == tail(marker(r[k].0).value)
    decreases n - i
  {
    if i == n then []
    else
      match marker(i)
      case None => Scan(n, marker, tail, i + 1)
      case Some(m) =>
        var rest := Scan(n, marker, tail, tail(m));
        var r := [(i, tail(m))] + rest;
        assert forall k :: 1 <= k < |r| ==> r[k] == rest[k - 1];
        r
  }

  /** Each span ends before the next one starts. */
  predicate Ordered(r: seq<(nat, nat)>) {
    forall a, b :: 0 <= a < b < |r| ==> r[a].1 <= r[b].0
  }

  /** The spans follow one another without overlapping. */
  lemma {:induction false} ScanOrdered(n: nat, marker: nat -> Option<nat>, tail: nat -> nat, i: nat)
    requires i <= n
    requires forall j: nat :: marker(j).Some? ==> j < marker(j).value <= n
    requires forall j: nat :: j <= n ==> j <= tail(j) <= n
    ensures Ordered(Scan(n, marker, tail, i))
    decreases n - i
  {
    if i < n {
      match marker(i)
      case None =>
        ScanOrdered(n, marker, tail, i + 1);
        assert Scan(n, marker, tail, i) == Scan(n, marker, tail, i + 1);
      case Some(m) =>
        ScanOrdered(n, marker, tail, tail(m));
        var rest := Scan(n, marker, tail, tail(m));
        var r := Scan(n, marker, tail, i);
        assert r == [(i, tail(m))] + rest;
        forall a, b | 0 <= a < b < |r|
          ensures r[a].1 <= r[b].0
        {
          assert r[b] == rest[b - 1];
          if a > 0 {
            assert r[a] == rest[a - 1];
          }
        }
    }
  }

  /** No match starts in `[lo, hi)`. */
  predicate NoMatchIn(marker: nat -> Option<nat>, lo: nat, hi: nat) {
    forall j: nat :: lo <= j < hi ==> marker(j).None?
  }

  /** Where the first span starts, or `n` when there is none. */
  function FirstStart(r: seq<(nat, nat)>, n: nat): nat {
    if r == [] then n else r[0].0
  }

  /** No match starts before the first span (anywhere, when there is none). */
  lemma {:induction false} ScanFirst(n: nat, marker: nat -> Option<nat>, tail: nat -> nat, i: nat)
    requires i <= n
    requires forall j: nat :: marker(j).Some? ==> j < marker(j).value <= n
    requires forall j: nat :: j <= n ==> j <= tail(j) <= n
    ensures NoMatchIn(marker, i, FirstStart(Scan(n, marker, tail, i), n))
    decreases n - i
  {
    if i < n && marker(i).None? {
      ScanFirst(n, marker, tail, i + 1);
    }
  }

  /** No match starts between two consecutive spans. */
  predicate GapsFree(marker: nat -> Option<nat>, r: seq<(nat, nat)>) {
    forall k :: 0 <= k < |r| - 1 ==> NoMatchIn(marker, r[k].1, r[k + 1].0)
  }

  /** No match starts between two consecutive spans. */
  lemma {:induction false} ScanGaps(n: nat, marker: nat -> Option<nat>, tail: nat -> nat, i: nat)
    requires i <= n
    requires forall j: nat :: marker(j).Some? ==> j < marker(j).value <= n
    requires forall j: nat :: j <= n ==> j <= tail(j) <= n
    ensures GapsFree(marker, Scan(n, marker, tail, i))
    decreases n - i
  {
    if i < n {
      match marker(i)
      case None =>
        ScanGaps(n, marker, tail, i + 1);
        assert Scan(n, marker, tail, i) == Scan(n, marker, tail, i + 1);
      case Some(m) =>
        ScanGaps(n, marker, tail, tail(m));
        ScanFirst(n, marker, tail, tail(m));
        var rest := Scan(n, marker, tail, tail(m));
        var r := Scan(n, marker, tail, i);
        assert r == [(i, tail(m))] + rest;
        forall k | 0 <= k < |r| - 1
          ensures NoMatchIn(marker, r[k].1, r[k + 1].0)
        {
          if k > 0 {
            assert r[k] == rest[k - 1] && r[k + 1] == rest[k];
          }
        }
    }
  }

  /** No match starts after the last span. */
  predicate LastFree(marker: nat -> Option<nat>, r: seq<(nat, nat)>, n: nat) {
    r != [] ==> NoMatchIn(marker, r[|r| - 1].1, n)
  }

  /** No match starts after the last span. */
  lemma {:induction false} ScanLast(n: nat, marker: nat -> Option<nat>, tail: nat -> nat, i: nat)
    requires i <= n
    requires forall j: nat :: marker(j).Some? ==> j < marker(j).value <= n
    requires forall j: nat :: j <= n ==> j <= tail(j) <= n
    ensures LastFree(marker, Scan(n, marker, tail, i), n)
    decreases n - i
  {
    if i < n {
      match marker(i)
      case None =>
        ScanLast(n, marker, tail, i + 1);
        assert Scan(n, marker, tail, i) == Scan(n, marker, tail, i + 1);
      case Some(m) =>
        ScanLast(n, marker, tail, tail(m));
        ScanFirst(n, marker, tail, tail(m));
        var rest := Scan(n, marker, tail, tail(m));
        var r := Scan(n, marker, tail, i);
        assert r == [(i, tail(m))] + rest;
        if rest == [] {
          assert r == [(i, tail(m))];
          assert r[|r| - 1].1 == tail(m);
          assert NoMatchIn(marker, tail(m), n);
        } else {
          assert r[|r| - 1] == rest[|rest| - 1];
        }
    }
  }

  /** The marker ends of `p` in `s`. */
  function Marker(s: string, p: Pattern): (f: nat -> Option<nat>)
    ensures forall j: nat :: f(j) == MarkerEnd(s, j, p)
  {
    j => MarkerEnd(s, j, p)
  }

  /** The ends of the runs after a marker of `p` in `s`. */
  function Tail(s: string, p: Pattern): (f: nat -> nat)
    ensures forall j: nat :: j <= |s| ==> f(j) == TailEnd(s, j, p)
  {
    (j: nat) => if j <= |s| then TailEnd(s, j, p) else j
  }

  /** The spans of the matches of `p` in `s`. */
  function Spans(s: string, p: Pattern): (r: seq<(nat, nat)>)
    ensures forall k :: 0 <= k < |r| ==>
              && r[k].0 < r[k].1 <= |s|
              && MarkerEnd(s, r[k].0, p).Some? && r[k].1 == TailEnd(s, MarkerEnd(s, r[k].0, p).value, p)
  {
    Scan(|s|, Marker(s, p), Tail(s, p), 0)
  }

  /**
   * The spans are exactly the leftmost matches: they do not overlap, and no
   * match starts before the first span, between two spans or after the last.
   */
  lemma SpansLeftmost(s: string, p: Pattern)
    ensures Ordered(Spans(s, p))
    ensures NoMatchIn(Marker(s, p), 0, FirstStart(Spans(s, p), |s|))
    ensures GapsFree(Marker(s, p), Spans(s, p))
    ensures LastFree(Marker(s, p), Spans(s, p), |s|)
  {
    ScanOrdered(|s|, Marker(s, p), Tail(s, p), 0);
    ScanFirst(|s|, Marker(s, p), Tail(s, p), 0);
    ScanGaps(|s|, Marker(s, p), Tail(s, p), 0);
    ScanLast(|s|, Marker(s, p), Tail(s, p), 0);
  }

  /** `s.match(pattern)`, with `[]` in place of `null`. */
  function Matches(s: string, p: Pattern): (r: seq<string>)
    ensures |r| == |Spans(s, p)|
    ensures forall k :: 0 <= k < |r| ==> r[k] == s[Spans(s, p)[k].0..Spans(s, p)[k].1]
  {
    var spans := Spans(s, p);
    seq(|spans|, k requires 0 <= k < |spans| => s[spans[k].0..spans[k].1])
  }

  // `m.replace(/^marker\s*/, "").trim()`: the item text of a match, without its marker.
  function Strip(m: string, p: Pattern): (r: string)
    ensures MarkerEnd(m, 0, p).None? ==> r == Text.Trim(m)
    ensures MarkerEnd(m, 0, p).Some? ==> r == Text.Trim(m[MarkerEnd(m, 0, p).value..])
  {
    match MarkerEnd(m, 0, p)
    case None => Text.Trim(m)
    case Some(k) => Text.Trim(m[k..])
  }

  /** Each match with its marker stripped and trimmed off, in order. */
  function Stripped(matches: seq<string>, p: Pattern): (r: seq<string>)
    ensures |r| == |matches|
    ensures forall k :: 0 <= k < |r| ==> r[k] == Strip(matches[k], p)
  {
    seq(|matches|, k requires 0 <= k < |matches| => Strip(matches[k], p))
  }
}
