/**
 * The string primitives the TypeScript code relies on, with explicit
 * definitions: `trim`, `toLowerCase`, `includes`, `split`, number-to-string
 * conversion and `padStart`.
 */
module Text {

  /** The characters `String.prototype.trim` and the regular-expression class `\s` remove or match. */
  const WHITESPACE: set<char> := {
    ' ', '\t', '\n', '\r', '\U{0B}', '\U{0C}', '\U{A0}', '\U{1680}',
    '\U{2000}', '\U{2001}', '\U{2002}', '\U{2003}', '\U{2004}', '\U{2005}',
    '\U{2006}', '\U{2007}', '\U{2008}', '\U{2009}', '\U{200A}',
    '\U{2028}', '\U{2029}', '\U{202F}', '\U{205F}', '\U{3000}', '\U{FEFF}'
  }

  predicate IsWhiteSpace(c: char) {
    c in WHITESPACE
  }

  predicate AllWhiteSpace(s: string) {
    forall i :: 0 <= i < |s| ==> IsWhiteSpace(s[i])
  }

  /** The index of the first character at or after `i` that is not whitespace, or `|s|`. */
  function LeadingEnd(s: string, i: nat): (k: nat)
    requires i <= |s|
    ensures i <= k <= |s|
    decreases |s| - i
  {
    if i < |s| && IsWhiteSpace(s[i]) then LeadingEnd(s, i + 1) else i
  }

  /** The index just past the last character before `j` that is not whitespace, never below `lo`. */
  function TrailingStart(s: string, lo: nat, j: nat): (k: nat)
    requires lo <= j <= |s|
    ensures lo <= k <= j
    decreases j
  {
    if j > lo && IsWhiteSpace(s[j - 1]) then TrailingStart(s, lo, j - 1) else j
  }

  /** `s.trimStart()`. */
  function TrimStart(s: string): (r: string)
    ensures |r| <= |s|
  {
    s[LeadingEnd(s, 0)..]
  }

  /** `s.trim()`. */
  function Trim(s: string): (r: string)
    ensures |r| <= |s|
  {
    var a := LeadingEnd(s, 0);
    s[a..TrailingStart(s, a, |s|)]
  }

  /** Everything `LeadingEnd` skips is whitespace, and it stops at a non-whitespace character. */
  lemma {:induction false} LeadingEndSkips(s: string, i: nat)
    requires i <= |s|
    ensures forall m :: i <= m < LeadingEnd(s, i) ==> IsWhiteSpace(s[m])
    ensures LeadingEnd(s, i) == |s| || !IsWhiteSpace(s[LeadingEnd(s, i)])
    decreases |s| - i
  {
    if i < |s| && IsWhiteSpace(s[i]) {
      LeadingEndSkips(s, i + 1);
    }
  }

  /** Everything `TrailingStart` skips is whitespace, and it stops at `lo` or after a non-whitespace character. */
  lemma {:induction false} TrailingStartSkips(s: string, lo: nat, j: nat)
    requires lo <= j <= |s|
    ensures forall m :: TrailingStart(s, lo, j) <= m < j ==> IsWhiteSpace(s[m])
    ensures TrailingStart(s, lo, j) == lo || !IsWhiteSpace(s[TrailingStart(s, lo, j) - 1])
    decreases j
  {
    if j > lo && IsWhiteSpace(s[j - 1]) {
      TrailingStartSkips(s, lo, j - 1);
    }
  }

  /** A trimmed text is empty or has non-whitespace characters at both ends. */
  lemma TrimEnds(s: string)
    ensures Trim(s) == [] || (!IsWhiteSpace(Trim(s)[0]) && !IsWhiteSpace(Trim(s)[|Trim(s)| - 1]))
  {
    var a := LeadingEnd(s, 0);
    var b := TrailingStart(s, a, |s|);
    LeadingEndSkips(s, 0);
    TrailingStartSkips(s, a, |s|);
    if a < b {
      assert Trim(s)[0] == s[a] && Trim(s)[|Trim(s)| - 1] == s[b - 1];
    }
  }

  /** Trimming leaves nothing exactly when the text is all whitespace. */
  lemma TrimEmptyIff(s: string)
    ensures Trim(s) == [] <==> AllWhiteSpace(s)
  {
    var a := LeadingEnd(s, 0);
    LeadingEndSkips(s, 0);
    TrailingStartSkips(s, a, |s|);
    if a < |s| {
      assert !IsWhiteSpace(s[a]);
      assert TrailingStart(s, a, |s|) > a;
    }
  }

  /** A text with non-whitespace characters at both ends is its own trimmed form. */
  lemma TrimKeepsInner(s: string)
    requires s != [] && !IsWhiteSpace(s[0]) && !IsWhiteSpace(s[|s| - 1])
    ensures Trim(s) == s
  {
    assert LeadingEnd(s, 0) == 0;
    assert TrailingStart(s, 0, |s|) == |s|;
  }

  /** Trimming twice is trimming once. */
  lemma TrimIdempotent(s: string)
    ensures Trim(Trim(s)) == Trim(s)
  {
    TrimEnds(s);
    if Trim(s) != [] {
      TrimKeepsInner(Trim(s));
    }
  }

  function ToLowerChar(c: char): char {
    if 'A' <= c <= 'Z' then (c as int + 32) as char else c
  }

  /** `s.toLowerCase()`, restricted to the ASCII letters. */
  function ToLower(s: string): (r: string)
    ensures |r| == |s|
    ensures forall i :: 0 <= i < |s| ==> r[i] == ToLowerChar(s[i])
  {
    if s == [] then [] else [ToLowerChar(s[0])] + ToLower(s[1..])
  }

  /** `p` occurs in `s` starting at index `i`. */
  predicate OccursAt(p: string, s: string, i: nat) {
    i + |p| <= |s| && s[i..i + |p|] == p
  }

  /** `s.includes(p)`, computed by trying every starting index in turn. */
  function Includes(s: string, p: string): bool
    decreases |s|
  {
    p <= s || (s != [] && Includes(s[1..], p))
  }

  /** `Includes` holds exactly when `p` occurs somewhere in `s`. */
  lemma IncludesIff(s: string, p: string)
    ensures Includes(s, p) <==> exists i: nat :: OccursAt(p, s, i)
  {
    if Includes(s, p) {
      OccursFromIncludes(s, p);
    }
    forall i: nat | OccursAt(p, s, i)
      ensures Includes(s, p)
    {
      IncludesFromOccurs(s, p, i);
    }
  }

  lemma {:induction false} OccursFromIncludes(s: string, p: string)
    requires Includes(s, p)
    ensures exists i: nat :: OccursAt(p, s, i)
    decreases |s|
  {
    if p <= s {
      assert OccursAt(p, s, 0);
    } else {
      OccursFromIncludes(s[1..], p);
      var i: nat :| OccursAt(p, s[1..], i);
      assert s[i + 1..i + 1 + |p|] == s[1..][i..i + |p|];
      assert OccursAt(p, s, i + 1);
    }
  }

  lemma {:induction false} IncludesFromOccurs(s: string, p: string, i: nat)
    requires OccursAt(p, s, i)
    ensures Includes(s, p)
    decreases i
  {
    if i > 0 {
      assert s[1..][i - 1..i - 1 + |p|] == s[i..i + |p|];
      IncludesFromOccurs(s[1..], p, i - 1);
    } else {
      assert s[..|p|] == p;
    }
  }

  /** Number of occurrences of the character `c` in `s`. */
  function Count(c: char, s: string): nat {
    if s == [] then 0 else (if s[0] == c then 1 else 0) + Count(c, s[1..])
  }

  /** `s.split(sep)` for a one-character separator. */
  function SplitOn(s: string, sep: char): (r: seq<string>)
    ensures |r| >= 1
  {
    if s == [] then [[]]
    else
      var rest := SplitOn(s[1..], sep);
      if s[0] == sep then [[]] + rest else [[s[0]] + rest[0]] + rest[1..]
  }

  /** `pieces.join(sep)`. */
  function JoinWith(pieces: seq<string>, sep: char): string {
    if pieces == [] then []
    else if |pieces| == 1 then pieces[0]
    else pieces[0] + [sep] + JoinWith(pieces[1..], sep)
  }

  /** Splitting yields one piece more than there are separators. */
  lemma {:induction false} SplitOnLength(s: string, sep: char)
    ensures |SplitOn(s, sep)| == Count(sep, s) + 1
  {
    if s != [] {
      SplitOnLength(s[1..], sep);
    }
  }

  /** No piece of a split contains the separator. */
  lemma {:induction false} SplitOnPieces(s: string, sep: char)
    ensures forall k :: 0 <= k < |SplitOn(s, sep)| ==> sep !in SplitOn(s, sep)[k]
  {
    if s != [] {
      SplitOnPieces(s[1..], sep);
    }
  }

  /** Joining the pieces of a split with the same separator gives back the text. */
  lemma {:induction false} SplitOnJoin(s: string, sep: char)
    ensures JoinWith(SplitOn(s, sep), sep) == s
  {
    if s != [] {
      var rest := SplitOn(s[1..], sep);
      SplitOnJoin(s[1..], sep);
      if s[0] != sep && |rest| > 1 {
        assert JoinWith(rest, sep) == rest[0] + [sep] + JoinWith(rest[1..], sep);
        assert [[s[0]] + rest[0]] + rest[1..] == [[s[0]] + rest[0]] + rest[1..];
        assert JoinWith([[s[0]] + rest[0]] + rest[1..], sep)
            == ([s[0]] + rest[0]) + [sep] + JoinWith(rest[1..], sep);
      } else if s[0] == sep && |rest| >= 1 {
        assert JoinWith([[]] + rest, sep) == [] + [sep] + JoinWith(rest, sep);
      }
    }
  }

  predicate IsDigit(c: char) {
    '0' <= c <= '9'
  }

  function DigitChar(d: nat): (c: char)
    requires d < 10
    ensures IsDigit(c)
  {
    ('0' as int + d) as char
  }

  /** The decimal digits of `n`, as `String(n)` writes a non-negative integer. */
  function NatToString(n: nat): (r: string)
    ensures |r| >= 1
    ensures forall i :: 0 <= i < |r| ==> IsDigit(r[i])
  {
    if n < 10 then [DigitChar(n)] else NatToString(n / 10) + [DigitChar(n % 10)]
  }

  /** `String(i)` for an integer. */
  function IntToString(i: int): (r: string)
    ensures |r| >= 1
  {
    if i < 0 then "-" + NatToString(-i) else NatToString(i)
  }

  /** The number a string of decimal digits denotes. */
  function DecimalValue(s: string): nat
    requires forall i :: 0 <= i < |s| ==> IsDigit(s[i])
  {
    if s == [] then 0
    else
      assert IsDigit(s[|s| - 1]);
      10 * DecimalValue(s[..|s| - 1]) + (s[|s| - 1] as int - '0' as int)
  }

  /** Writing a number in decimal and reading it back gives the number. */
  lemma {:induction false} NatToStringRoundTrip(n: nat)
    ensures DecimalValue(NatToString(n)) == n
  {
    if n >= 10 {
      NatToStringRoundTrip(n / 10);
      var r := NatToString(n);
      assert r[..|r| - 1] == NatToString(n / 10);
    }
  }

  /** `s.padStart(width, fill)`. */
  function PadStart(s: string, width: nat, fill: char): (r: string)
    ensures |r| == if |s| >= width then |s| else width
    ensures r[|r| - |s|..] == s
    ensures forall i :: 0 <= i < |r| - |s| ==> r[i] == fill
  {
    if |s| >= width then s else seq(width - |s|, _ => fill) + s
  }

  /** A sentence break of `/\.\s+/` starts at index `k` of `s`. */
  predicate BreakAt(s: string, k: int) {
    0 <= k && k + 1 < |s| && s[k] == '.' && IsWhiteSpace(s[k + 1])
  }

  /** `s.split(/\.\s+/)`: pieces separated by a period and the whitespace run after it. */
  function SplitSentences(s: string): (r: seq<string>)
    ensures |r| >= 1
    decreases |s|
  {
    if s == [] then [[]]
    else if BreakAt(s, 0) then [[]] + SplitSentences(TrimStart(s[1..]))
    else
      var rest := SplitSentences(s[1..]);
      [[s[0]] + rest[0]] + rest[1..]
  }

  /** No piece of a sentence split contains a break inside it. */
  lemma {:induction false} SplitSentencesPieces(s: string)
    ensures forall p, k :: p in SplitSentences(s) ==> !BreakAt(p, k)
    decreases |s|
  {
    if s == [] {
    } else if BreakAt(s, 0) {
      SplitSentencesPieces(TrimStart(s[1..]));
    } else {
      var rest := SplitSentences(s[1..]);
      SplitSentencesPieces(s[1..]);
      var first := [s[0]] + rest[0];
      assert rest[0] in rest;
      forall k
        ensures !BreakAt(first, k)
      {
        if k == 0 && rest[0] != [] {
          FirstPieceStarts(s[1..]);
          assert first[1] == s[1];
        } else {
          BreakShift(s[0], rest[0], k);
        }
      }
      forall p | p in rest[1..]
        ensures forall k :: !BreakAt(p, k)
      {
        assert p in rest;
      }
    }
  }

  /** A break inside `[c] + t` past its first character is a break of `t`. */
  lemma BreakShift(c: char, t: string, k: int)
    ensures k >= 1 && BreakAt([c] + t, k) ==> BreakAt(t, k - 1)
  {
  }

  /** A non-empty first piece starts with the first character of the text. */
  lemma {:induction false} FirstPieceStarts(s: string)
    requires SplitSentences(s)[0] != []
    ensures s != [] && SplitSentences(s)[0][0] == s[0]
  {
  }
}
