/**
 * String operations with the semantics of the JavaScript built-ins the pipeline uses:
 * `trim`, the regex class `\s`, `split` on a string and on `/\s+/`, `replace(/\s+/g, ...)`,
 * `indexOf`, `substring`, `join`, `toLowerCase` (ASCII letters only) and number-to-decimal.
 */
module Text {

  // ---------------------------------------------------------------------------
  // Character classes
  // ---------------------------------------------------------------------------

  /** WhiteSpace and LineTerminator of ECMA-262: what `trim` removes and `\s` matches. */
  predicate IsSpace(c: char) {
    || c == ' ' || c == '\t' || c == '\n' || c == '\r' || c == '\U{B}' || c == '\U{C}'
    || c == '\U{A0}' || c == '\U{1680}' || ('\U{2000}' <= c <= '\U{200A}')
    || c == '\U{2028}' || c == '\U{2029}' || c == '\U{202F}' || c == '\U{205F}'
    || c == '\U{3000}' || c == '\U{FEFF}'
  }

  /** The characters a regex `.` does not match when the `s` flag is off. */
  predicate IsLineTerminator(c: char) {
    c == '\n' || c == '\r' || c == '\U{2028}' || c == '\U{2029}'
  }

  predicate IsDigit(c: char) { '0' <= c <= '9' }

  predicate IsBlank(s: string) {
    forall i | 0 <= i < |s| :: IsSpace(s[i])
  }

  predicate NoSpace(s: string) {
    forall i | 0 <= i < |s| :: !IsSpace(s[i])
  }

  // ---------------------------------------------------------------------------
  // Case mapping (ASCII)
  // ---------------------------------------------------------------------------

  function LowerChar(c: char): char {
    if 'A' <= c <= 'Z' then (c as int + 32) as char else c
  }

  function UpperChar(c: char): char {
    if 'a' <= c <= 'z' then (c as int - 32) as char else c
  }

  /** `toLowerCase`, restricted to the ASCII letters. */
  function ToLower(s: string): (r: string)
    ensures |r| == |s|
    ensures forall i | 0 <= i < |s| :: r[i] == LowerChar(s[i])
  {
    seq(|s|, i requires 0 <= i < |s| => LowerChar(s[i]))
  }

  /** Lower-casing never turns a non-space character into white space or back. */
  lemma LowerKeepsSpaces(s: string)
    ensures forall i | 0 <= i < |s| :: IsSpace(ToLower(s)[i]) == IsSpace(s[i])
  {
  }

  // ---------------------------------------------------------------------------
  // Searching
  // ---------------------------------------------------------------------------

  predicate OccursAt(s: string, i: nat, sub: string) {
    i + |sub| <= |s| && s[i..i + |sub|] == sub
  }

  lemma OccursBetween(a: string, b: string, c: string)
    ensures OccursAt(a + b + c, |a|, b)
  {
    assert (a + b + c)[|a|..|a| + |b|] == b;
  }

  /** The middle piece of `a + b + c` starts right after `a`, with its own first character. */
  lemma OccursBetweenHead(a: string, b: string, c: string)
    requires b != []
    ensures OccursAt(a + b + c, |a|, b) && (a + b + c)[|a|] == b[0]
  {
    OccursBetween(a, b, c);
  }

  /** An occurrence stays where it is when text is appended. */
  lemma OccursExtend(s: string, t: string, i: nat, sub: string)
    requires OccursAt(s, i, sub)
    ensures OccursAt(s + t, i, sub)
  {
    assert (s + t)[i..i + |sub|] == s[i..i + |sub|];
  }

  lemma OccursAtStart(s: string, t: string)
    ensures OccursAt(s + t, 0, s)
  {
    assert (s + t)[..|s|] == s;
  }

  /** Case-insensitive literal match at `i`; `lit` is written in upper case, as a regex with the
      `i` flag compares characters after upper-casing them. */
  predicate OccursAtIgnoringCase(s: string, i: nat, lit: string) {
    i + |lit| <= |s| && forall k | 0 <= k < |lit| :: UpperChar(s[i + k]) == lit[k]
  }

  /** `s.indexOf(sub, from)` for a non-empty `sub`: the first occurrence at or after `from`, or -1. */
  function IndexOfFrom(s: string, sub: string, from: nat): (r: int)
    requires sub != []
    decreases |s| - from
    ensures r == -1 || (from <= r && OccursAt(s, r, sub))
    ensures r == -1 ==> forall i | from <= i :: !OccursAt(s, i, sub)
    ensures r != -1 ==> forall i | from <= i < r :: !OccursAt(s, i, sub)
  {
    if from + |sub| > |s| then -1
    else if OccursAt(s, from, sub) then from
    else IndexOfFrom(s, sub, from + 1)
  }

  function IndexOf(s: string, sub: string): int
    requires sub != []
  {
    IndexOfFrom(s, sub, 0)
  }

  predicate Contains(s: string, sub: string) {
    exists i: nat | i <= |s| :: OccursAt(s, i, sub)
  }

  /** `s.includes(sub)` agrees with `indexOf` finding something. */
  lemma ContainsIffFound(s: string, sub: string)
    requires sub != []
    ensures Contains(s, sub) <==> IndexOf(s, sub) >= 0
  {
    if IndexOf(s, sub) >= 0 {
      var i: nat := IndexOf(s, sub);
      assert OccursAt(s, i, sub);
    }
  }

  /** `s.indexOf(c)` for one character, with `|s|` standing for "not found". */
  function FirstOf(s: string, c: char): (i: nat)
    ensures i <= |s| && c !in s[..i]
    ensures i < |s| ==> s[i] == c
  {
    if s == [] || s[0] == c then 0 else 1 + FirstOf(s[1..], c)
  }

  /** `s.lastIndexOf(c)` for one character: -1 when absent. */
  function LastOf(s: string, c: char): (i: int)
    ensures -1 <= i < |s|
    ensures i >= 0 ==> s[i] == c
    ensures forall k | i < k < |s| :: s[k] != c
  {
    if s == [] then -1
    else if s[|s| - 1] == c then |s| - 1
    else LastOf(s[..|s| - 1], c)
  }

  /** `s.substring(0, n)` for a natural `n`. */
  function Prefix(s: string, n: nat): (r: string)
    ensures |r| == if n < |s| then n else |s|
    ensures r <= s
  {
    if n < |s| then s[..n] else s
  }

  // ---------------------------------------------------------------------------
  // trim
  // ---------------------------------------------------------------------------

  function TrimStart(s: string): (r: string)
    ensures |r| <= |s| && r == s[|s| - |r|..]
    ensures r == [] || !IsSpace(r[0])
    ensures forall i | 0 <= i < |s| - |r| :: IsSpace(s[i])
  {
    if s == [] || !IsSpace(s[0]) then s else TrimStart(s[1..])
  }

  function TrimEnd(s: string): (r: string)
    ensures |r| <= |s| && r == s[..|r|]
    ensures r == [] || !IsSpace(r[|r| - 1])
    ensures forall i | |r| <= i < |s| :: IsSpace(s[i])
  {
    if s == [] || !IsSpace(s[|s| - 1]) then s else TrimEnd(s[..|s| - 1])
  }

  /** `s.trim()`: the slice left after dropping white space at both ends. */
  function Trim(s: string): (r: string)
    ensures r == [] <==> IsBlank(s)
    ensures r != [] ==> !IsSpace(r[0]) && !IsSpace(r[|r| - 1])
    ensures |r| <= |s|
  {
    TrimEmptyIffBlank(s);
    TrimEnd(TrimStart(s))
  }

  lemma TrimEmptyIffBlank(s: string)
    ensures TrimEnd(TrimStart(s)) == [] <==> IsBlank(s)
    ensures TrimEnd(TrimStart(s)) != [] ==> !IsSpace(TrimEnd(TrimStart(s))[0])
  {
    var t := TrimStart(s);
    var r := TrimEnd(t);
    var d := |s| - |t|;
    if r == [] {
      assert t == [];
    } else {
      assert t[0] == s[d] && !IsSpace(t[0]);
    }
  }

  lemma TrimOfTrimmed(s: string)
    requires s == [] || (!IsSpace(s[0]) && !IsSpace(s[|s| - 1]))
    ensures Trim(s) == s
  {
  }

  // ---------------------------------------------------------------------------
  // split / join on a string separator
  // ---------------------------------------------------------------------------

  /** Concatenation regroups freely; stated once so that loops building text can cite it. */
  lemma ConcatAssoc(a: string, b: string, c: string)
    ensures (a + b) + c == a + (b + c)
  {
  }

  /** `parts.join(sep)`. */
  function Join(parts: seq<string>, sep: string): string {
    if parts == [] then []
    else if |parts| == 1 then parts[0]
    else parts[0] + sep + Join(parts[1..], sep)
  }

  /** `s.split(sep)` for a non-empty separator: cut at every leftmost non-overlapping occurrence. */
  function SplitOn(s: string, sep: string): (parts: seq<string>)
    requires sep != []
    decreases |s|
    ensures |parts| >= 1
  {
    var i := IndexOf(s, sep);
    if i < 0 then [s] else [s[..i]] + SplitOn(s[i + |sep|..], sep)
  }

  /** Joining the pieces of a split with the same separator gives back the input. */
  lemma {:induction false} SplitOnJoin(s: string, sep: string)
    requires sep != []
    decreases |s|
    ensures Join(SplitOn(s, sep), sep) == s
  {
    var i := IndexOf(s, sep);
    if i >= 0 {
      var head, rest := s[..i], s[i + |sep|..];
      var parts := SplitOn(rest, sep);
      assert SplitOn(s, sep) == [head] + parts;
      SplitOnJoin(rest, sep);
      JoinCons(head, parts, sep);
      SplitAtOccurrence(s, i, sep);
    }
  }

  /** A join of a non-empty list opens with its first piece. */
  lemma JoinStartsWithFirst(xs: seq<string>, sep: string)
    requires xs != []
    ensures xs[0] <= Join(xs, sep)
  {
  }

  /** A text framed by an opening and a closing still holds what its middle holds. */
  lemma OccursWithin(open: string, mid: string, close: string)
    ensures open <= open + mid + close
    ensures forall sub, i: nat | OccursAt(mid, i, sub) :: OccursAt(open + mid + close, |open| + i, sub)
  {
    forall sub, i: nat | OccursAt(mid, i, sub) ensures OccursAt(open + mid + close, |open| + i, sub) {
      assert (open + mid + close)[|open| + i..|open| + i + |sub|] == mid[i..i + |sub|];
    }
  }

  /** `c` stands where it was put in `a + (b + c + d)`. */
  lemma OccursInFrame(a: string, b: string, c: string, d: string)
    ensures OccursAt(a + (b + c + d), |a| + |b|, c)
  {
    assert a + (b + c + d) == (a + b) + c + d;
    OccursBetween(a + b, c, d);
  }

  /** Every piece of a join stands in it. */
  lemma {:induction false} JoinHoldsEach(xs: seq<string>, sep: string)
    ensures forall k | 0 <= k < |xs| :: Contains(Join(xs, sep), xs[k])
  {
    if |xs| == 1 {
      assert OccursAt(Join(xs, sep), 0, xs[0]);
    } else if |xs| > 1 {
      JoinHoldsEach(xs[1..], sep);
      var rest := Join(xs[1..], sep);
      assert Join(xs, sep) == xs[0] + (sep + rest);
      OccursAtStart(xs[0], sep + rest);
      assert OccursAt(Join(xs, sep), 0, xs[0]);
      OccursWithin(xs[0] + sep, rest, []);
      assert xs[0] + sep + rest + [] == Join(xs, sep);
      forall k | 1 <= k < |xs| ensures Contains(Join(xs, sep), xs[k]) {
        assert xs[1..][k - 1] == xs[k];
        var j: nat :| j <= |rest| && OccursAt(rest, j, xs[k]);
        assert OccursAt(Join(xs, sep), |xs[0] + sep| + j, xs[k]);
      }
    }
  }

  lemma JoinCons(head: string, parts: seq<string>, sep: string)
    requires parts != []
    ensures Join([head] + parts, sep) == head + sep + Join(parts, sep)
  {
    assert ([head] + parts)[1..] == parts;
  }

  lemma SplitAtOccurrence(s: string, i: nat, sep: string)
    requires OccursAt(s, i, sep)
    ensures s == s[..i] + sep + s[i + |sep|..]
  {
  }

  /** No piece of a split contains the separator. */
  lemma {:induction false} SplitOnPiecesFree(s: string, sep: string)
    requires sep != []
    decreases |s|
    ensures forall p | p in SplitOn(s, sep) :: IndexOf(p, sep) == -1
  {
    var i := IndexOf(s, sep);
    if i >= 0 {
      var head, rest := s[..i], s[i + |sep|..];
      HeadBeforeFirstFree(s, sep);
      SplitOnPiecesFree(rest, sep);
      assert SplitOn(s, sep) == [head] + SplitOn(rest, sep);
      forall p | p in SplitOn(s, sep)
        ensures IndexOf(p, sep) == -1
      {
        if p != head {
          assert p in SplitOn(rest, sep);
        }
      }
    }
  }

  /** The text before the first separator holds none. */
  lemma HeadBeforeFirstFree(s: string, sep: string)
    requires sep != [] && IndexOf(s, sep) >= 0
    ensures IndexOf(s[..IndexOf(s, sep)], sep) == -1
  {
    var i := IndexOf(s, sep);
    var head := s[..i];
    forall j: nat ensures !OccursAt(head, j, sep) {
      if j + |sep| <= |head| {
        assert j < i && !OccursAt(s, j, sep);
        assert head[j..j + |sep|] == s[j..j + |sep|];
      }
    }
  }

  // ---------------------------------------------------------------------------
  // split(/\s+/), replace(/\s+/g, rep), replace(/\s+/g, '')
  //
  // The three are defined character by character; a maximal run of white space is
  // accounted for at its last character, where the run ends.
  // ---------------------------------------------------------------------------

  /** Does a run of white space end at the first character of `s`? */
  predicate RunEndsAtHead(s: string) {
    s != [] && IsSpace(s[0]) && (|s| == 1 || !IsSpace(s[1]))
  }

  /** Does a word (a run of other characters) end at the first character of `s`? */
  predicate WordEndsAtHead(s: string) {
    s != [] && !IsSpace(s[0]) && (|s| == 1 || IsSpace(s[1]))
  }

  /** `s.split(/\s+/)`: the pieces between maximal runs of white space. */
  function SplitSpaces(s: string): (parts: seq<string>)
    ensures |parts| >= 1
  {
    if s == [] then [[]]
    else
      var rest := SplitSpaces(s[1..]);
      if !IsSpace(s[0]) then [[s[0]] + rest[0]] + rest[1..]
      else if RunEndsAtHead(s) then [[]] + rest
      else rest
  }

  /** `s.replace(/\s+/g, rep)`: every maximal run of white space becomes `rep`. */
  function ReplaceSpaceRuns(s: string, rep: string): string {
    if s == [] then []
    else if !IsSpace(s[0]) then [s[0]] + ReplaceSpaceRuns(s[1..], rep)
    else if RunEndsAtHead(s) then rep + ReplaceSpaceRuns(s[1..], rep)
    else ReplaceSpaceRuns(s[1..], rep)
  }

  /** Number of maximal runs of white space. */
  function SpaceRuns(s: string): nat {
    if s == [] then 0 else (if RunEndsAtHead(s) then 1 else 0) + SpaceRuns(s[1..])
  }

  /** Number of maximal runs of other characters: the words of `s`. */
  function Words(s: string): nat {
    if s == [] then 0 else (if WordEndsAtHead(s) then 1 else 0) + Words(s[1..])
  }

  lemma JoinConsHead(a: char, parts: seq<string>, sep: string)
    requires parts != []
    ensures Join([[a] + parts[0]] + parts[1..], sep) == [a] + Join(parts, sep)
  {
  }

  /** `replace(/\s+/g, rep)` is `split(/\s+/).join(rep)`. */
  lemma {:induction false} ReplaceIsSplitJoin(s: string, rep: string)
    ensures ReplaceSpaceRuns(s, rep) == Join(SplitSpaces(s), rep)
  {
    if s != [] {
      ReplaceIsSplitJoin(s[1..], rep);
      if !IsSpace(s[0]) {
        JoinConsHead(s[0], SplitSpaces(s[1..]), rep);
      }
    }
  }

  /** `s.split(/\s+/)` has one piece more than `s` has runs of white space. */
  lemma {:induction false} SplitSpacesCount(s: string)
    ensures |SplitSpaces(s)| == SpaceRuns(s) + 1
  {
    if s != [] {
      SplitSpacesCount(s[1..]);
    }
  }

  /** In a text ending in a word, words and runs of white space alternate. */
  lemma {:induction false} WordsAndRuns(s: string)
    requires s != [] && !IsSpace(s[|s| - 1])
    ensures Words(s) == SpaceRuns(s) + (if IsSpace(s[0]) then 0 else 1)
  {
    if |s| > 1 {
      WordsAndRuns(s[1..]);
    }
  }

  /** A trimmed, non-empty text has one word more than it has gaps. */
  lemma WordsOfTrimmed(s: string)
    requires s != [] && !IsSpace(s[0]) && !IsSpace(s[|s| - 1])
    ensures Words(s) == SpaceRuns(s) + 1
  {
    WordsAndRuns(s);
  }

  /** `s.replace(/\s+/g, '')` leaves no white space behind. */
  lemma {:induction false} RemoveSpacesLeavesNone(s: string)
    ensures NoSpace(ReplaceSpaceRuns(s, ""))
  {
    if s != [] {
      RemoveSpacesLeavesNone(s[1..]);
    }
  }

  /** Replacing the runs of white space by a replacement free of it leaves none behind. */
  lemma {:induction false} ReplaceLeavesNoSpace(s: string, rep: string)
    requires NoSpace(rep)
    ensures NoSpace(ReplaceSpaceRuns(s, rep))
  {
    if s != [] {
      ReplaceLeavesNoSpace(s[1..], rep);
    }
  }

  /** Without white space there is nothing to replace. */
  lemma {:induction false} NoSpaceReplace(s: string, rep: string)
    requires NoSpace(s)
    ensures ReplaceSpaceRuns(s, rep) == s
  {
    if s != [] {
      NoSpaceReplace(s[1..], rep);
    }
  }


  // ---------------------------------------------------------------------------
  // Decimal numbers
  // ---------------------------------------------------------------------------

  function DigitChar(d: nat): char
    requires d < 10
  {
    ('0' as int + d) as char
  }

  function DigitValue(c: char): nat
    requires IsDigit(c)
  {
    c as int - '0' as int
  }

  /** `${n}` for a natural number: its decimal digits, without leading zeros. */
  function NatToString(n: nat): (r: string)
    ensures r != [] && forall i | 0 <= i < |r| :: IsDigit(r[i])
  {
    if n < 10 then [DigitChar(n)] else NatToString(n / 10) + [DigitChar(n % 10)]
  }

  /** The value of a string of decimal digits. */
  function DecimalValue(s: string): nat
    requires forall i | 0 <= i < |s| :: IsDigit(s[i])
  {
    if s == [] then 0 else 10 * DecimalValue(s[..|s| - 1]) + DigitValue(s[|s| - 1])
  }

  lemma {:induction false} DecimalOfNatToString(n: nat)
    ensures DecimalValue(NatToString(n)) == n
  {
    if n >= 10 {
      DecimalOfNatToString(n / 10);
      var r := NatToString(n);
      assert r[..|r| - 1] == NatToString(n / 10);
    }
  }

  /** Different numbers print differently. */
  lemma NatToStringInjective(m: nat, n: nat)
    requires NatToString(m) == NatToString(n)
    ensures m == n
  {
    DecimalOfNatToString(m);
    DecimalOfNatToString(n);
  }

  /** `${i}` for an integer (an HTTP status code, a count). */
  function IntToString(i: int): (r: string)
    ensures r != []
  {
    if i < 0 then "-" + NatToString(-i) else NatToString(i)
  }
}
