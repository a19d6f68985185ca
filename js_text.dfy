/**
 * The few JavaScript string and array built-ins the dashboard relies on, stated over
 * Dafny strings: `toLowerCase` (as an ASCII fold), `includes`, `split` on one
 * character, `join`, `trim` (only whether anything is left), `slice` with its
 * clamping of negative and out-of-range bounds, and number-to-text conversion.
 */
module JsText {

  datatype Option<T> = None | Some(value: T)

  /** JavaScript truthiness of an optional text: present and not empty. */
  predicate Truthy(s: Option<string>) {
    s.Some? && s.value != ""
  }

  /** `a || b` for an optional text and a fallback. */
  function OrElse(s: Option<string>, fallback: string): (r: string)
    ensures Truthy(s) ==> r == s.value
    ensures !Truthy(s) ==> r == fallback
  {
    if Truthy(s) then s.value else fallback
  }

  // ---------------------------------------------------------------- case folding

  function LowerChar(c: char): char {
    if 'A' <= c <= 'Z' then (c as int + 32) as char else c
  }

  /** `toLowerCase`, restricted to the ASCII letters. */
  function Lower(s: string): (r: string)
    ensures |r| == |s|
    ensures forall i :: 0 <= i < |s| ==> r[i] == LowerChar(s[i])
  {
    if s == [] then [] else [LowerChar(s[0])] + Lower(s[1..])
  }

  /** Lowercasing twice is lowercasing once. */
  lemma LowerIdempotent(s: string)
    ensures Lower(Lower(s)) == Lower(s)
  {
    var once := Lower(s);
    assert forall i :: 0 <= i < |s| ==> Lower(once)[i] == LowerChar(once[i]) == once[i];
  }

  // ---------------------------------------------------------------- includes

  /** `s.includes(q)`: q occurs in s as a contiguous block. */
  predicate Includes(s: string, q: string)
    decreases |s|
  {
    |q| <= |s| && (s[..|q|] == q || Includes(s[1..], q))
  }

  /** q occurs in s starting at position i. */
  predicate OccursAt(s: string, q: string, i: int) {
    0 <= i <= |s| - |q| && s[i..i + |q|] == q
  }

  /** The recursive search above finds exactly the positions where q occurs. */
  lemma {:induction false} IncludesAt(s: string, q: string)
    ensures Includes(s, q) <==> exists i :: OccursAt(s, q, i)
    decreases |s|
  {
    if |q| <= |s| {
      if s[..|q|] == q {
        assert OccursAt(s, q, 0);
      } else if |s| > 0 {
        IncludesAt(s[1..], q);
        if Includes(s[1..], q) {
          var i :| OccursAt(s[1..], q, i);
          assert s[i + 1..i + 1 + |q|] == s[1..][i..i + |q|];
          assert OccursAt(s, q, i + 1);
        }
        if exists i :: OccursAt(s, q, i) {
          var i :| OccursAt(s, q, i);
          assert i != 0;
          assert s[1..][i - 1..i - 1 + |q|] == s[i..i + |q|];
          assert OccursAt(s[1..], q, i - 1);
        }
      }
    }
  }

  /** Every text includes the empty text. */
  lemma {:induction false} IncludesEmpty(s: string)
    ensures Includes(s, "")
  {
    assert s[..0] == "";
  }

  // ---------------------------------------------------------------- split and join

  /** Index of the first `c` in s, or |s| when there is none. */
  function IndexOf(s: string, c: char): (k: nat)
    ensures k <= |s|
    ensures c !in s[..k]
    ensures k < |s| ==> s[k] == c
    ensures k == |s| <==> c !in s
  {
    if s == [] then 0
    else if s[0] == c then 0
    else
      var k := 1 + IndexOf(s[1..], c);
      assert s[..k] == [s[0]] + s[1..][..k - 1];
      k
  }

  /** `s.split(c)` for a one-character separator: always at least one part. */
  function Split(s: string, c: char): (parts: seq<string>)
    ensures |parts| >= 1
    ensures forall p :: p in parts ==> c !in p
    decreases |s|
  {
    var k := IndexOf(s, c);
    if k == |s| then [s] else [s[..k]] + Split(s[k + 1..], c)
  }

  /** `parts.join(sep)`. */
  function Join(parts: seq<string>, sep: string): (r: string)
  {
    if parts == [] then ""
    else if |parts| == 1 then parts[0]
    else parts[0] + sep + Join(parts[1..], sep)
  }

  /** Splitting loses nothing: joining the parts with the separator gives back the text. */
  lemma {:induction false} JoinSplit(s: string, c: char)
    ensures Join(Split(s, c), [c]) == s
    decreases |s|
  {
    var k := IndexOf(s, c);
    if k < |s| {
      var a, rest := s[..k], s[k + 1..];
      assert s == a + [c] + rest;
      SplitCons(a, c, rest);
      JoinSplit(rest, c);
      JoinCons(a, Split(rest, c), [c]);
    }
  }

  lemma JoinCons(a: string, parts: seq<string>, sep: string)
    requires parts != []
    ensures Join([a] + parts, sep) == a + sep + Join(parts, sep)
  {
    assert ([a] + parts)[1..] == parts;
  }

  /** A text up to its first separator is the first part; the parts after it are the split of the rest. */
  lemma {:induction false} SplitCons(a: string, c: char, rest: string)
    requires c !in a
    ensures Split(a + [c] + rest, c) == [a] + Split(rest, c)
  {
    var s := a + [c] + rest;
    IndexOfCons(a, c, rest);
    assert s[..|a|] == a;
    assert s[|a| + 1..] == rest;
  }

  lemma {:induction false} IndexOfCons(a: string, c: char, rest: string)
    requires c !in a
    ensures IndexOf(a + [c] + rest, c) == |a|
  {
    if a != [] {
      assert (a + [c] + rest)[1..] == a[1..] + [c] + rest;
      IndexOfCons(a[1..], c, rest);
    }
  }

  /** A text without the separator is one part; the first part is the text up to the first separator. */
  lemma {:induction false} SplitFirst(s: string, c: char)
    ensures Split(s, c)[0] == s[..IndexOf(s, c)]
    ensures c !in s ==> Split(s, c) == [s]
  {
  }

  /** The text after the last `c` of `s`: all of `s` when it has none. */
  function AfterLast(s: string, c: char): (r: string)
    ensures |r| <= |s|
  {
    if s == [] then []
    else if s[|s| - 1] == c then []
    else AfterLast(s[..|s| - 1], c) + [s[|s| - 1]]
  }

  /** A text without `c` is its own tail after the last `c`. */
  lemma {:induction false} AfterLastNone(s: string, c: char)
    requires c !in s
    ensures AfterLast(s, c) == s
  {
    if s != [] {
      AfterLastNone(s[..|s| - 1], c);
    }
  }

  /** Whatever comes before a `c` does not matter to what follows the last one. */
  lemma {:induction false} AfterLastCons(a: string, c: char, rest: string)
    ensures AfterLast(a + [c] + rest, c) == AfterLast(rest, c)
    decreases |rest|
  {
    var s := a + [c] + rest;
    if rest == [] {
      assert s[|s| - 1] == c;
    } else {
      assert s[|s| - 1] == rest[|rest| - 1];
      assert s[..|s| - 1] == a + [c] + rest[..|rest| - 1];
      AfterLastCons(a, c, rest[..|rest| - 1]);
    }
  }

  /** The last part of a split is the text after the last separator. */
  lemma {:induction false} SplitLast(s: string, c: char)
    ensures Split(s, c)[|Split(s, c)| - 1] == AfterLast(s, c)
    decreases |s|
  {
    var k := IndexOf(s, c);
    if k == |s| {
      SplitFirst(s, c);
      AfterLastNone(s, c);
    } else {
      var a, rest := s[..k], s[k + 1..];
      assert s == a + [c] + rest;
      SplitLast(rest, c);
      SplitLastStep(a, c, rest);
    }
  }

  /** Splitting off the first part leaves the last part, and the text after the last `c`, as they were. */
  lemma SplitLastStep(a: string, c: char, rest: string)
    requires c !in a
    ensures Split(a + [c] + rest, c)[|Split(a + [c] + rest, c)| - 1] == Split(rest, c)[|Split(rest, c)| - 1]
    ensures AfterLast(a + [c] + rest, c) == AfterLast(rest, c)
  {
    SplitCons(a, c, rest);
    AfterLastCons(a, c, rest);
  }

  // ---------------------------------------------------------------- trim

  /** The characters `String.prototype.trim` strips: white space and line terminators. */
  predicate IsSpace(c: char) {
    c == ' ' || c == '\t' || c == '\n' || c == '\r' || c == '\U{000B}' || c == '\U{000C}'
    || c == '\U{00A0}' || c == '\U{1680}' || ('\U{2000}' <= c <= '\U{200A}')
    || c == '\U{2028}' || c == '\U{2029}' || c == '\U{202F}' || c == '\U{205F}'
    || c == '\U{3000}' || c == '\U{FEFF}'
  }

  function TrimStart(s: string): (r: string)
    ensures |r| <= |s|
  {
    if s != [] && IsSpace(s[0]) then TrimStart(s[1..]) else s
  }

  function TrimEnd(s: string): (r: string)
    ensures |r| <= |s|
  {
    if s != [] && IsSpace(s[|s| - 1]) then TrimEnd(s[..|s| - 1]) else s
  }

  /** `s.trim()`. */
  function Trim(s: string): string {
    TrimEnd(TrimStart(s))
  }

  /** Nothing is left after trimming exactly when every character is white space. */
  lemma {:induction false} TrimEmptyIffBlank(s: string)
    ensures Trim(s) == "" <==> forall i :: 0 <= i < |s| ==> IsSpace(s[i])
    decreases |s|
  {
    if s != [] && IsSpace(s[0]) {
      TrimEmptyIffBlank(s[1..]);
      assert forall i :: 1 <= i < |s| ==> s[i] == s[1..][i - 1];
    } else if s != [] {
      TrimEndKeepsNonSpace(s);
    }
  }

  lemma {:induction false} TrimEndKeepsNonSpace(s: string)
    requires s != [] && !IsSpace(s[0])
    ensures TrimEnd(s) != ""
    decreases |s|
  {
    if IsSpace(s[|s| - 1]) {
      TrimEndKeepsNonSpace(s[..|s| - 1]);
    }
  }

  // ---------------------------------------------------------------- slice

  /** How `slice` reads one bound: negative counts from the end, then clamp to [0, n]. */
  function RelativeIndex(i: int, n: nat): (k: nat)
    ensures k <= n
    ensures 0 <= i <= n ==> k == i
    ensures i > n ==> k == n
    ensures i < 0 ==> k == (if n + i < 0 then 0 else n + i)
  {
    if i < 0 then (if n + i < 0 then 0 else n + i) else if i > n then n else i
  }

  /** `xs.slice(start, end)` for any integer bounds. */
  function Slice<T>(xs: seq<T>, start: int, end: int): (r: seq<T>)
    ensures |r| <= |xs|
    ensures 0 <= start <= end <= |xs| ==> r == xs[start..end]
    ensures forall i :: 0 <= i < |r| ==> RelativeIndex(start, |xs|) + i < |xs| && r[i] == xs[RelativeIndex(start, |xs|) + i]
  {
    var from, to := RelativeIndex(start, |xs|), RelativeIndex(end, |xs|);
    if from < to then xs[from..to] else []
  }

  // ---------------------------------------------------------------- numbers

  function DigitChar(d: nat): char
    requires d < 10
  {
    ('0' as int + d) as char
  }

  /** Decimal text of a natural number, as a template literal prints it. */
  function NatText(n: nat): (r: string)
    ensures |r| >= 1
    ensures forall i :: 0 <= i < |r| ==> '0' <= r[i] <= '9'
  {
    if n < 10 then [DigitChar(n)] else NatText(n / 10) + [DigitChar(n % 10)]
  }

  /** Different numbers print differently. */
  lemma {:induction false} NatTextInjective(a: nat, b: nat)
    requires NatText(a) == NatText(b)
    ensures a == b
  {
    if a < 10 && b < 10 {
      assert NatText(a)[0] == DigitChar(a);
    } else if a >= 10 && b >= 10 {
      var ta, tb := NatText(a), NatText(b);
      assert ta[..|ta| - 1] == NatText(a / 10);
      assert tb[..|tb| - 1] == NatText(b / 10);
      NatTextInjective(a / 10, b / 10);
      assert ta[|ta| - 1] == DigitChar(a % 10);
    }
  }

  /** Decimal text of an integer, with a leading '-' when it is negative. */
  function IntText(n: int): (r: string)
    ensures n >= 0 ==> r == NatText(n)
    ensures n < 0 ==> r == "-" + NatText(-n)
  {
    if n < 0 then "-" + NatText(-n) else NatText(n)
  }

  // ---------------------------------------------------------------- display truncation

  /** The table cells that cut long text: more than 40 characters shows the first 40 and "...". */
  function Truncate40(s: string): (r: string)
    ensures |s| <= 40 ==> r == s
    ensures |s| > 40 ==> |r| == 43 && r[..40] == s[..40] && r[40..] == "..."
    ensures |r| <= 43
  {
    if |s| > 40 then s[..40] + "..." else s
  }
}
