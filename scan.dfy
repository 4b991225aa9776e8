/** Character-class scanning used by the hand-written regular-expression
    matchers. Each `Lead` function measures the maximal run of one class at
    the start of a string; a matcher consumes its input by dropping the
    pieces it has recognised, so that every step looks at a suffix. */
module Scan {
  import opened Text
  import opened Values

  /** Whole strings made of one character class. */
  predicate NonSpaces(s: string) { forall k :: 0 <= k < |s| ==> !IsSpace(s[k]) }
  predicate Spaces(s: string) { forall k :: 0 <= k < |s| ==> IsSpace(s[k]) }
  predicate Digits(s: string) { forall k :: 0 <= k < |s| ==> IsDigit(s[k]) }
  predicate Uppers(s: string) { forall k :: 0 <= k < |s| ==> IsUpper(s[k]) }
  predicate NoNewline(s: string) { forall k :: 0 <= k < |s| ==> s[k] != '\n' }

  /** Length of the leading run of non-whitespace characters (`\S*`). */
  function LeadNonSpace(s: string): (n: nat)
    ensures n <= |s|
  {
    if s == [] || IsSpace(s[0]) then 0 else 1 + LeadNonSpace(s[1..])
  }

  /** The run LeadNonSpace measures is of its class and ends where the class ends. */
  lemma {:induction false} LeadNonSpaceRun(s: string)
    ensures NonSpaces(s[..LeadNonSpace(s)]) && (LeadNonSpace(s) < |s| ==> IsSpace(s[LeadNonSpace(s)]))
  {
    if !(s == [] || IsSpace(s[0])) {
      LeadNonSpaceRun(s[1..]);
      assert s[..LeadNonSpace(s)] == [s[0]] + s[1..][..LeadNonSpace(s[1..])];
    }
  }

  /** Length of the leading run of whitespace (`\s*`). */
  function LeadSpace(s: string): (n: nat)
    ensures n <= |s|
  {
    if s == [] || !IsSpace(s[0]) then 0 else 1 + LeadSpace(s[1..])
  }

  /** The run LeadSpace measures is of its class and ends where the class ends. */
  lemma {:induction false} LeadSpaceRun(s: string)
    ensures Spaces(s[..LeadSpace(s)]) && (LeadSpace(s) < |s| ==> !IsSpace(s[LeadSpace(s)]))
  {
    if !(s == [] || !IsSpace(s[0])) {
      LeadSpaceRun(s[1..]);
      assert s[..LeadSpace(s)] == [s[0]] + s[1..][..LeadSpace(s[1..])];
    }
  }

  /** Length of the leading run of digits (`\d*`). */
  function LeadDigits(s: string): (n: nat)
    ensures n <= |s|
  {
    if s == [] || !IsDigit(s[0]) then 0 else 1 + LeadDigits(s[1..])
  }

  /** The run LeadDigits measures is of its class and ends where the class ends. */
  lemma {:induction false} LeadDigitsRun(s: string)
    ensures Digits(s[..LeadDigits(s)]) && (LeadDigits(s) < |s| ==> !IsDigit(s[LeadDigits(s)]))
  {
    if !(s == [] || !IsDigit(s[0])) {
      LeadDigitsRun(s[1..]);
      assert s[..LeadDigits(s)] == [s[0]] + s[1..][..LeadDigits(s[1..])];
    }
  }

  /** Length of the leading run of upper-case letters (`[A-Z]*`). */
  function LeadUpper(s: string): (n: nat)
    ensures n <= |s|
  {
    if s == [] || !IsUpper(s[0]) then 0 else 1 + LeadUpper(s[1..])
  }

  /** The run LeadUpper measures is of its class and ends where the class ends. */
  lemma {:induction false} LeadUpperRun(s: string)
    ensures Uppers(s[..LeadUpper(s)]) && (LeadUpper(s) < |s| ==> !IsUpper(s[LeadUpper(s)]))
  {
    if !(s == [] || !IsUpper(s[0])) {
      LeadUpperRun(s[1..]);
      assert s[..LeadUpper(s)] == [s[0]] + s[1..][..LeadUpper(s[1..])];
    }
  }

  /** Length of what `.*` matches at the start: up to the first newline. */
  function LeadLine(s: string): (n: nat)
    ensures n <= |s|
  {
    if s == [] || s[0] == '\n' then 0 else 1 + LeadLine(s[1..])
  }

  /** The run LeadLine measures is of its class and ends where the class ends. */
  lemma {:induction false} LeadLineRun(s: string)
    ensures NoNewline(s[..LeadLine(s)]) && (LeadLine(s) < |s| ==> s[LeadLine(s)] == '\n')
  {
    if !(s == [] || s[0] == '\n') {
      LeadLineRun(s[1..]);
      assert s[..LeadLine(s)] == [s[0]] + s[1..][..LeadLine(s[1..])];
    }
  }

  // A run followed by a character outside its class is measured exactly.

  lemma {:induction false} LeadNonSpaceOf(a: string, b: string)
    requires NonSpaces(a) && (b == [] || IsSpace(b[0]))
    ensures LeadNonSpace(a + b) == |a|
  {
    if a != [] {
      assert (a + b)[0] == a[0];
      assert (a + b)[1..] == a[1..] + b;
      LeadNonSpaceOf(a[1..], b);
    } else {
      assert a + b == b;
    }
  }

  lemma {:induction false} LeadSpaceOf(a: string, b: string)
    requires Spaces(a) && (b == [] || !IsSpace(b[0]))
    ensures LeadSpace(a + b) == |a|
  {
    if a != [] {
      assert (a + b)[0] == a[0];
      assert (a + b)[1..] == a[1..] + b;
      LeadSpaceOf(a[1..], b);
    } else {
      assert a + b == b;
    }
  }

  lemma {:induction false} LeadDigitsOf(a: string, b: string)
    requires Digits(a) && (b == [] || !IsDigit(b[0]))
    ensures LeadDigits(a + b) == |a|
  {
    if a != [] {
      assert (a + b)[0] == a[0];
      assert (a + b)[1..] == a[1..] + b;
      LeadDigitsOf(a[1..], b);
    } else {
      assert a + b == b;
    }
  }

  lemma {:induction false} LeadUpperOf(a: string, b: string)
    requires Uppers(a) && (b == [] || !IsUpper(b[0]))
    ensures LeadUpper(a + b) == |a|
  {
    if a != [] {
      assert (a + b)[0] == a[0];
      assert (a + b)[1..] == a[1..] + b;
      LeadUpperOf(a[1..], b);
    } else {
      assert a + b == b;
    }
  }

  lemma {:induction false} LeadLineOf(a: string, b: string)
    requires NoNewline(a) && (b == [] || b[0] == '\n')
    ensures LeadLine(a + b) == |a|
  {
    if a != [] {
      assert (a + b)[0] == a[0];
      assert (a + b)[1..] == a[1..] + b;
      LeadLineOf(a[1..], b);
    } else {
      assert a + b == b;
    }
  }

  /** A string is its first `n` characters followed by the rest. */
  lemma TakeDrop(s: string, n: nat)
    requires n <= |s|
    ensures s == s[..n] + s[n..]
  {
  }

  // ---------------------------------------------------------------------
  // Matcher steps. Each consumes a piece at the start of its input and
  // returns the piece and what follows it; the matching `Of` lemma states
  // that a string laid out from such a piece is taken apart into exactly it.

  /** A literal `p`. */
  function Lit(r: string, p: string): (o: Option<string>)
    ensures o.Some? ==> r == p + o.value
  {
    if StartsWith(r, p) then TakeDrop(r, |p|); Some(r[|p|..]) else None
  }

  lemma LitOf(p: string, rest: string)
    ensures Lit(p + rest, p) == Some(rest)
  {
    assert (p + rest)[..|p|] == p;
    assert (p + rest)[|p|..] == rest;
  }

  /** `(\S+)` followed by the literal `tail`, whose first `k` characters are
      not whitespace and whose next one is: the group is the run of
      non-whitespace without its last `k` characters. */
  function Word(r: string, k: nat, tail: string): (o: Option<(string, string)>)
    ensures o.Some? ==> o.value.0 != [] && NonSpaces(o.value.0) && r == o.value.0 + (tail + o.value.1)
  {
    var n := LeadNonSpace(r);
    if n > k && StartsWith(r[n - k..], tail) then
      LeadNonSpaceRun(r);
      WordGlue(r, n - k, tail);
      Some((r[..n - k], r[n - k..][|tail|..]))
    else None
  }

  lemma WordGlue(r: string, m: nat, tail: string)
    requires m <= |r| && StartsWith(r[m..], tail)
    ensures r == r[..m] + (tail + r[m..][|tail|..])
  {
    var q := r[m..];
    assert q == tail + q[|tail|..];
    assert r == r[..m] + q;
  }

  lemma WordOf(w: string, k: nat, tail: string, rest: string)
    requires w != [] && NonSpaces(w) && k < |tail| && NonSpaces(tail[..k]) && IsSpace(tail[k])
    ensures Word(w + (tail + rest), k, tail) == Some((w, rest))
  {
    var r := w + (tail + rest);
    var a := w + tail[..k];
    var b := tail[k..] + rest;
    assert r == a + b by {
      assert tail == tail[..k] + tail[k..];
    }
    assert NonSpaces(a) by {
      forall i | 0 <= i < |a| ensures !IsSpace(a[i]) {
        if i < |w| { assert a[i] == w[i]; } else { assert a[i] == tail[..k][i - |w|]; }
      }
    }
    assert b[0] == tail[k];
    LeadNonSpaceOf(a, b);
    assert r[..|w|] == w;
    assert r[|w|..] == tail + rest;
    LitOf(tail, rest);
  }

  /** `[A-Z]+` followed by something that is not an upper-case letter. */
  function UpperRun(r: string): (o: Option<(string, string)>)
    ensures o.Some? ==> o.value.0 != [] && Uppers(o.value.0) && r == o.value.0 + o.value.1
    ensures o.Some? ==> o.value.1 == [] || !IsUpper(o.value.1[0])
  {
    var n := LeadUpper(r);
    if n > 0 then LeadUpperRun(r); TakeDrop(r, n); Some((r[..n], r[n..])) else None
  }

  lemma UpperRunOf(a: string, b: string)
    requires a != [] && Uppers(a) && (b == [] || !IsUpper(b[0]))
    ensures UpperRun(a + b) == Some((a, b))
  {
    LeadUpperOf(a, b);
    assert (a + b)[..|a|] == a;
    assert (a + b)[|a|..] == b;
  }

  /** `\s+` followed by something that is not whitespace. */
  function SpaceRun(r: string): (o: Option<(string, string)>)
    ensures o.Some? ==> o.value.0 != [] && Spaces(o.value.0) && r == o.value.0 + o.value.1
    ensures o.Some? ==> o.value.1 == [] || !IsSpace(o.value.1[0])
  {
    var n := LeadSpace(r);
    if n > 0 then LeadSpaceRun(r); TakeDrop(r, n); Some((r[..n], r[n..])) else None
  }

  lemma SpaceRunOf(a: string, b: string)
    requires a != [] && Spaces(a) && (b == [] || !IsSpace(b[0]))
    ensures SpaceRun(a + b) == Some((a, b))
  {
    LeadSpaceOf(a, b);
    assert (a + b)[..|a|] == a;
    assert (a + b)[|a|..] == b;
  }

  /** `(.*)` without `$`: the rest of the line and what follows it. */
  function LineRun(r: string): (o: (string, string))
    ensures NoNewline(o.0) && r == o.0 + o.1 && (o.1 == [] || o.1[0] == '\n')
  {
    var n := LeadLine(r);
    LeadLineRun(r);
    TakeDrop(r, n);
    (r[..n], r[n..])
  }

  lemma LineRunOf(a: string, b: string)
    requires NoNewline(a) && (b == [] || b[0] == '\n')
    ensures LineRun(a + b) == (a, b)
  {
    LeadLineOf(a, b);
    assert (a + b)[..|a|] == a;
    assert (a + b)[|a|..] == b;
  }
}
