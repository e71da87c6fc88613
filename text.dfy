// Shared text helpers for the three document generators: optional values
// with JavaScript truthiness, decimal rendering of counters, joining, and the
// "heading, blank line, text, blank line" section shape all three tools emit.

module Text {

  datatype Option<+T> = None | Some(value: T)

  /** An optional string is truthy in JavaScript exactly when it is present
      and non-empty, which is what the source's `if` tests on one. */
  predicate Truthy(o: Option<string>) {
    o.Some? && o.value != ""
  }

  /** The text of an optional string, "" when absent. */
  function TextOf(o: Option<string>): string {
    if o.Some? then o.value else ""
  }

  /** An optional array of strings that is present and has an element. */
  predicate Listed(o: Option<seq<string>>) {
    o.Some? && |o.value| > 0
  }

  predicate IsDigit(c: char) {
    '0' <= c <= '9'
  }

  predicate AllDigits(s: string) {
    forall i :: 0 <= i < |s| ==> IsDigit(s[i])
  }

  function Digit(d: nat): (c: char)
    requires d < 10
    ensures IsDigit(c) && c as int - '0' as int == d
  {
    ('0' as int + d) as char
  }

  /** Decimal notation of a natural number, as a template literal prints a
      non-negative integer: digits only, no leading zero. */
  function NatToString(n: nat): (s: string)
    ensures |s| > 0 && AllDigits(s)
    ensures s[0] == '0' ==> n == 0 && |s| == 1
    decreases n
  {
    if n < 10 then [Digit(n)] else NatToString(n / 10) + [Digit(n % 10)]
  }

  /** The value a string of decimal digits denotes. */
  function DecimalValue(s: string): nat
    requires AllDigits(s)
  {
    if s == [] then 0
    else DecimalValue(s[..|s| - 1]) * 10 + (s[|s| - 1] as int - '0' as int)
  }

  /** Reading back the decimal notation of a counter gives the counter. */
  lemma {:induction false} DecimalRoundTrip(n: nat)
    ensures DecimalValue(NatToString(n)) == n
  {
    var s := NatToString(n);
    if n >= 10 {
      DecimalRoundTrip(n / 10);
      assert s[..|s| - 1] == NatToString(n / 10);
    }
  }

  /** The strings of `xs` with `sep` between consecutive ones. */
  function Join(xs: seq<string>, sep: string): string {
    if |xs| == 0 then ""
    else if |xs| == 1 then xs[0]
    else xs[0] + sep + Join(xs[1..], sep)
  }

  /** A document section: a heading line, a blank line, the text verbatim and
      a blank line. */
  datatype Part = Part(heading: string, text: string)

  function RenderPart(p: Part): string {
    p.heading + "\n\n" + p.text + "\n\n"
  }

  /** The sections one after the other, in the given order. */
  function RenderParts(ps: seq<Part>): string {
    if ps == [] then "" else RenderParts(ps[..|ps| - 1]) + RenderPart(ps[|ps| - 1])
  }

  /** The headings of the sections, in order. */
  function Headings(ps: seq<Part>): seq<string> {
    seq(|ps|, i requires 0 <= i < |ps| => ps[i].heading)
  }

  lemma HeadingsAppend(ps: seq<Part>, qs: seq<Part>)
    ensures Headings(ps + qs) == Headings(ps) + Headings(qs)
  {
  }

  /** The section `p` when `present`, nothing otherwise. */
  function PartIf(present: bool, p: Part): seq<Part> {
    if present then [p] else []
  }

  /** One guarded section appended to a buffer that already holds `top`
      followed by the sections `ps`: the buffer then holds `top` followed by
      the sections `ps` and, when present, `p`. */
  lemma PartStep(top: string, ps: seq<Part>, before: string, after: string, present: bool, p: Part)
    requires before == top + RenderParts(ps)
    requires after == if present then before + p.heading + "\n\n" + p.text + "\n\n" else before
    ensures after == top + RenderParts(ps + PartIf(present, p))
  {
    if present {
      assert (ps + [p])[..|ps|] == ps;
    } else {
      assert ps + [] == ps;
    }
  }

  /** The first section comes first in the rendered text. */
  lemma {:induction false} RenderPartsCons(p: Part, ps: seq<Part>)
    ensures RenderParts([p] + ps) == RenderPart(p) + RenderParts(ps)
    decreases |ps|
  {
    if ps == [] {
      assert [p] + ps == [p];
      assert RenderParts([p]) == RenderParts([]) + RenderPart(p);
    } else {
      var init, last := ps[..|ps| - 1], ps[|ps| - 1];
      assert ([p] + ps)[..|ps|] == [p] + init;
      RenderPartsCons(p, init);
      assert RenderParts([p] + ps) == RenderParts([p] + init) + RenderPart(last);
    }
  }

  /** Regrouping a concatenation, for proofs that build a text piece by piece. */
  lemma Assoc(a: string, b: string, c: string)
    ensures a + b + c == a + (b + c)
  {
  }

  lemma PrefixOfAppend(a: string, b: string, n: nat)
    requires n <= |a|
    ensures (a + b)[..n] == a[..n]
  {
  }

  /** Where the pieces of `a + b + c` sit. */
  lemma Slices(a: string, b: string, c: string)
    ensures (a + b + c)[..|a|] == a
    ensures (a + b + c)[|a|..|a| + |b|] == b
    ensures (a + b + c)[|a| + |b|..] == c
  {
  }

  predicate Distinct<T(==)>(s: seq<T>) {
    forall i, j :: 0 <= i < j < |s| ==> s[i] != s[j]
  }
}
