/** JavaScript strings as sequences of UTF-16 code units, with the few string
    operations the routes use: `startsWith`, `includes`, ASCII `toLowerCase`,
    `Array.prototype.join`, and number-to-decimal conversion in template
    literals. */
module JsStrings {

  /** One UTF-16 code unit: what a JavaScript string is a sequence of. */
  newtype CodeUnit = x: int | 0 <= x < 0x1_0000

  type JsString = seq<CodeUnit>

  /** A Dafny character as one code unit. Only used for the source's string
      literals, which all lie in the Basic Multilingual Plane; anything beyond
      it would need a surrogate pair and is shown as U+FFFD instead. */
  function BmpUnit(c: char): CodeUnit {
    if c as int < 0x1_0000 then c as int as CodeUnit else 0xFFFD
  }

  /** A string literal of the source, as the code units JavaScript stores. */
  function Js(s: string): (r: JsString)
    ensures |r| == |s|
  {
    seq(|s|, i requires 0 <= i < |s| => BmpUnit(s[i]))
  }

  /** Literal text can be split anywhere. */
  lemma JsConcat(a: string, b: string)
    ensures Js(a + b) == Js(a) + Js(b)
  {
  }

  /** `s.startsWith(p)`, compared code unit by code unit. */
  function StartsWith(s: JsString, p: JsString): (r: bool)
    ensures r <==> |p| <= |s| && s[..|p|] == p
  {
    if p == [] then true
    else if s == [] then false
    else s[0] == p[0] && StartsWith(s[1..], p[1..])
  }

  /** `sub` occurs in `s` starting at index `i`. */
  ghost predicate OccursAt(s: JsString, sub: JsString, i: int) {
    0 <= i && i + |sub| <= |s| && s[i..i + |sub|] == sub
  }

  /** `sub` occurs as a contiguous block somewhere in `s`. */
  ghost predicate Occurs(s: JsString, sub: JsString) {
    exists i :: OccursAt(s, sub, i)
  }

  /** `s.includes(sub)`: try every start position from left to right. */
  function Includes(s: JsString, sub: JsString): bool
  {
    if StartsWith(s, sub) then true
    else if s == [] then false
    else Includes(s[1..], sub)
  }

  /** An occurrence in the tail is an occurrence in the whole, one position
      further right, and every occurrence past position 0 arises that way. */
  lemma OccursInTail(s: JsString, sub: JsString)
    requires s != []
    ensures Occurs(s[1..], sub) <==> exists i :: 1 <= i && OccursAt(s, sub, i)
  {
    if Occurs(s[1..], sub) {
      var j :| OccursAt(s[1..], sub, j);
      assert s[1..][j..j + |sub|] == s[j + 1..j + 1 + |sub|];
      assert OccursAt(s, sub, j + 1);
    }
    if exists i :: 1 <= i && OccursAt(s, sub, i) {
      var i :| 1 <= i && OccursAt(s, sub, i);
      assert s[1..][i - 1..i - 1 + |sub|] == s[i..i + |sub|];
      assert OccursAt(s[1..], sub, i - 1);
    }
  }

  /** `Includes` finds an occurrence exactly when one exists. */
  lemma {:induction false} IncludesIffOccurs(s: JsString, sub: JsString)
    ensures Includes(s, sub) <==> Occurs(s, sub)
    decreases |s|
  {
    if StartsWith(s, sub) {
      assert OccursAt(s, sub, 0);
    } else if s == [] {
      assert !OccursAt(s, sub, 0);
    } else {
      IncludesIffOccurs(s[1..], sub);
      OccursInTail(s, sub);
      assert !OccursAt(s, sub, 0);
    }
  }

  /** `sub` inside `t` stays found when text is added on either side. */
  lemma IncludesInConcat(a: JsString, t: JsString, b: JsString, sub: JsString)
    requires Includes(t, sub)
    ensures Includes(a + t + b, sub)
  {
    IncludesIffOccurs(t, sub);
    var i :| OccursAt(t, sub, i);
    var w := a + t + b;
    assert w[|a| + i..|a| + i + |sub|] == t[i..i + |sub|];
    assert OccursAt(w, sub, |a| + i);
    IncludesIffOccurs(w, sub);
  }

  predicate IsAsciiUpper(u: CodeUnit) {
    0x41 <= u <= 0x5A
  }

  /** ASCII lowering of one code unit; every other unit is left alone. */
  function LowerUnit(u: CodeUnit): CodeUnit {
    if IsAsciiUpper(u) then u + 0x20 else u
  }

  /** `s.toLowerCase()` restricted to ASCII letters. */
  function ToLowerAscii(s: JsString): (r: JsString)
    ensures |r| == |s|
  {
    seq(|s|, i requires 0 <= i < |s| => LowerUnit(s[i]))
  }

  /** Lowering leaves no upper-case letter behind, and a unit changes
      exactly when it was an upper-case letter. */
  lemma ToLowerAsciiPointwise(s: JsString)
    ensures forall i | 0 <= i < |s| ::
      && !IsAsciiUpper(ToLowerAscii(s)[i])
      && (ToLowerAscii(s)[i] != s[i] <==> IsAsciiUpper(s[i]))
  {
  }

  /** Lowering twice is lowering once. */
  lemma ToLowerAsciiIdempotent(s: JsString)
    ensures ToLowerAscii(ToLowerAscii(s)) == ToLowerAscii(s)
  {
  }

  /** `xs.join(sep)`. */
  function Join(xs: seq<JsString>, sep: JsString): JsString
  {
    if xs == [] then []
    else if |xs| == 1 then xs[0]
    else xs[0] + sep + Join(xs[1..], sep)
  }

  /** Every joined item appears in the joined string. */
  lemma {:induction false} JoinIncludesEach(xs: seq<JsString>, sep: JsString)
    ensures forall k | k in xs :: Includes(Join(xs, sep), k)
  {
    if |xs| == 0 {
    } else if |xs| == 1 {
      IncludesInConcat([], xs[0], [], xs[0]);
      assert [] + xs[0] + [] == xs[0];
    } else {
      JoinIncludesEach(xs[1..], sep);
      var rest := Join(xs[1..], sep);
      forall k | k in xs
        ensures Includes(Join(xs, sep), k)
      {
        if k == xs[0] {
          IncludesInConcat([], xs[0], sep + rest, k);
          assert [] + xs[0] + (sep + rest) == Join(xs, sep);
        } else {
          assert k in xs[1..];
          IncludesInConcat(xs[0] + sep, rest, [], k);
          assert xs[0] + sep + rest + [] == Join(xs, sep);
        }
      }
    }
  }

  predicate IsDigit(u: CodeUnit) {
    0x30 <= u <= 0x39
  }

  /** The decimal text JavaScript produces for a non-negative integer in a
      template literal: no sign, no leading zero. */
  function DecimalString(n: nat): (r: JsString)
    ensures 1 <= |r|
    ensures forall i | 0 <= i < |r| :: IsDigit(r[i])
    ensures r[0] == 0x30 ==> n == 0
  {
    if n < 10 then [(0x30 + n) as CodeUnit]
    else DecimalString(n / 10) + [(0x30 + n % 10) as CodeUnit]
  }

  /** The number a string of decimal digits denotes. */
  function DecimalValue(s: JsString): nat
    requires forall i | 0 <= i < |s| :: IsDigit(s[i])
  {
    if s == [] then 0
    else
      var last := s[|s| - 1];
      assert IsDigit(last);
      DecimalValue(s[..|s| - 1]) * 10 + (last as int - 0x30)
  }

  /** Reading back the decimal text of `n` gives `n`. */
  lemma {:induction false} DecimalRoundTrip(n: nat)
    ensures DecimalValue(DecimalString(n)) == n
  {
    if n >= 10 {
      DecimalRoundTrip(n / 10);
      var s := DecimalString(n);
      assert s[..|s| - 1] == DecimalString(n / 10);
    }
  }
}
