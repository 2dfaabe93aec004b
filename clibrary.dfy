/*
 * The C library routines the validator and the interpreter lean on, restricted
 * to what they are used for: strtok(s, " ") as the sequence of tokens it hands
 * out, and strtod/strtol (with atof/atoi) on a plain decimal grammar: leading
 * isspace characters, an optional sign, digits and, for strtod, one optional
 * fraction. The conversions report how many characters they consumed, which is
 * what the end pointer of strtod/strtol tells the caller.
 */
module CLibrary {
  import opened StringOperations

  /** No space character in w. */
  predicate NoSpace(w: string)
  {
    forall i :: 0 <= i < |w| ==> w[i] != ' '
  }

  /** Length of the token at the start of s: the run of non-space characters. */
  function WordLength(s: string): (n: nat)
    ensures n <= |s|
    ensures forall i :: 0 <= i < n ==> s[i] != ' '
    ensures n < |s| ==> s[n] == ' '
  {
    if s == [] || s[0] == ' ' then 0 else 1 + WordLength(s[1..])
  }

  /** The tokens successive calls of strtok(s, " ") return, in order: maximal runs
      of non-space characters; consecutive, leading and trailing spaces yield no
      empty token. */
  function Tokens(s: string): (r: seq<string>)
    ensures forall k :: 0 <= k < |r| ==> |r[k]| > 0 && NoSpace(r[k])
    decreases |s|
  {
    if s == [] then []
    else if s[0] == ' ' then Tokens(s[1..])
    else
      var n := WordLength(s);
      [s[..n]] + Tokens(s[n..])
  }

  lemma WordLengthIs(s: string, n: nat)
    requires n <= |s|
    requires forall i :: 0 <= i < n ==> s[i] != ' '
    requires n < |s| ==> s[n] == ' '
    ensures WordLength(s) == n
  {
  }

  /** A token followed by the end or a space is handed out whole. */
  lemma TokensOfWord(w: string, rest: string)
    requires |w| > 0 && NoSpace(w)
    requires rest == [] || rest[0] == ' '
    ensures Tokens(w + rest) == [w] + Tokens(rest)
  {
    var s := w + rest;
    assert s[0] == w[0];
    forall i | 0 <= i < |w| ensures s[i] != ' ' { assert s[i] == w[i]; }
    WordLengthIs(s, |w|);
    assert s[..|w|] == w && s[|w|..] == rest;
  }

  /** strtok splits at every space: the tokens of a + " " + b are those of a followed
      by those of b. */
  lemma {:induction false} TokensJoin(a: string, b: string)
    ensures Tokens(a + " " + b) == Tokens(a) + Tokens(b)
    decreases |a|
  {
    var s := a + " " + b;
    if a == [] {
      assert s[1..] == b;
    } else if a[0] == ' ' {
      assert s[0] == ' ' && s[1..] == a[1..] + " " + b;
      TokensJoin(a[1..], b);
    } else {
      var n := WordLength(a);
      forall t | 0 <= t < n ensures s[t] != ' ' { assert s[t] == a[t]; }
      assert s[n] == ' ' by { if n < |a| { assert s[n] == a[n]; } }
      WordLengthIs(s, n);
      assert s[..n] == a[..n];
      assert s[n..] == a[n..] + " " + b;
      TokensJoin(a[n..], b);
    }
  }

  /** A line with a non-space character has at least one token, so strtok's first
      call does not return NULL. */
  lemma {:induction false} TokensNotEmpty(s: string, i: int)
    requires 0 <= i < |s| && s[i] != ' '
    ensures Tokens(s) != []
    decreases |s|
  {
    if s[0] == ' ' {
      TokensNotEmpty(s[1..], i - 1);
    }
  }

  predicate IsDigit(c: char) { '0' <= c <= '9' }

  function DigitValue(c: char): nat
    requires IsDigit(c)
  {
    c as int - '0' as int
  }

  predicate AllDigits(s: string)
  {
    forall i :: 0 <= i < |s| ==> IsDigit(s[i])
  }

  predicate AllSpace(s: string)
  {
    forall i :: 0 <= i < |s| ==> IsSpace(s[i])
  }

  /** Length of the run of decimal digits at the start of s. */
  function DigitRun(s: string): (n: nat)
    ensures n <= |s|
  {
    if s != [] && IsDigit(s[0]) then 1 + DigitRun(s[1..]) else 0
  }
  lemma {:induction false} DigitRunSpec(s: string)
    ensures forall i :: 0 <= i < DigitRun(s) ==> IsDigit(s[i])
    ensures DigitRun(s) < |s| ==> !IsDigit(s[DigitRun(s)])
    decreases |s|
  {
    if s != [] && IsDigit(s[0]) {
      DigitRunSpec(s[1..]);
    }
  }


  /** Length of the run of isspace characters at the start of s. */
  function SpaceRun(s: string): (n: nat)
    ensures n <= |s|
  {
    if s != [] && IsSpace(s[0]) then 1 + SpaceRun(s[1..]) else 0
  }
  lemma {:induction false} SpaceRunSpec(s: string)
    ensures forall i :: 0 <= i < SpaceRun(s) ==> IsSpace(s[i])
    ensures SpaceRun(s) < |s| ==> !IsSpace(s[SpaceRun(s)])
    decreases |s|
  {
    if s != [] && IsSpace(s[0]) {
      SpaceRunSpec(s[1..]);
    }
  }


  /** 1 when s starts with a sign character. */
  function SignLength(s: string): (n: nat)
    ensures n <= |s|
  {
    if |s| > 0 && (s[0] == '+' || s[0] == '-') then 1 else 0
  }

  /** The number a string of decimal digits denotes (a non-digit counts as 0). */
  function DigitsValue(d: string): nat
  {
    if d == [] then 0 else 10 * DigitsValue(d[..|d| - 1]) + (if IsDigit(d[|d| - 1]) then DigitValue(d[|d| - 1]) else 0)
  }

  function Pow10(n: nat): (p: nat)
    ensures p >= 1
  {
    if n == 0 then 1 else 10 * Pow10(n - 1)
  }

  /** How the decimal grammar divides the start of a string: leading whitespace,
      sign, whole digits, whether a '.' follows them, and the fraction digits. */
  datatype NumberLayout = NumberLayout(space: nat, sign: nat, whole: nat, dot: bool, frac: nat)

  function Layout(s: string): (L: NumberLayout)
    ensures L.space + L.sign + L.whole + (if L.dot then 1 + L.frac else 0) <= |s|
    ensures !L.dot ==> L.frac == 0
  {
    var w := SpaceRun(s);
    var sg := SignLength(s[w..]);
    var d1 := DigitRun(s[w + sg..]);
    var dot := w + sg + d1 < |s| && s[w + sg + d1] == '.';
    var d2 := if dot then DigitRun(s[w + sg + d1 + 1..]) else 0;
    NumberLayout(w, sg, d1, dot, d2)
  }

  /** How many characters strtod converts: 0 when no digit is found (the end
      pointer is then the string itself). */
  function StrtodLength(s: string): (n: nat)
    ensures n <= |s|
  {
    var L := Layout(s);
    if L.whole + L.frac == 0 then 0
    else L.space + L.sign + L.whole + (if L.dot then 1 + L.frac else 0)
  }

  /** What strtod reports: characters consumed and the value. */
  datatype RealConversion = RealConversion(consumed: nat, value: real)

  /** What strtol reports, in base 10. */
  datatype IntConversion = IntConversion(consumed: nat, value: int)

  /** strtod on the decimal grammar. */
  function Strtod(s: string): RealConversion
  {
    var L := Layout(s);
    var i := L.space + L.sign;
    var whole := DigitsValue(s[i..i + L.whole]) as real;
    var frac := if L.dot then DigitsValue(s[i + L.whole + 1..i + L.whole + 1 + L.frac]) as real / Pow10(L.frac) as real else 0.0;
    var negative := L.sign == 1 && s[L.space] == '-';
    RealConversion(StrtodLength(s), if StrtodLength(s) == 0 then 0.0 else if negative then -(whole + frac) else whole + frac)
  }

  /** How many characters strtol(s, &end, 10) converts. */
  function StrtolLength(s: string): (n: nat)
    ensures n <= |s|
  {
    var L := Layout(s);
    if L.whole == 0 then 0 else L.space + L.sign + L.whole
  }

  /** strtol(s, &end, 10) on the decimal grammar. */
  function Strtol(s: string): IntConversion
  {
    var L := Layout(s);
    var i := L.space + L.sign;
    var magnitude: int := DigitsValue(s[i..i + L.whole]);
    var negative := L.sign == 1 && s[L.space] == '-';
    IntConversion(StrtolLength(s), if StrtolLength(s) == 0 then 0 else if negative then -magnitude else magnitude)
  }

  /** atof(s), which is strtod(s, NULL). */
  function Atof(s: string): real { Strtod(s).value }

  /** atoi(s), the value strtol converts. */
  function Atoi(s: string): int { Strtol(s).value }

  /** The text after an optional sign. */
  function Unsigned(l: string): string
  {
    l[SignLength(l)..]
  }

  /** An integer literal: an optional sign and at least one digit. */
  predicate IsIntLiteral(l: string)
  {
    |Unsigned(l)| > 0 && AllDigits(Unsigned(l))
  }

  /** A real literal: an optional sign, a run of digits, then optionally a '.' and
      a second run of digits, with at least one digit in all ("5", "-0.5", "5.", ".5"). */
  predicate IsRealLiteral(l: string)
  {
    var b := Unsigned(l);
    var k := DigitRun(b);
    (k == |b| && k > 0)
    || (k < |b| && b[k] == '.' && |b| >= 2 && AllDigits(b[k + 1..]))
  }

  lemma {:induction false} DigitRunIs(s: string, n: nat)
    requires n <= |s|
    requires forall i :: 0 <= i < n ==> IsDigit(s[i])
    requires n < |s| ==> !IsDigit(s[n])
    ensures DigitRun(s) == n
    decreases n
  {
    if n > 0 {
      var t := s[1..];
      forall i | 0 <= i < n - 1 ensures IsDigit(t[i]) { assert t[i] == s[i + 1]; }
      if n < |s| { assert t[n - 1] == s[n]; }
      DigitRunIs(t, n - 1);
    }
  }

  lemma {:induction false} SpaceRunIs(s: string, n: nat)
    requires n <= |s|
    requires forall i :: 0 <= i < n ==> IsSpace(s[i])
    requires n < |s| ==> !IsSpace(s[n])
    ensures SpaceRun(s) == n
    decreases n
  {
    if n > 0 {
      var t := s[1..];
      forall i | 0 <= i < n - 1 ensures IsSpace(t[i]) { assert t[i] == s[i + 1]; }
      if n < |s| { assert t[n - 1] == s[n]; }
      SpaceRunIs(t, n - 1);
    }
  }

  /** The digit run starting at p of s ends at j when s[p..j] is all digits and
      s[j] is not one. */
  lemma DigitRunFrom(s: string, p: nat, j: nat)
    requires p <= j <= |s|
    requires AllDigits(s[p..j])
    requires j < |s| ==> !IsDigit(s[j])
    ensures DigitRun(s[p..]) == j - p
  {
    forall t | 0 <= t < j - p ensures IsDigit(s[p..][t]) {
      assert s[p..][t] == s[p..j][t];
    }
    DigitRunIs(s[p..], j - p);
  }

  /** A digit run found by the scanner is all digits. */
  lemma DigitRunAll(s: string, p: nat)
    requires p <= |s|
    ensures p + DigitRun(s[p..]) <= |s|
    ensures AllDigits(s[p..p + DigitRun(s[p..])])
  {
    var n := DigitRun(s[p..]);
    DigitRunSpec(s[p..]);
    var q := s[p..p + n];
    forall t | 0 <= t < n ensures IsDigit(q[t]) {
      assert q[t] == s[p..][t];
    }
  }

  /** The number starts where the whitespace prefix ends, when the character there
      is not a space. */
  lemma SpaceThen(s: string, i: nat)
    requires i < |s| && AllSpace(s[..i]) && !IsSpace(s[i])
    ensures SpaceRun(s) == i
  {
    forall t | 0 <= t < i ensures IsSpace(s[t]) { assert s[t] == s[..i][t]; }
    SpaceRunIs(s, i);
  }

  /** What strtod consumes is whitespace followed by a real literal. */
  lemma StrtodSound(s: string)
    requires StrtodLength(s) > 0
    ensures AllSpace(s[..Layout(s).space])
    ensures IsRealLiteral(s[Layout(s).space..StrtodLength(s)])
  {
    var L := Layout(s);
    var w := L.space;
    SpaceRunSpec(s);
    forall t | 0 <= t < w ensures IsSpace(s[..w][t]) { assert s[..w][t] == s[t]; }
    LayoutFacts(s);
    SoundParts(s, w, L.sign, L.whole, L.dot, L.frac, StrtodLength(s));
  }

  /** What the scanner's division of s says about the characters of s. */
  lemma LayoutFacts(s: string)
    ensures var L := Layout(s); var i := L.space + L.sign;
      SignLength(s[L.space..]) == L.sign
      && AllDigits(s[i..i + L.whole])
      && (L.dot ==> s[i + L.whole] == '.' && AllDigits(s[i + L.whole + 1..i + L.whole + 1 + L.frac]))
  {
    var L := Layout(s);
    var i := L.space + L.sign;
    DigitRunAll(s, i);
    if L.dot {
      DigitRunAll(s, i + L.whole + 1);
    }
  }

  /** A whitespace-free stretch s[w..n] made of a sign, a digit run, and
      possibly a '.' and a second digit run, with a digit somewhere, is a real
      literal. */
  lemma SoundParts(s: string, w: nat, sg: nat, d1: nat, dot: bool, frac: nat, n: nat)
    requires n == w + sg + d1 + (if dot then 1 + frac else 0) && n <= |s| && d1 + frac > 0
    requires w <= |s| && SignLength(s[w..]) == sg
    requires AllDigits(s[w + sg..w + sg + d1])
    requires dot ==> s[w + sg + d1] == '.' && AllDigits(s[w + sg + d1 + 1..n])
    requires !dot ==> frac == 0
    ensures IsRealLiteral(s[w..n])
  {
    var i := w + sg;
    var l := s[w..n];
    assert l[0] == s[w] && s[w..][0] == s[w];
    var b := s[i..n];
    assert Unsigned(l) == b && |b| == n - i;
    forall t | 0 <= t < d1 ensures IsDigit(b[..d1][t]) {
      assert b[..d1][t] == s[i..i + d1][t];
    }
    if dot {
      assert b[d1] == s[i + d1];
      assert b[d1 + 1..] == s[i + d1 + 1..n];
    }
    UnsignedLiteral(b, d1, dot);
  }

  /** The part of a real literal after its sign, from its digit run and its '.'. */
  lemma UnsignedLiteral(b: string, k: nat, dot: bool)
    requires k <= |b| && AllDigits(b[..k])
    requires dot ==> k < |b| && b[k] == '.' && |b| >= 2 && AllDigits(b[k + 1..])
    requires !dot ==> k == |b| && k > 0
    ensures DigitRun(b) == k
    ensures (k == |b| && k > 0) || (k < |b| && b[k] == '.' && |b| >= 2 && AllDigits(b[k + 1..]))
  {
    forall t | 0 <= t < k ensures IsDigit(b[t]) { assert b[t] == b[..k][t]; }
    DigitRunIs(b, k);
  }

  /** Where the literal at s[i..j] puts its sign, digits and '.' within s. */
  lemma LiteralParts(s: string, i: nat, j: nat) returns (sg: nat, k: nat)
    requires i <= j <= |s|
    requires IsRealLiteral(s[i..j])
    ensures i < j && sg == SignLength(s[i..]) && i + sg + k <= j
    ensures AllDigits(s[i + sg..i + sg + k])
    ensures i + sg + k < j ==> s[i + sg + k] == '.' && AllDigits(s[i + sg + k + 1..j]) && j - (i + sg) >= 2
    ensures i + sg + k == j ==> k > 0
  {
    var l := s[i..j];
    assert |l| > 0 && l[0] == s[i] && s[i..][0] == s[i];
    sg := SignLength(l);
    var b := Unsigned(l);
    assert b == s[i + sg..j];
    k := DigitRun(b);
    BodyParts(b, k);
    PartsWithin(s, i + sg, j, b, k);
  }

  /** The unsigned part of a real literal: digits up to k, then '.' and digits. */
  lemma BodyParts(b: string, k: nat)
    requires k == DigitRun(b)
    requires (k == |b| && k > 0) || (k < |b| && b[k] == '.' && |b| >= 2 && AllDigits(b[k + 1..]))
    ensures AllDigits(b[..k])
  {
    DigitRunSpec(b);
    var q := b[..k];
    forall t | 0 <= t < k ensures IsDigit(q[t]) {
      assert q[t] == b[t];
    }
  }

  /** The parts of b == s[p..j] found at the corresponding places of s. */
  lemma PartsWithin(s: string, p: nat, j: nat, b: string, k: nat)
    requires p <= j <= |s| && b == s[p..j] && k <= |b|
    requires AllDigits(b[..k])
    requires (k == |b| && k > 0) || (k < |b| && b[k] == '.' && |b| >= 2 && AllDigits(b[k + 1..]))
    ensures AllDigits(s[p..p + k])
    ensures p + k < j ==> s[p + k] == '.' && AllDigits(s[p + k + 1..j]) && j - p >= 2
    ensures p + k == j ==> k > 0
  {
    assert b[..k] == s[p..p + k];
    if k < |b| {
      assert s[p + k] == b[k];
      assert b[k + 1..] == s[p + k + 1..j];
    }
  }

  /** strtod consumes exactly the whitespace and the literal when what follows the
      literal can neither continue its digits nor start a fraction. */
  lemma StrtodComplete(s: string, i: nat, j: nat)
    requires i <= j <= |s|
    requires AllSpace(s[..i]) && IsRealLiteral(s[i..j])
    requires j < |s| ==> !IsDigit(s[j]) && s[j] != '.'
    ensures StrtodLength(s) == j
  {
    var sg, k := LiteralRuns(s, i, j);
    SpaceThen(s, i);
    var dot := i + sg + k < j;
    LayoutIs(s, i, sg, k, dot, if dot then j - (i + sg + k + 1) else 0);
  }

  /** The literal at s[i..j] as the scanner sees it: a sign, a digit run of
      length k, and the '.' and second run when the literal has them. */
  lemma LiteralRuns(s: string, i: nat, j: nat) returns (sg: nat, k: nat)
    requires i <= j <= |s| && IsRealLiteral(s[i..j])
    requires j < |s| ==> !IsDigit(s[j]) && s[j] != '.'
    ensures i < j && sg == SignLength(s[i..]) && i + sg + k <= j
    ensures DigitRun(s[i + sg..]) == k
    ensures (i + sg + k < |s| && s[i + sg + k] == '.') <==> i + sg + k < j
    ensures i + sg + k < j ==> DigitRun(s[i + sg + k + 1..]) == j - (i + sg + k + 1) && j - (i + sg) >= 2
    ensures i + sg + k == j ==> k > 0
  {
    sg, k := LiteralParts(s, i, j);
    PartsRuns(s, i + sg, k, j);
  }

  /** The digit runs the scanner finds around the '.' of a literal at s[p..j]. */
  lemma PartsRuns(s: string, p: nat, k: nat, j: nat)
    requires p + k <= j <= |s|
    requires AllDigits(s[p..p + k])
    requires p + k < j ==> s[p + k] == '.' && AllDigits(s[p + k + 1..j])
    requires j < |s| ==> !IsDigit(s[j]) && s[j] != '.'
    ensures DigitRun(s[p..]) == k
    ensures (p + k < |s| && s[p + k] == '.') <==> p + k < j
    ensures p + k < j ==> DigitRun(s[p + k + 1..]) == j - (p + k + 1)
  {
    assert p + k < |s| ==> !IsDigit(s[p + k]) by {
      if p + k < j { assert s[p + k] == '.'; }
    }
    DigitRunFrom(s, p, p + k);
    if p + k < j {
      DigitRunFrom(s, p + k + 1, j);
    }
  }

  /** Layout from the scanner's four steps. */
  lemma LayoutIs(s: string, w: nat, sg: nat, d1: nat, dot: bool, frac: nat)
    requires w + sg <= |s| && SpaceRun(s) == w && SignLength(s[w..]) == sg && DigitRun(s[w + sg..]) == d1
    requires dot <==> w + sg + d1 < |s| && s[w + sg + d1] == '.'
    requires dot ==> DigitRun(s[w + sg + d1 + 1..]) == frac
    requires !dot ==> frac == 0
    ensures Layout(s) == NumberLayout(w, sg, d1, dot, frac)
  {
  }

  /** What strtol consumes is whitespace followed by an integer literal. */
  lemma StrtolSound(s: string)
    requires StrtolLength(s) > 0
    ensures AllSpace(s[..Layout(s).space])
    ensures IsIntLiteral(s[Layout(s).space..StrtolLength(s)])
  {
    var L := Layout(s);
    var w, sg, d := L.space, L.sign, L.whole;
    var n := StrtolLength(s);
    SpaceRunSpec(s);
    forall t | 0 <= t < w ensures IsSpace(s[..w][t]) { assert s[..w][t] == s[t]; }
    var l := s[w..n];
    assert l[0] == s[w];
    assert SignLength(l) == sg;
    DigitRunAll(s, w + sg);
    assert Unsigned(l) == s[w + sg..w + sg + d];
  }

  /** strtol consumes exactly the whitespace and the literal when a non-digit
      follows it. */
  lemma StrtolComplete(s: string, i: nat, j: nat)
    requires i <= j <= |s|
    requires AllSpace(s[..i]) && IsIntLiteral(s[i..j])
    requires j < |s| ==> !IsDigit(s[j])
    ensures StrtolLength(s) == j
  {
    var l := s[i..j];
    assert l[0] == s[i];
    SpaceThen(s, i);
    var sg := SignLength(s[i..]);
    assert sg == SignLength(l);
    assert Unsigned(l) == s[i + sg..j];
    DigitRunFrom(s, i + sg, j);
  }

  /** Leading zeros do not change the value of a digit string. */
  lemma {:induction false} LeadingZeros(z: string, d: string)
    requires forall i :: 0 <= i < |z| ==> z[i] == '0'
    ensures DigitsValue(z + d) == DigitsValue(d)
    decreases |d|
  {
    if d == [] {
      assert z + d == z;
      ZerosValue(z);
    } else {
      assert (z + d)[..|z + d| - 1] == z + d[..|d| - 1];
      LeadingZeros(z, d[..|d| - 1]);
    }
  }

  lemma {:induction false} ZerosValue(z: string)
    requires forall i :: 0 <= i < |z| ==> z[i] == '0'
    ensures AllDigits(z) && DigitsValue(z) == 0
  {
    if z != [] { ZerosValue(z[..|z| - 1]); }
  }

  /** How the scanner divides a digit string followed by the end or a newline,
      after `sign` sign characters. */
  lemma DigitsLayout(s: string, sign: nat, d: string)
    requires sign <= 1 && |d| > 0 && AllDigits(d)
    requires |s| >= sign + |d| && s[sign..sign + |d|] == d
    requires sign == 1 ==> s[0] == '-'
    requires sign == 0 ==> IsDigit(s[0])
    requires |s| == sign + |d| || s[sign + |d|] == '\n'
    ensures Layout(s) == NumberLayout(0, sign, |d|, false, 0)
  {
    assert s[..0] == [];
    assert s[0] == s[sign..sign + |d|][0] || sign == 1;
    SpaceThen(s, 0);
    assert s[0..] == s;
    DigitRunFrom(s, sign, sign + |d|);
  }

  /** strtod and strtol on an unsigned digit string followed by the end or a newline. */
  lemma ConvertDigits(d: string, r: string)
    requires |d| > 0 && AllDigits(d)
    requires r == [] || r[0] == '\n'
    ensures Strtod(d + r) == RealConversion(|d|, DigitsValue(d) as real)
    ensures Strtol(d + r) == IntConversion(|d|, DigitsValue(d))
  {
    var s := d + r;
    assert s[0..|d|] == d;
    assert s[0] == d[0];
    DigitsLayout(s, 0, d);
  }

  /** The same with a leading minus sign. */
  lemma ConvertNegativeDigits(d: string, r: string)
    requires |d| > 0 && AllDigits(d)
    requires r == [] || r[0] == '\n'
    ensures Strtod("-" + d + r) == RealConversion(|d| + 1, -(DigitsValue(d) as real))
    ensures Strtol("-" + d + r) == IntConversion(|d| + 1, -(DigitsValue(d) as int))
  {
    var s := "-" + d + r;
    assert s[1..1 + |d|] == d;
    DigitsLayout(s, 1, d);
  }
}
