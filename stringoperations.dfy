/*
 * The string helpers of the validator and the interpreter (stringoperations.c).
 * A C string is modelled by its characters without the terminating NUL, so
 * `strlen` is the length of the sequence; character classes follow the C locale.
 */
module StringOperations {

  /** `iscntrl` in the C locale: codes 0..31 and 127. */
  predicate IsCntrl(c: char) { c as int < 32 || c as int == 127 }

  /** `isprint` in the C locale: codes 32..126. */
  predicate IsPrint(c: char) { 32 <= c as int <= 126 }

  /** `isspace` in the C locale: space, and codes 9..13 (\t \n \v \f \r). */
  predicate IsSpace(c: char) { c == ' ' || 9 <= c as int <= 13 }

  /** The range stringUpperCase tests: codes 97..122, 'a'..'z'. */
  predicate IsLower(c: char) { 97 <= c as int <= 122 }

  /** One step of stringUpperCase: a lower-case letter loses 32, anything else is kept. */
  function UpperChar(c: char): char
  {
    if IsLower(c) then (c as int - 32) as char else c
  }

  /** The string stringUpperCase leaves behind, character by character. */
  function Upper(s: string): string
  {
    if s == [] then [] else [UpperChar(s[0])] + Upper(s[1..])
  }

  /** A character stringIsCtrl counts: a control character or a space. */
  predicate IsBlankChar(c: char) { IsCntrl(c) || c == ' ' }

  /** Every character is a control character or a space. */
  predicate AllCtrl(s: string)
  {
    forall i :: 0 <= i < |s| ==> IsBlankChar(s[i])
  }

  /** How many characters of s stringIsCtrl counts. */
  function CtrlCount(s: string): nat
  {
    if s == [] then 0 else (if IsBlankChar(s[|s| - 1]) then 1 else 0) + CtrlCount(s[..|s| - 1])
  }

  lemma {:induction false} CtrlCountBounds(s: string)
    ensures CtrlCount(s) <= |s|
    ensures CtrlCount(s) == |s| <==> AllCtrl(s)
  {
    if s != [] {
      var p := s[..|s| - 1];
      CtrlCountBounds(p);
      assert forall i :: 0 <= i < |p| ==> p[i] == s[i];
      if AllCtrl(p) && IsBlankChar(s[|s| - 1]) {
        forall i | 0 <= i < |s| ensures IsBlankChar(s[i]) {
          if i < |p| { assert IsBlankChar(p[i]); }
        }
      }
      if AllCtrl(s) {
        forall i | 0 <= i < |p| ensures IsBlankChar(p[i]) { assert IsBlankChar(s[i]); }
      }
    }
  }

  lemma {:induction false} UpperLength(s: string)
    ensures |Upper(s)| == |s|
  {
    if s != [] { UpperLength(s[1..]); }
  }

  /** stringUpperCase maps position i to UpperChar of what was there: lower-case
      letters become upper-case, every other character and the length stay. */
  lemma {:induction false} UpperAt(s: string, i: int)
    requires 0 <= i < |s|
    ensures |Upper(s)| == |s|
    ensures Upper(s)[i] == UpperChar(s[i])
    ensures IsLower(s[i]) ==> Upper(s)[i] as int == s[i] as int - 32
    ensures !IsLower(s[i]) ==> Upper(s)[i] == s[i]
  {
    UpperLength(s);
    if i > 0 { UpperAt(s[1..], i - 1); }
  }

  /** Afterwards no character in 'a'..'z' remains. */
  lemma UpperHasNoLower(s: string)
    ensures forall i :: 0 <= i < |Upper(s)| ==> !IsLower(Upper(s)[i])
  {
    UpperLength(s);
    forall i | 0 <= i < |Upper(s)| ensures !IsLower(Upper(s)[i]) { UpperAt(s, i); }
  }

  /** A string with no lower-case letter is left as it is. */
  lemma {:induction false} UpperOfUpper(s: string)
    requires forall i :: 0 <= i < |s| ==> !IsLower(s[i])
    ensures Upper(s) == s
  {
    if s != [] { UpperOfUpper(s[1..]); }
  }

  /** Upper-casing twice is upper-casing once. */
  lemma UpperIdempotent(s: string)
    ensures Upper(Upper(s)) == Upper(s)
  {
    UpperHasNoLower(s);
    UpperOfUpper(Upper(s));
  }

  lemma {:induction false} UpperAppend(a: string, b: string)
    ensures Upper(a + b) == Upper(a) + Upper(b)
  {
    if a == [] {
      assert a + b == b;
    } else {
      assert (a + b)[0] == a[0] && (a + b)[1..] == a[1..] + b;
      UpperAppend(a[1..], b);
    }
  }

  /** stringUpperCase: rewrites the character array in place, upper-casing it. */
  method StringUpperCase(str: array<char>)
    modifies str
    ensures str[..] == Upper(old(str[..]))
  {
    ghost var s := str[..];
    var length := str.Length;
    var ii := 0;
    while ii < length
      invariant 0 <= ii <= length
      invariant forall k :: 0 <= k < ii ==> str[k] == UpperChar(s[k])
      invariant forall k :: ii <= k < length ==> str[k] == s[k]
    {
      if 97 <= str[ii] as int <= 122 {
        str[ii] := (str[ii] as int - 32) as char;
      }
      ii := ii + 1;
    }
    UpperLength(s);
    forall k | 0 <= k < length ensures str[k] == Upper(s)[k] { UpperAt(s, k); }
  }

  /** Copies a token into a fresh buffer and upper-cases it there, as the callers
      of stringUpperCase do with their own copy of the text. */
  method UpperCaseCopy(s: string) returns (u: string)
    ensures u == Upper(s)
  {
    var buf := new char[|s|](i requires 0 <= i < |s| => s[i]);
    assert buf[..] == s;
    StringUpperCase(buf);
    u := buf[..];
  }

  /** stringIsCtrl: -1 when every character is a control character or a space
      (so also for the empty string), otherwise 0; the string is only read. */
  method StringIsCtrl(str: string) returns (isCtrl: int)
    ensures isCtrl == -1 <==> AllCtrl(str)
    ensures isCtrl == 0 <==> !AllCtrl(str)
  {
    isCtrl := 0;
    var ctrlCount := 0;
    var length := |str|;
    var ii := 0;
    while ii < length
      invariant 0 <= ii <= length
      invariant ctrlCount == CtrlCount(str[..ii])
    {
      assert str[..ii + 1][..ii] == str[..ii];
      if IsCntrl(str[ii]) || str[ii] == ' ' {
        ctrlCount := ctrlCount + 1;
      }
      ii := ii + 1;
    }
    assert str[..length] == str;
    CtrlCountBounds(str);
    if ctrlCount == length {
      isCtrl := -1;
    }
  }
}
