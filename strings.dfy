/** Character and string operations that the backend (Python) and the
    frontend (TypeScript) rely on: decimal rendering and parsing, zero
    padding, whitespace and character stripping, splitting and joining. */
module Strings {
  import opened Wrappers

  // ---------------------------------------------------------------------
  // Digits and decimal numbers

  predicate IsDigit(c: char) { '0' <= c <= '9' }

  predicate AllDigits(s: string) { forall i :: 0 <= i < |s| ==> IsDigit(s[i]) }

  function DigitValue(c: char): (d: nat)
    requires IsDigit(c)
    ensures d < 10
  {
    c as int - '0' as int
  }

  function DigitChar(d: nat): (c: char)
    requires d < 10
    ensures IsDigit(c) && DigitValue(c) == d
  {
    ('0' as int + d) as char
  }

  /** The shortest decimal rendering of n, as Python's str(n) and
      JavaScript's toString() produce it. */
  function NatToString(n: nat): (s: string)
    ensures 1 <= |s|
    ensures AllDigits(s)
    ensures n < 10 <==> |s| == 1
    ensures 0 < n ==> s[0] != '0'
    decreases n
  {
    if n < 10 then [DigitChar(n)] else NatToString(n / 10) + [DigitChar(n % 10)]
  }

  /** The value of a string of decimal digits; the empty string is 0, as
      JavaScript's Number("") is. */
  function ParseNat(s: string): nat
    requires AllDigits(s)
  {
    if s == [] then 0 else ParseNat(s[..|s| - 1]) * 10 + DigitValue(s[|s| - 1])
  }

  lemma {:induction false} ParseNatToString(n: nat)
    ensures ParseNat(NatToString(n)) == n
    decreases n
  {
    if n >= 10 {
      var s := NatToString(n);
      assert s[..|s| - 1] == NatToString(n / 10);
      ParseNatToString(n / 10);
    }
  }

  function Zeros(k: nat): (z: string)
    ensures |z| == k && forall i :: 0 <= i < k ==> z[i] == '0'
  {
    seq(k, _ => '0')
  }

  lemma {:induction false} ParseNatLeadingZeros(k: nat, d: string)
    requires AllDigits(d)
    ensures AllDigits(Zeros(k) + d) && ParseNat(Zeros(k) + d) == ParseNat(d)
    decreases |d|, k
  {
    var s := Zeros(k) + d;
    if d == [] {
      assert s == Zeros(k);
      if k > 0 {
        assert s[..|s| - 1] == Zeros(k - 1) + [];
        ParseNatLeadingZeros(k - 1, []);
      }
    } else {
      assert s[..|s| - 1] == Zeros(k) + d[..|d| - 1];
      ParseNatLeadingZeros(k, d[..|d| - 1]);
    }
  }

  /** Python's f"{n:0wd}" and JavaScript's n.toString().padStart(w, "0")
      for a non-negative n: left-padded with zeros to at least w digits,
      never truncated. */
  function ZeroPad(n: nat, width: nat): (s: string)
    ensures |s| == if |NatToString(n)| < width then width else |NatToString(n)|
    ensures AllDigits(s) && ParseNat(s) == n
  {
    var d := NatToString(n);
    var s := if |d| < width then Zeros(width - |d|) + d else d;
    ParseNatToString(n);
    ParseNatLeadingZeros(if |d| < width then width - |d| else 0, d);
    assert Zeros(0) + d == d;
    s
  }

  /** Python's f"{n:02d}" for any integer: a negative value keeps its sign
      and the width then counts the sign. */
  function FormatInt2(n: int): (s: string)
    ensures 0 <= n < 100 ==> |s| == 2 && AllDigits(s) && ParseNat(s) == n
    ensures n < 0 ==> 2 <= |s| && s[0] == '-'
  {
    if n < 0 then "-" + NatToString(-n) else ZeroPad(n, 2)
  }

  /** Two decimal digits read as a number and written back with padding to
      two places give the same two characters. */
  lemma TwoDigitsRoundTrip(s: string)
    requires |s| == 2 && AllDigits(s)
    ensures ZeroPad(ParseNat(s), 2) == s
  {
    var a, b := DigitValue(s[0]), DigitValue(s[1]);
    TwoDigitsValue(s);
    var n := a * 10 + b;
    assert DigitChar(a) == s[0] && DigitChar(b) == s[1];
    if a == 0 {
      assert NatToString(n) == [s[1]];
      assert Zeros(1) + [s[1]] == s;
    } else {
      DecimalSplit(a, b);
      assert NatToString(n) == NatToString(a) + [DigitChar(b)];
      assert NatToString(n) == [s[0]] + [s[1]] == s;
    }
  }

  lemma TwoDigitsValue(s: string)
    requires |s| == 2 && AllDigits(s)
    ensures ParseNat(s) == DigitValue(s[0]) * 10 + DigitValue(s[1])
  {
    assert s[..1][..0] == [] && s[..1][0] == s[0];
    assert ParseNat(s[..1]) == DigitValue(s[0]);
  }

  lemma DecimalSplit(a: nat, b: nat)
    requires b < 10
    ensures (a * 10 + b) / 10 == a && (a * 10 + b) % 10 == b
  {
  }

  // ---------------------------------------------------------------------
  // Whitespace, stripping and splitting

  /** Python's str.isspace() for one character: the characters that
      str.strip() and str.split() treat as whitespace. */
  predicate IsSpace(c: char)
  {
    || c == ' ' || '\t' <= c <= '\r' || '\U{1c}' <= c <= '\U{1f}'
    || c == '\U{85}' || c == '\U{a0}' || c == '\U{1680}'
    || '\U{2000}' <= c <= '\U{200a}' || c == '\U{2028}' || c == '\U{2029}'
    || c == '\U{202f}' || c == '\U{205f}' || c == '\U{3000}'
  }

  predicate IsAsciiAlnum(c: char) { 'a' <= c <= 'z' || 'A' <= c <= 'Z' || IsDigit(c) }

  /** A class of characters to strip: Python's whitespace, the characters
      of a given string, or everything outside [a-zA-Z0-9]. */
  datatype CharClass = Whitespace | OneOf(chars: string) | NotAlnum

  predicate In(c: char, cls: CharClass)
  {
    match cls
    case Whitespace => IsSpace(c)
    case OneOf(chars) => c in chars
    case NotAlnum => !IsAsciiAlnum(c)
  }

  /** Length of the run of characters of the class that starts s. */
  function LeadingRun(s: string, cls: CharClass): (n: nat)
    ensures n <= |s|
  {
    if s != [] && In(s[0], cls) then 1 + LeadingRun(s[1..], cls) else 0
  }

  /** Length of the run of characters of the class that ends s. */
  function TrailingRun(s: string, cls: CharClass): (n: nat)
    ensures n <= |s|
  {
    if s != [] && In(s[|s| - 1], cls) then 1 + TrailingRun(s[..|s| - 1], cls) else 0
  }

  function StripStart(s: string, cls: CharClass): string
  {
    s[LeadingRun(s, cls)..]
  }

  function StripEnd(s: string, cls: CharClass): string
  {
    s[..|s| - TrailingRun(s, cls)]
  }

  /** StripStart removes exactly the leading run of the class. */
  lemma {:induction false} StripStartRun(s: string, cls: CharClass)
    ensures var n := LeadingRun(s, cls);
      (n == |s| || !In(s[n], cls)) && forall i :: 0 <= i < n ==> In(s[i], cls)
    decreases |s|
  {
    if s != [] && In(s[0], cls) {
      StripStartRun(s[1..], cls);
      assert forall i :: 1 <= i < |s| ==> s[i] == s[1..][i - 1];
    }
  }

  /** StripEnd removes exactly the trailing run of the class. */
  lemma {:induction false} StripEndRun(s: string, cls: CharClass)
    ensures var n := |s| - TrailingRun(s, cls);
      (n == 0 || !In(s[n - 1], cls)) && forall i :: n <= i < |s| ==> In(s[i], cls)
    decreases |s|
  {
    if s != [] && In(s[|s| - 1], cls) {
      var init := s[..|s| - 1];
      StripEndRun(init, cls);
      var n := |s| - TrailingRun(s, cls);
      assert n == |init| - TrailingRun(init, cls);
      assert forall i :: 0 <= i < |init| ==> s[i] == init[i];
    }
  }

  /** Python's str.strip(chars): drops matching characters at both ends,
      one at a time. */
  function Strip(s: string, cls: CharClass): string
  {
    if s != [] && In(s[0], cls) then Strip(s[1..], cls)
    else if s != [] && In(s[|s| - 1], cls) then Strip(s[..|s| - 1], cls)
    else s
  }

  /** Strip keeps one infix of s: everything before it and after it is of
      the class, and the infix neither starts nor ends with the class. lo
      is where the infix starts. */
  lemma {:induction false} StripInfix(s: string, cls: CharClass) returns (lo: nat)
    ensures var r := Strip(s, cls);
            && lo + |r| <= |s| && r == s[lo..lo + |r|]
            && (forall i :: 0 <= i < lo ==> In(s[i], cls))
            && (forall i :: lo + |r| <= i < |s| ==> In(s[i], cls))
            && (r == [] || (!In(r[0], cls) && !In(r[|r| - 1], cls)))
    decreases |s|
  {
    var r := Strip(s, cls);
    if s != [] && In(s[0], cls) {
      var k := StripInfix(s[1..], cls);
      lo := k + 1;
      assert r == s[1..][k..k + |r|];
      assert forall i :: 1 <= i < |s| ==> s[i] == s[1..][i - 1];
    } else if s != [] && In(s[|s| - 1], cls) {
      var init := s[..|s| - 1];
      lo := StripInfix(init, cls);
      assert r == init[lo..lo + |r|];
      assert forall i :: 0 <= i < |init| ==> s[i] == init[i];
    } else {
      lo := 0;
      assert r == s;
    }
  }

  /** Python's str.strip() with no argument. */
  function Trim(s: string): string
  {
    Strip(s, Whitespace)
  }

  /** Strip leaves nothing exactly when every character is of the class. */
  lemma {:induction false} StripEmptyIffAll(s: string, cls: CharClass)
    ensures Strip(s, cls) == [] <==> forall i :: 0 <= i < |s| ==> In(s[i], cls)
    decreases |s|
  {
    if s != [] && In(s[0], cls) {
      StripEmptyIffAll(s[1..], cls);
      assert forall i :: 1 <= i < |s| ==> s[i] == s[1..][i - 1];
    } else if s != [] && In(s[|s| - 1], cls) {
      StripEmptyIffAll(s[..|s| - 1], cls);
      assert !In(s[0], cls) && s[0] == s[..|s| - 1][0];
    }
  }

  /** Length of the run of non-whitespace characters that starts s. */
  function WordLength(s: string): (n: nat)
    ensures n <= |s|
    ensures forall i :: 0 <= i < n ==> !IsSpace(s[i])
    ensures n == |s| || IsSpace(s[n])
  {
    if s == [] || IsSpace(s[0]) then 0 else 1 + WordLength(s[1..])
  }

  /** Python's str.split() with no argument: the maximal runs of
      non-whitespace characters, in order. */
  function Words(s: string): (ws: seq<string>)
    ensures forall k :: 0 <= k < |ws| ==> ws[k] != []
    ensures forall k :: 0 <= k < |ws| ==> forall c :: c in ws[k] ==> !IsSpace(c)
    decreases |s|
  {
    if s == [] then []
    else if IsSpace(s[0]) then Words(s[1..])
    else
      var n := WordLength(s);
      [s[..n]] + Words(s[n..])
  }

  /** The first word of a text is the whole run of non-whitespace that
      follows its leading whitespace, and the other words are those of what
      comes after that run. */
  lemma {:induction false} WordsAfterSpaces(s: string, i: nat)
    requires i < |s| && !IsSpace(s[i])
    requires forall j :: 0 <= j < i ==> IsSpace(s[j])
    ensures var n := WordLength(s[i..]);
      i + n <= |s| && Words(s) == [s[i..i + n]] + Words(s[i + n..])
    decreases i
  {
    if i > 0 {
      var t := s[1..];
      WordsAfterSpaces(t, i - 1);
      assert t[i - 1..] == s[i..];
      var n := WordLength(s[i..]);
      assert t[i - 1..i - 1 + n] == s[i..i + n];
      assert t[i - 1 + n..] == s[i + n..];
    }
  }

  /** A text has no words exactly when it is all whitespace. */
  lemma {:induction false} WordsEmptyIffAllSpace(s: string)
    ensures Words(s) == [] <==> forall i :: 0 <= i < |s| ==> IsSpace(s[i])
    decreases |s|
  {
    if s != [] && IsSpace(s[0]) {
      WordsEmptyIffAllSpace(s[1..]);
      assert forall i :: 1 <= i < |s| ==> s[i] == s[1..][i - 1];
    }
  }

  /** JavaScript's s.split(sep) for a one-character separator. */
  function SplitOn(s: string, sep: char): (parts: seq<string>)
    ensures 1 <= |parts|
    ensures forall k :: 0 <= k < |parts| ==> sep !in parts[k]
    decreases |s|
  {
    if s == [] then [[]]
    else
      var rest := SplitOn(s[1..], sep);
      if s[0] == sep then [[]] + rest else [[s[0]] + rest[0]] + rest[1..]
  }

  /** Python's sep.join(parts) and JavaScript's parts.join(sep). */
  function Join(parts: seq<string>, sep: string): string
  {
    if parts == [] then []
    else if |parts| == 1 then parts[0]
    else parts[0] + sep + Join(parts[1..], sep)
  }

  /** Splitting at a separator and joining back with it restores the text. */
  lemma {:induction false} JoinSplitOn(s: string, sep: char)
    ensures Join(SplitOn(s, sep), [sep]) == s
    decreases |s|
  {
    if s != [] {
      var rest := SplitOn(s[1..], sep);
      JoinSplitOn(s[1..], sep);
      if s[0] != sep && |rest| > 1 {
        assert [[s[0]] + rest[0]] + rest[1..] == [[s[0]] + rest[0]] + rest[1..][0..];
      }
    }
  }

  /** Text that holds a separator only between its fields splits into one
      part per field. */
  lemma {:induction false} SplitOnField(a: string, rest: string, sep: char)
    requires sep !in a
    ensures SplitOn(a + [sep] + rest, sep) == [a] + SplitOn(rest, sep)
    decreases |a|
  {
    if a != [] {
      var s := a + [sep] + rest;
      assert s[0] == a[0] != sep;
      assert s[1..] == a[1..] + [sep] + rest;
      SplitOnField(a[1..], rest, sep);
      var r := SplitOn(s[1..], sep);
      assert r[0] == a[1..] && r[1..] == SplitOn(rest, sep);
      assert [a[0]] + a[1..] == a;
    } else {
      assert [] + [sep] + rest == [sep] + rest;
      assert ([sep] + rest)[1..] == rest;
    }
  }

  lemma {:induction false} SplitOnWhole(a: string, sep: char)
    requires sep !in a
    ensures SplitOn(a, sep) == [a]
    decreases |a|
  {
    if a != [] {
      SplitOnWhole(a[1..], sep);
      assert [a[0]] + a[1..] == a;
    }
  }

  /** Joining fields that hold no separator and splitting again gives the
      fields back: the converse of JoinSplitOn. */
  lemma {:induction false} SplitOnJoin(parts: seq<string>, sep: char)
    requires parts != []
    requires forall k :: 0 <= k < |parts| ==> sep !in parts[k]
    ensures SplitOn(Join(parts, [sep]), sep) == parts
    decreases |parts|
  {
    if |parts| == 1 {
      SplitOnWhole(parts[0], sep);
    } else {
      SplitOnJoin(parts[1..], sep);
      SplitOnField(parts[0], Join(parts[1..], [sep]), sep);
      assert [parts[0]] + parts[1..] == parts;
    }
  }

  /** The index of the last occurrence of c in s, if any. */
  function LastIndexOf(s: string, c: char): (r: Option<nat>)
    ensures r.Some? ==> r.value < |s| && s[r.value] == c && c !in s[r.value + 1..]
    ensures r.None? <==> c !in s
  {
    if s == [] then None
    else if s[|s| - 1] == c then Some(|s| - 1)
    else LastIndexOf(s[..|s| - 1], c)
  }

  /** The last occurrence is unique: an index holding c with no c after it
      is the one LastIndexOf finds. */
  lemma LastIndexOfAt(s: string, c: char, i: nat)
    requires i < |s| && s[i] == c && c !in s[i + 1..]
    ensures LastIndexOf(s, c) == Some(i)
  {
    assert s[i] in s;
  }

  /** ASCII lower-casing of one character. */
  function LowerChar(c: char): char
  {
    if 'A' <= c <= 'Z' then (c as int + 32) as char else c
  }

  function Lower(s: string): (r: string)
    ensures |r| == |s| && forall i :: 0 <= i < |s| ==> r[i] == LowerChar(s[i])
  {
    seq(|s|, i requires 0 <= i < |s| => LowerChar(s[i]))
  }
}
