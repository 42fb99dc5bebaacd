/** Text as tokens and cursors use it: decimal numbers and separated fields. */
module Text {
  import opened Common

  // ---- Decimal numbers -------------------------------------------------------------------

  predicate IsDigit(c: char) {
    '0' <= c <= '9'
  }

  function DigitOf(n: nat): char
    requires n < 10
  {
    ('0' as int + n) as char
  }

  function Print(n: nat): string {
    if n < 10 then [DigitOf(n)] else Print(n / 10) + [DigitOf(n % 10)]
  }

  function DigitsValue(s: string): nat
    requires forall c :: c in s ==> IsDigit(c)
  {
    if s == [] then 0
    else
      assert IsDigit(s[|s| - 1]);
      DigitsValue(s[..|s| - 1]) * 10 + (s[|s| - 1] as int - '0' as int)
  }

  /** An unsigned 64-bit number in decimal, with an optional leading plus sign. */
  function ParseU64(s: string): Option<nat> {
    var digits := if s != [] && s[0] == '+' then s[1..] else s;
    if digits == [] || exists c :: c in digits && !IsDigit(c) then None
    else if DigitsValue(digits) > U64_MAX then None
    else Some(DigitsValue(digits))
  }

  lemma {:induction false} PrintIsDigits(n: nat)
    ensures Print(n) != []
    ensures forall c :: c in Print(n) ==> IsDigit(c)
    ensures DigitsValue(Print(n)) == n
  {
    if n >= 10 {
      PrintIsDigits(n / 10);
      assert Print(n)[..|Print(n)| - 1] == Print(n / 10);
    } else {
      assert Print(n)[..0] == [];
    }
  }

  /** Parsing a printed number gives it back. */
  lemma ParsePrinted(n: nat)
    requires n <= U64_MAX
    ensures ParseU64(Print(n)) == Some(n)
  {
    PrintIsDigits(n);
    assert Print(n)[0] in Print(n);
  }

  /** A nonempty run of decimal digits with this value. */
  ghost predicate IsNumeral(s: string, n: nat) {
    s != "" && (forall c :: c in s ==> '0' <= c <= '9') && DigitsValue(s) == n
  }

  /** Exactly the 64-bit numerals are read, with or without a plus sign in front. */
  lemma ParseU64Means(s: string, n: nat)
    ensures ParseU64(s) == Some(n) <==>
      n <= 18_446_744_073_709_551_615 && (IsNumeral(s, n) || (s != "" && s[0] == '+' && IsNumeral(s[1..], n)))
  {
    var digits := if s != [] && s[0] == '+' then s[1..] else s;
    assert s != "" && s[0] == '+' ==> !IsDigit(s[0]) && s[0] in s;
    if digits != [] && forall c :: c in digits ==> IsDigit(c) {
      assert IsNumeral(digits, DigitsValue(digits));
    } else {
      assert forall m :: !IsNumeral(digits, m);
    }
  }

  lemma PrintIsInjective(m: nat, n: nat)
    requires Print(m) == Print(n)
    ensures m == n
  {
    PrintIsDigits(m);
    PrintIsDigits(n);
  }

  // ---- Separated fields ------------------------------------------------------------------

  /** The parts between separators; always at least one. */
  function Split(s: string, separator: char): (parts: seq<string>)
    ensures |parts| >= 1
  {
    if s == [] then [""]
    else
      var rest := Split(s[1..], separator);
      if s[0] == separator then [""] + rest else [[s[0]] + rest[0]] + rest[1..]
  }

  lemma {:induction false} SplitOne(s: string, separator: char)
    requires separator !in s
    ensures Split(s, separator) == [s]
  {
    if s != [] {
      SplitOne(s[1..], separator);
      assert s == [s[0]] + s[1..];
    }
  }

  lemma {:induction false} SplitFirst(s: string, separator: char, rest: string)
    requires separator !in s
    ensures Split(s + [separator] + rest, separator) == [s] + Split(rest, separator)
  {
    var whole := s + [separator] + rest;
    if s == [] {
      assert whole[1..] == rest;
    } else {
      assert whole[1..] == s[1..] + [separator] + rest;
      SplitFirst(s[1..], separator, rest);
      assert s == [s[0]] + s[1..];
    }
  }

  /** The parts with the separators put back. */
  function Join(parts: seq<string>, separator: char): string
    requires parts != []
  {
    if |parts| == 1 then parts[0] else parts[0] + [separator] + Join(parts[1..], separator)
  }

  /** Splitting loses nothing: no part holds a separator, and joining the parts gives the text back. */
  lemma {:induction false} SplitMeans(s: string, separator: char)
    ensures Join(Split(s, separator), separator) == s
    ensures forall i :: 0 <= i < |Split(s, separator)| ==> separator !in Split(s, separator)[i]
  {
    if s != [] {
      SplitMeans(s[1..], separator);
      var rest := Split(s[1..], separator);
      var parts := Split(s, separator);
      if s[0] == separator {
        assert parts[1..] == rest;
      } else {
        assert |rest| > 1 ==> parts[1..] == rest[1..];
      }
      assert s == [s[0]] + s[1..];
    }
  }

  /** Up to the first separator, and what follows it. */
  function SplitOnce(term: string, separator: char): Option<(string, string)> {
    if term == [] then None
    else if term[0] == separator then Some(("", term[1..]))
    else
      match SplitOnce(term[1..], separator)
      case Some((field, expected)) => Some(([term[0]] + field, expected))
      case None => None
  }

  lemma {:induction false} SplitOnceMeans(term: string, separator: char)
    ensures SplitOnce(term, separator) == None <==> separator !in term
    ensures SplitOnce(term, separator).Some? ==>
      var (field, expected) := SplitOnce(term, separator).value;
      separator !in field && term == field + [separator] + expected
  {
    if term != [] {
      SplitOnceMeans(term[1..], separator);
      assert term == [term[0]] + term[1..];
    }
  }

  lemma {:induction false} SplitOnceAt(field: string, separator: char, expected: string)
    requires separator !in field
    ensures SplitOnce(field + [separator] + expected, separator) == Some((field, expected))
  {
    var term := field + [separator] + expected;
    if field == [] {
      assert term[1..] == expected;
    } else {
      assert term[1..] == field[1..] + [separator] + expected;
      SplitOnceAt(field[1..], separator, expected);
      assert field == [field[0]] + field[1..];
    }
  }

  lemma SplitThree(a: string, b: string, c: string, separator: char)
    requires separator !in a && separator !in b && separator !in c
    ensures Split(a + [separator] + (b + [separator] + c), separator) == [a, b, c]
  {
    SplitFirst(a, separator, b + [separator] + c);
    SplitFirst(b, separator, c);
    SplitOne(c, separator);
  }

  /** The three fields that follow a tag are read back by splitting what is after the tag. */
  lemma SplitTagged(tag: string, a: string, b: string, c: string)
    requires |tag| == 3 && ':' !in a && ':' !in b && ':' !in c
    ensures var raw := tag + a + ":" + b + ":" + c; tag <= raw && Split(raw[3..], ':') == [a, b, c]
  {
    var raw, fields := tag + a + ":" + b + ":" + c, a + [':'] + (b + [':'] + c);
    assert raw == tag + fields;
    assert raw[3..] == fields;
    SplitThree(a, b, c, ':');
  }

  lemma PrintHasNoColon(n: nat)
    ensures ':' !in Print(n)
  {
    PrintIsDigits(n);
  }

  // ---- Case and whitespace ---------------------------------------------------------------

  predicate IsSpace(c: char) {
    c in {' ', '\t', '\n', '\r', 11 as char, 12 as char}
  }

  function TrimStart(s: string): string {
    if s != [] && IsSpace(s[0]) then TrimStart(s[1..]) else s
  }

  function TrimEnd(s: string): string {
    if s != [] && IsSpace(s[|s| - 1]) then TrimEnd(s[..|s| - 1]) else s
  }

  function Trim(s: string): string {
    TrimEnd(TrimStart(s))
  }

  ghost predicate AllSpaces(s: string) {
    forall c :: c in s ==> IsSpace(c)
  }

  lemma {:induction false} TrimStartMeans(s: string) returns (left: string)
    ensures s == left + TrimStart(s) && AllSpaces(left)
    ensures TrimStart(s) != [] ==> !IsSpace(TrimStart(s)[0])
  {
    if s != [] && IsSpace(s[0]) {
      var rest := TrimStartMeans(s[1..]);
      left := [s[0]] + rest;
    } else {
      left := [];
    }
  }

  lemma {:induction false} TrimEndMeans(s: string) returns (right: string)
    ensures s == TrimEnd(s) + right && AllSpaces(right)
    ensures TrimEnd(s) != [] ==> !IsSpace(TrimEnd(s)[|TrimEnd(s)| - 1])
  {
    if s != [] && IsSpace(s[|s| - 1]) {
      var init := s[..|s| - 1];
      var rest := TrimEndMeans(init);
      right := rest + [s[|s| - 1]];
    } else {
      right := [];
    }
  }

  /** Trimming takes white space off both ends and nothing else. */
  lemma TrimMeans(s: string) returns (left: string, right: string)
    ensures s == left + Trim(s) + right && AllSpaces(left) && AllSpaces(right)
    ensures Trim(s) != [] ==> !IsSpace(Trim(s)[0]) && !IsSpace(Trim(s)[|Trim(s)| - 1])
  {
    var middle := TrimStart(s);
    var trimmed := TrimEnd(middle);
    left := TrimStartMeans(s);
    right := TrimEndMeans(middle);
    assert left + (trimmed + right) == left + trimmed + right;
    assert trimmed != [] ==> trimmed[0] == middle[0];
  }

  /** The same text up to the case of ASCII letters. */
  ghost predicate SameLetters(a: string, b: string) {
    && |a| == |b|
    && forall i :: 0 <= i < |a| ==>
         || a[i] == b[i]
         || ('A' <= a[i] <= 'Z' && b[i] as int == a[i] as int + 32)
         || ('A' <= b[i] <= 'Z' && a[i] as int == b[i] as int + 32)
  }

  function LowerChar(c: char): char {
    if 'A' <= c <= 'Z' then (c as int + 32) as char else c
  }

  function Lower(s: string): string {
    seq(|s|, i requires 0 <= i < |s| => LowerChar(s[i]))
  }

  lemma LowerMeans(a: string, b: string)
    ensures Lower(a) == Lower(b) <==> SameLetters(a, b)
  {
    if Lower(a) == Lower(b) {
      assert |Lower(a)| == |a| && |Lower(b)| == |b|;
      forall i | 0 <= i < |a|
        ensures LowerChar(a[i]) == LowerChar(b[i])
      {
        assert Lower(a)[i] == Lower(b)[i];
      }
    }
    if SameLetters(a, b) {
      assert forall i :: 0 <= i < |a| ==> Lower(a)[i] == Lower(b)[i];
    }
  }
}
