// Numbers, fields and lines as text (src/utils.h, and the library functions
// that src/readers/csv-reader.h and src/writers/csv-writer.h call).
module CsvText {
  import opened Wrappers

  // ----- numbers -----

  function Digit(d: nat): char
    requires d < 10
  {
    '0' + d as char
  }

  predicate IsDigit(c: char) {
    '0' <= c <= '9'
  }

  function Digits(n: nat): (s: string)
    ensures s != [] && forall i :: 0 <= i < |s| ==> IsDigit(s[i])
  {
    if n < 10 then [Digit(n)] else Digits(n / 10) + [Digit(n % 10)]
  }

  // std::to_string
  function Decimal(n: int): string {
    if n < 0 then "-" + Digits(-n) else Digits(n)
  }

  function DigitValue(c: char): nat
    requires IsDigit(c)
  {
    c as int - '0' as int
  }

  function ValueOf(s: string): nat
    requires forall i :: 0 <= i < |s| ==> IsDigit(s[i])
  {
    if s == [] then 0 else 10 * ValueOf(s[..|s| - 1]) + DigitValue(s[|s| - 1])
  }

  // The digits at the start of a text.
  function DigitPrefix(s: string): (r: string)
    ensures forall i :: 0 <= i < |r| ==> IsDigit(r[i])
  {
    if s != [] && IsDigit(s[0]) then [s[0]] + DigitPrefix(s[1..]) else []
  }

  // std::stoi and std::stol on text without leading space; None where they
  // throw.
  function Parsed(s: string, bound: nat): Option<int> {
    var negative := s != [] && s[0] == '-';
    var digits := DigitPrefix(if s != [] && (s[0] == '-' || s[0] == '+') then s[1..] else s);
    var value: int := if negative then 0 - ValueOf(digits) else ValueOf(digits);
    if digits == [] || value < 0 - bound || value >= bound then None else Some(value)
  }

  const TWO_TO_31: nat := 0x8000_0000
  const TWO_TO_63: nat := 0x8000_0000_0000_0000

  lemma {:induction false} DigitsValue(n: nat)
    ensures ValueOf(Digits(n)) == n
  {
    if n >= 10 {
      DigitsValue(n / 10);
      assert Digits(n)[..|Digits(n)| - 1] == Digits(n / 10);
    }
  }

  lemma {:induction false} AllDigits(s: string)
    requires forall i :: 0 <= i < |s| ==> IsDigit(s[i])
    ensures DigitPrefix(s) == s
  {
    if s != [] {
      AllDigits(s[1..]);
    }
  }

  // A number is read back exactly if it fits, and refused if it does not.
  lemma NumberRoundTrip(n: int, bound: nat)
    ensures Parsed(Decimal(n), bound) == if 0 - bound <= n < bound then Some(n) else None
  {
    var digits := Digits(if n < 0 then -n else n);
    DigitsValue(if n < 0 then -n else n);
    AllDigits(digits);
    if n < 0 {
      assert Decimal(n)[1..] == digits;
    }
  }

  // ----- fields -----

  // Where a character comes first, from a position on; the length if nowhere.
  function Find(s: string, c: char, from: nat): (i: nat)
    requires from <= |s|
    ensures from <= i <= |s| && (i < |s| ==> s[i] == c)
    decreases |s| - from
  {
    if from == |s| || s[from] == c then from else Find(s, c, from + 1)
  }

  // The parts between the separators, from a position on.
  function Parts(s: string, c: char, from: nat): seq<string>
    requires from <= |s|
    decreases |s| - from
  {
    var i := Find(s, c, from);
    if i == |s| then [s[from..]] else [s[from..i]] + Parts(s, c, i + 1)
  }

  // Utils::split
  method Split(s: string, c: char) returns (r: seq<string>)
    ensures r == if s == [] then [] else Parts(s, c, 0)
  {
    if s == [] {
      return [];
    }
    r := [];
    var previous := 0;
    var current := Find(s, c, 0);
    while current < |s|
      invariant 0 <= previous <= current <= |s| && current == Find(s, c, previous)
      invariant Parts(s, c, 0) == r + Parts(s, c, previous)
      decreases |s| - previous
    {
      assert Parts(s, c, previous) == [s[previous..current]] + Parts(s, c, current + 1);
      r := r + [s[previous..current]];
      previous := current + 1;
      current := Find(s, c, previous);
    }
    r := r + [s[previous..]];
  }

  ghost predicate Without(s: string, c: char) {
    forall i :: 0 <= i < |s| ==> s[i] != c
  }

  function Joined(fields: seq<string>, c: char): string {
    if fields == [] then [] else if |fields| == 1 then fields[0] else fields[0] + [c] + Joined(fields[1..], c)
  }

  // The first of several parts.
  lemma OnePart(before: string, s: string, c: char, rest: string, parts: seq<string>)
    requires Without(s, c)
    requires parts == Parts(before + s + [c] + rest, c, |before + s + [c]|)
    ensures Parts(before + s + [c] + rest, c, |before|) == [s] + parts
  {
    FoundAfter(before, s, c, rest);
  }

  lemma {:induction false} FieldsRoundTrip(before: string, fields: seq<string>, c: char)
    requires fields != [] && forall i :: 0 <= i < |fields| ==> Without(fields[i], c)
    ensures Parts(before + Joined(fields, c), c, |before|) == fields
    decreases |fields|
  {
    if |fields| == 1 {
      NotFound(before, fields[0], c);
    } else {
      var rest := Joined(fields[1..], c);
      FieldsRoundTrip(before + fields[0] + [c], fields[1..], c);
      OnePart(before, fields[0], c, rest, fields[1..]);
      Regrouped(before, fields[0], [c], rest);
    }
  }

  lemma Regrouped(a: string, b: string, c: string, d: string)
    ensures a + b + c + d == a + (b + c + d)
  {
  }

  lemma {:induction false} FindIs(t: string, c: char, from: nat, i: nat)
    requires from <= i <= |t| && (forall j :: from <= j < i ==> t[j] != c) && (i < |t| ==> t[i] == c)
    ensures Find(t, c, from) == i
    decreases i - from
  {
    if from < i {
      FindIs(t, c, from + 1, i);
    }
  }

  lemma {:induction false} FindSkips(t: string, c: char, from: nat, to: nat)
    requires from <= to <= |t| && forall j :: from <= j < to ==> t[j] != c
    ensures Find(t, c, from) == Find(t, c, to)
    decreases |t| - from
  {
    if from < to {
      FindSkips(t, c, from + 1, to);
    }
  }

  lemma {:induction false} FindAtMost(t: string, c: char, from: nat, i: nat)
    requires from <= i < |t| && t[i] == c
    ensures Find(t, c, from) <= i
    decreases i - from
  {
    if from < i {
      FindAtMost(t, c, from + 1, i);
    }
  }

  lemma Middle(before: string, s: string, rest: string)
    ensures var t := before + s + rest;
            t[|before|..|before| + |s|] == s && forall j :: |before| <= j < |before| + |s| ==> t[j] == s[j - |before|]
  {
  }

  lemma FoundAfter(before: string, s: string, c: char, rest: string)
    requires Without(s, c)
    ensures var t := before + s + [c] + rest;
            Find(t, c, |before|) == |before| + |s| && t[|before|..|before| + |s|] == s
  {
    var t := before + s + ([c] + rest);
    assert before + s + [c] + rest == t;
    Middle(before, s, [c] + rest);
    FindIs(t, c, |before|, |before| + |s|);
  }

  lemma NotFound(before: string, s: string, c: char)
    requires Without(s, c)
    ensures Find(before + s, c, |before|) == |before + s| && (before + s)[|before|..] == s
  {
    var t := before + s;
    forall j | |before| <= j < |t|
      ensures t[j] != c
    {
      assert t[j] == s[j - |before|];
    }
    FindIs(t, c, |before|, |t|);
  }

  // ----- lines -----

  predicate Terminated(text: string) {
    text != [] && text[|text| - 1] == '\n'
  }

  // The lines from a position on; what follows the last newline is none.
  function Lines(text: string, from: nat): seq<string>
    requires from <= |text|
    decreases |text| - from
  {
    var i := Find(text, '\n', from);
    if i == |text| then [] else [text[from..i]] + Lines(text, i + 1)
  }

  function Text(lines: seq<string>): string {
    if lines == [] then [] else lines[0] + ['\n'] + Text(lines[1..])
  }

  lemma {:induction false} LinesRoundTrip(before: string, lines: seq<string>)
    requires forall i :: 0 <= i < |lines| ==> Without(lines[i], '\n')
    ensures Lines(before + Text(lines), |before|) == lines && (lines != [] ==> Terminated(Text(lines)))
    decreases |lines|
  {
    var text := before + Text(lines);
    if lines == [] {
      assert text == before;
    } else {
      var rest := Text(lines[1..]);
      assert text == before + lines[0] + ['\n'] + rest;
      FoundAfter(before, lines[0], '\n', rest);
      LinesRoundTrip(before + lines[0] + ['\n'], lines[1..]);
    }
  }

  function NonEmpty(lines: seq<string>): seq<string> {
    if lines == [] then [] else (if lines[0] == "" then [] else [lines[0]]) + NonEmpty(lines[1..])
  }
}
