/** Indian digit grouping and the decimal-input parser (frontend/src/lib/formNumbers.ts). */
module FormNumbers {
  import opened Sequences

  predicate IsDigit(c: char) { '0' <= c <= '9' }

  /** The characters \w matches. */
  predicate IsWord(c: char) { IsDigit(c) || 'a' <= c <= 'z' || 'A' <= c <= 'Z' || c == '_' }

  /** The white space of ASCII, the no-break space and the byte-order mark. */
  predicate IsSpace(c: char) {
    c == ' ' || '\t' <= c <= '\r' || c == '\U{A0}' || c == '\U{FEFF}'
  }

  predicate Digits(s: string) {
    forall c :: c in s ==> IsDigit(c)
  }

  function Dropped(s: string, drop: char): string {
    Filter(s, c => c != drop)
  }

  function TrimStart(s: string): string {
    if s != "" && IsSpace(s[0]) then TrimStart(s[1..]) else s
  }

  function TrimEnd(s: string): string {
    if s != "" && IsSpace(s[|s| - 1]) then TrimEnd(s[..|s| - 1]) else s
  }

  function Trim(s: string): string {
    TrimEnd(TrimStart(s))
  }

  function FirstIndex(s: string, c: char): (i: int)
    ensures -1 <= i < |s|
    ensures i >= 0 ==> s[i] == c && forall j :: 0 <= j < i ==> s[j] != c
    ensures i < 0 ==> c !in s
  {
    if s == "" then -1
    else if s[0] == c then 0
    else
      var i := FirstIndex(s[1..], c);
      if i < 0 then -1 else i + 1
  }

  function LastIndex(s: string, c: char): (i: int)
    ensures -1 <= i < |s|
    ensures i >= 0 ==> s[i] == c && forall j :: i < j < |s| ==> s[j] != c
    ensures i < 0 ==> c !in s
  {
    if s == "" then -1
    else if s[|s| - 1] == c then |s| - 1
    else LastIndex(s[..|s| - 1], c)
  }

  function Occurrences(s: string, c: char): nat {
    multiset(s)[c]
  }

  // ----- groupIndian -----

  /** The length of the run of digits a string starts with. */
  function DigitRun(s: string): (n: nat)
    ensures n <= |s|
  {
    if s != "" && IsDigit(s[0]) then 1 + DigitRun(s[1..]) else 0
  }

  /** Whether the grouping expression puts a comma in front of position p: inside a word, before an even run of digits. */
  predicate CommaAt(s: string, p: nat)
    requires p <= |s|
  {
    0 < p < |s| && IsWord(s[p - 1]) && DigitRun(s[p..]) >= 2 && DigitRun(s[p..]) % 2 == 0
  }

  /** The replacement, from position p on. */
  function GroupedFrom(s: string, p: nat): string
    requires p <= |s|
    decreases |s| - p
  {
    if p == |s| then ""
    else (if CommaAt(s, p) then "," else "") + [s[p]] + GroupedFrom(s, p + 1)
  }

  function GroupedInteger(whole: string): string {
    if |whole| <= 3 then whole
    else GroupedFrom(whole[..|whole| - 3], 0) + "," + whole[|whole| - 3..]
  }

  /** Everything before the first dot, and what lies between it and the next dot. */
  function SplitAtDot(s: string): (string, Option<string>) {
    var i := FirstIndex(s, '.');
    if i < 0 then (s, None)
    else
      var rest := s[i + 1..];
      var j := FirstIndex(rest, '.');
      (s[..i], Some(if j < 0 then rest else rest[..j]))
  }

  function GroupIndian(raw: string): string {
    var value := Trim(raw);
    if value == "" then ""
    else
      var neg := value[0] == '-';
      var (intPart, decPart) := SplitAtDot(if neg then value[1..] else value);
      (if neg then "-" else "") + GroupedInteger(intPart) + (if decPart.Some? then "." + decPart.value else "")
  }

  // ----- normaliseDecimalInput -----

  /** A run of (separator, n digits) to the end of the string, at least one. */
  predicate GroupsOf(s: string, separator: char, n: nat) {
    |s| >= n + 1 && s[0] == separator && Digits(s[1..n + 1]) && (|s| == n + 1 || GroupsOf(s[n + 1..], separator, n))
  }

  /** A run of (separator, two digits), at least one, then (separator, three digits). */
  predicate IndianTail(s: string, separator: char) {
    |s| >= 3 && s[0] == separator && Digits(s[1..3])
    && ((|s| == 7 && GroupsOf(s[3..], separator, 3)) || IndianTail(s[3..], separator))
  }

  predicate IsGroupedInteger(value: string, separator: char) {
    if separator !in value then value != "" && Digits(value)
    else exists h :: 1 <= h <= 3 && h <= |value| && Digits(value[..h])
                  && (GroupsOf(value[h..], separator, 3) || IndianTail(value[h..], separator))
  }

  predicate SingleSeparatorIsGrouping(value: string, separator: char) {
    var i := FirstIndex(value, separator);
    i >= 0 && 1 <= i <= 3 && |value| - i - 1 == 3
  }

  /** Starts with a digit, and holds only digits and separators. */
  predicate WellShaped(s: string) {
    s != "" && IsDigit(s[0]) && forall c :: c in s ==> IsDigit(c) || c == ',' || c == '.'
  }

  /** Which separator is the decimal point, ' ' for none; None when the string is not a number. */
  function DecimalMark(digits: string, decimalMode: bool): Option<char> {
    var lastComma, lastDot := LastIndex(digits, ','), LastIndex(digits, '.');
    if lastComma != -1 && lastDot != -1 then Some(if lastComma > lastDot then ',' else '.')
    else if lastComma != -1 then
      if Occurrences(digits, ',') == 1 then
        Some(if decimalMode || !SingleSeparatorIsGrouping(digits, ',') then ',' else ' ')
      else if IsGroupedInteger(digits, ',') then Some(' ') else None
    else if lastDot != -1 then
      if Occurrences(digits, '.') == 1 then
        Some(if decimalMode || !SingleSeparatorIsGrouping(digits, '.') then '.' else ' ')
      else if IsGroupedInteger(digits, '.') then Some(' ') else None
    else Some(' ')
  }

  function Other(mark: char): char { if mark == ',' then '.' else ',' }

  /** The decimal mark must be followed by plain digits and preceded by a grouped integer. */
  predicate MarkFits(digits: string, mark: char)
    requires mark == ' ' || mark in digits
  {
    mark == ' ' ||
    var i := LastIndex(digits, mark);
    Digits(digits[i + 1..]) && IsGroupedInteger(digits[..i], Other(mark))
  }

  /** Replaces the first comma by a dot. */
  function CommaToDot(s: string): string {
    var i := FirstIndex(s, ',');
    if i < 0 then s else s[..i] + "." + s[i + 1..]
  }

  function Stripped(digits: string, mark: char): string {
    if mark == ',' then CommaToDot(Dropped(digits, '.'))
    else if mark == '.' then Dropped(digits, ',')
    else Dropped(Dropped(digits, ','), '.')
  }

  lemma MarkIsPresent(digits: string, decimalMode: bool)
    ensures var m := DecimalMark(digits, decimalMode); m.Some? ==> m.value == ' ' || m.value in digits
  {
  }

  predicate Kept(c: char) { !IsSpace(c) && c != '_' }

  function Normalised(raw: string, allowNegative: bool, decimalMode: bool): Option<string> {
    var value := Filter(raw, Kept);
    if value == "" then Some("0")
    else
      var neg := value[0] == '-';
      var digits := if neg then value[1..] else value;
      if (neg && !allowNegative) || digits == "" || '-' in digits || !WellShaped(digits) then None
      else
        var mark := DecimalMark(digits, decimalMode);
        MarkIsPresent(digits, decimalMode);
        if mark.None? || !MarkFits(digits, mark.value) then None
        else
          var normalized := Stripped(digits, mark.value);
          if normalized == "" || normalized == "." then None
          else Some((if neg then "-" else "") + normalized)
  }

  // ----- grouping, step by step -----

  lemma {:induction false} DigitRunOfDigits(s: string)
    requires Digits(s)
    ensures DigitRun(s) == |s|
  {
    if s != "" {
      assert s[0] in s;
      DigitRunOfDigits(s[1..]);
    }
  }

  lemma CommaAtInDigits(s: string, p: nat)
    requires Digits(s) && p <= |s|
    ensures CommaAt(s, p) <==> 0 < p < |s| && (|s| - p) % 2 == 0
  {
    if 0 < p < |s| {
      assert s[p - 1] in s;
      DigitRunOfDigits(s[p..]);
    }
  }

  /** Removing the commas undoes the grouping. */
  lemma {:induction false} UngroupedFrom(s: string, p: nat)
    requires Digits(s) && p <= |s|
    ensures Dropped(GroupedFrom(s, p), ',') == s[p..]
    ensures forall c :: c in GroupedFrom(s, p) ==> IsDigit(c) || c == ','
    decreases |s| - p
  {
    if p < |s| {
      var rest := GroupedFrom(s, p + 1);
      assert s[p] in s;
      UngroupedFrom(s, p + 1);
      FilterCons(s[p], rest, c => c != ',');
      FilterCons(',', [s[p]] + rest, c => c != ',');
      if CommaAt(s, p) {
        assert GroupedFrom(s, p) == [','] + ([s[p]] + rest);
      } else {
        assert GroupedFrom(s, p) == [s[p]] + rest;
      }
    }
  }

  /** After the head the digits come in pairs. */
  lemma PairFrom(s: string, p: nat)
    requires Digits(s) && 0 < p < |s| && (|s| - p) % 2 == 0
    ensures p + 2 <= |s|
    ensures GroupedFrom(s, p) == "," + s[p..p + 2] + GroupedFrom(s, p + 2)
  {
    CommaAtInDigits(s, p);
    CommaAtInDigits(s, p + 1);
    assert GroupedFrom(s, p + 1) == [s[p + 1]] + GroupedFrom(s, p + 2);
    assert GroupedFrom(s, p) == "," + [s[p]] + GroupedFrom(s, p + 1);
  }

  /** The head is the odd digit, or the first pair. */
  lemma HeadOf(s: string) returns (h: nat)
    requires Digits(s) && s != ""
    ensures 1 <= h <= 2 && h <= |s| && (|s| - h) % 2 == 0 && (|s| <= 2 ==> h == |s|)
    ensures GroupedFrom(s, 0) == s[..h] + GroupedFrom(s, h)
  {
    CommaAtInDigits(s, 0);
    assert GroupedFrom(s, 0) == [s[0]] + GroupedFrom(s, 1);
    if |s| % 2 == 1 {
      h := 1;
    } else {
      h := 2;
      CommaAtInDigits(s, 1);
      assert GroupedFrom(s, 1) == [s[1]] + GroupedFrom(s, 2);
    }
  }

  lemma LastGroup(last3: string)
    requires Digits(last3) && |last3| == 3
    ensures GroupsOf("," + last3, ',', 3) && |"," + last3| == 4
  {
    assert ("," + last3)[1..4] == last3;
  }

  lemma PairInFront(pair: string, tail: string)
    requires Digits(pair) && |pair| == 2
    requires (|tail| == 4 && GroupsOf(tail, ',', 3)) || IndianTail(tail, ',')
    ensures IndianTail("," + pair + tail, ',')
  {
    var text := "," + pair + tail;
    assert text[1..3] == pair && text[3..] == tail;
  }

  lemma GroupedFromEnd(s: string)
    ensures GroupedFrom(s, |s|) == ""
  {
  }

  lemma {:induction false} TailIsIndian(s: string, p: nat, last3: string)
    requires Digits(s) && Digits(last3) && |last3| == 3 && 0 < p < |s| && (|s| - p) % 2 == 0
    ensures IndianTail(GroupedFrom(s, p) + "," + last3, ',')
    decreases |s| - p
  {
    hide GroupedFrom, GroupsOf, IndianTail;
    PairFrom(s, p);
    var tail := GroupedFrom(s, p + 2) + "," + last3;
    assert GroupedFrom(s, p) + "," + last3 == "," + s[p..p + 2] + tail;
    if p + 2 == |s| {
      GroupedFromEnd(s);
      assert tail == "," + last3;
      LastGroup(last3);
    } else {
      TailIsIndian(s, p + 2, last3);
    }
    PairInFront(s[p..p + 2], tail);
  }

  lemma CountConcatenated(a: string, b: string, c: char)
    ensures Occurrences(a + b, c) == Occurrences(a, c) + Occurrences(b, c)
  {
  }

  lemma NoOccurrence(a: string, c: char)
    requires c !in a
    ensures Occurrences(a, c) == 0
  {
    assert c !in multiset(a);
  }

  lemma {:induction false} DigitsHoldNoMark(a: string)
    requires Digits(a)
    ensures ',' !in a && '.' !in a && '-' !in a
  {
  }

  lemma TwoCommas(pair: string, middle: string, last3: string)
    ensures Occurrences("," + pair + middle + "," + last3, ',') >= 2
  {
    CountConcatenated("," + pair + middle + ",", last3, ',');
    CountConcatenated("," + pair + middle, ",", ',');
    CountConcatenated("," + pair, middle, ',');
    CountConcatenated(",", pair, ',');
  }

  lemma LongTail(s: string, h: nat, last3: string)
    requires Digits(s) && Digits(last3) && |last3| == 3 && 0 < h < |s| && (|s| - h) % 2 == 0
    ensures var tail := GroupedFrom(s, h) + "," + last3;
            IndianTail(tail, ',') && Occurrences(tail, ',') >= 2 && tail[0] == ','
  {
    TailIsIndian(s, h, last3);
    PairFrom(s, h);
    TwoCommas(s[h..h + 2], GroupedFrom(s, h + 2), last3);
  }

  /** The grouping of four digits or more: a head of one or two digits, pairs, and the last three. */
  lemma LongGrouping(whole: string) returns (head: string, tail: string)
    requires Digits(whole) && |whole| > 3
    ensures GroupedInteger(whole) == head + tail
    ensures Digits(head) && 1 <= |head| <= 2 && head[0] == whole[0]
    ensures if |whole| <= 5 then tail == "," + whole[|whole| - 3..] && head == whole[..|whole| - 3] && GroupsOf(tail, ',', 3)
            else IndianTail(tail, ',') && Occurrences(tail, ',') >= 2
    ensures tail != "" && tail[0] == ','
  {
    var s, last3 := whole[..|whole| - 3], whole[|whole| - 3..];
    var h := HeadOf(s);
    head, tail := s[..h], GroupedFrom(s, h) + "," + last3;
    assert GroupedInteger(whole) == head + tail;
    if h == |s| {
      assert tail == "," + last3;
      LastGroup(last3);
    } else {
      LongTail(s, h, last3);
    }
  }

  lemma GroupedIsGrouped(head: string, tail: string)
    requires Digits(head) && 1 <= |head| <= 3 && tail != "" && tail[0] == ','
    requires GroupsOf(tail, ',', 3) || IndianTail(tail, ',')
    ensures IsGroupedInteger(head + tail, ',')
  {
    var value := head + tail;
    assert value[|head|] == ',';
    assert value[..|head|] == head && value[|head|..] == tail;
  }

  /** What the grouped integer looks like: a valid grouping of exactly the digits given. */
  lemma GroupedShape(whole: string)
    requires Digits(whole) && whole != ""
    ensures var g := GroupedInteger(whole);
            && Dropped(g, ',') == whole && g != "" && IsDigit(g[0])
            && (forall c :: c in g ==> IsDigit(c) || c == ',')
            && IsGroupedInteger(g, ',') && (',' in g <==> |whole| > 3)
  {
    var g := GroupedInteger(whole);
    assert whole[0] in whole;
    if |whole| <= 3 {
      DigitsHoldNoMark(whole);
      FilterAll(whole, c => c != ',');
    } else {
      var s, last3 := whole[..|whole| - 3], whole[|whole| - 3..];
      GroupedWithout(s, last3);
      UngroupedFrom(s, 0);
      var head, tail := LongGrouping(whole);
      GroupedIsGrouped(head, tail);
      assert g[|head|] == ',';
    }
  }

  /** One comma, for four or five digits; more for more. */
  lemma GroupedCommas(whole: string)
    requires Digits(whole) && |whole| > 3
    ensures var g := GroupedInteger(whole);
            && (Occurrences(g, ',') == 1 <==> |whole| <= 5)
            && (|whole| <= 5 ==> g == whole[..|whole| - 3] + "," + whole[|whole| - 3..])
  {
    var head, tail := LongGrouping(whole);
    DigitsHoldNoMark(head);
    NoOccurrence(head, ',');
    CountConcatenated(head, tail, ',');
    if |whole| <= 5 {
      var last3 := whole[|whole| - 3..];
      DigitsHoldNoMark(last3);
      NoOccurrence(last3, ',');
      CountConcatenated(",", last3, ',');
    }
  }

  lemma GroupedWithout(s: string, last3: string)
    requires Digits(s) && Digits(last3)
    ensures Dropped(GroupedFrom(s, 0) + "," + last3, ',') == s + last3
  {
    UngroupedFrom(s, 0);
    DigitsHoldNoMark(last3);
    FilterConcat(GroupedFrom(s, 0) + ",", last3, c => c != ',');
    FilterConcat(GroupedFrom(s, 0), ",", c => c != ',');
    FilterAll(last3, c => c != ',');
  }

  // ----- the round trip -----

  /** The sign and the fraction, as they are written. */
  function Sign(neg: bool): string { if neg then "-" else "" }
  function Fraction(frac: Option<string>): string { if frac.Some? then "." + frac.value else "" }

  /** A decimal in parts: at least one integer digit, and a possibly absent, possibly empty, fraction. */
  predicate DecimalParts(whole: string, frac: Option<string>) {
    Digits(whole) && whole != "" && (frac.Some? ==> Digits(frac.value))
  }

  /** A canonical decimal. */
  function Canonical(neg: bool, whole: string, frac: Option<string>): string {
    Sign(neg) + whole + Fraction(frac)
  }

  /** The text groupIndian renders it as, without its sign. */
  function Rendered(whole: string, frac: Option<string>): string {
    GroupedInteger(whole) + Fraction(frac)
  }

  lemma TrimNothing(s: string)
    requires forall c :: c in s ==> !IsSpace(c)
    ensures Trim(s) == s
  {
    if s != "" {
      assert s[0] in s && s[|s| - 1] in s;
    }
  }

  lemma CanonicalChars(neg: bool, whole: string, frac: Option<string>)
    requires DecimalParts(whole, frac)
    ensures forall c :: c in Canonical(neg, whole, frac) ==> !IsSpace(c)
  {
  }

  /** A character is first found where it first stands. */
  lemma {:induction false} FirstIndexAfter(a: string, c: char, b: string)
    requires c !in a
    ensures FirstIndex(a + [c] + b, c) == |a|
  {
    var s := a + [c] + b;
    if a != "" {
      FirstIndexAfter(a[1..], c, b);
      assert s[1..] == a[1..] + [c] + b;
      assert s[0] == a[0] && a[0] in a;
    }
  }

  lemma {:induction false} LastIndexAfter(a: string, c: char, b: string)
    requires c !in b
    ensures LastIndex(a + [c] + b, c) == |a|
  {
    var s := a + [c] + b;
    if b != "" {
      var b' := b[..|b| - 1];
      LastIndexAfter(a, c, b');
      assert s[..|s| - 1] == a + [c] + b';
      assert s[|s| - 1] == b[|b| - 1] && b[|b| - 1] in b;
    }
  }

  lemma SplitWithoutDot(s: string)
    requires '.' !in s
    ensures SplitAtDot(s) == (s, None)
  {
  }

  lemma SplitWithDot(a: string, f: string)
    requires '.' !in a && '.' !in f
    ensures SplitAtDot(a + "." + f) == (a, Some(f))
  {
    var s := a + "." + f;
    FirstIndexAfter(a, '.', f);
    assert s[..|a|] == a && s[|a| + 1..] == f;
  }

  lemma SplitCanonical(whole: string, frac: Option<string>)
    requires DecimalParts(whole, frac)
    ensures SplitAtDot(whole + Fraction(frac)) == (whole, frac)
  {
    DigitsHoldNoMark(whole);
    if frac.None? {
      assert whole + "" == whole;
      SplitWithoutDot(whole);
    } else {
      DigitsHoldNoMark(frac.value);
      assert whole + ("." + frac.value) == whole + "." + frac.value;
      SplitWithDot(whole, frac.value);
    }
  }

  lemma SignComesOff(neg: bool, digits: string)
    requires digits != "" && IsDigit(digits[0])
    ensures var value := Sign(neg) + digits;
            value != "" && (value[0] == '-' <==> neg) && (if neg then value[1..] else value) == digits
  {
  }

  lemma CanonicalParts(neg: bool, whole: string, frac: Option<string>)
    requires DecimalParts(whole, frac)
    ensures Canonical(neg, whole, frac) == Sign(neg) + (whole + Fraction(frac))
    ensures whole + Fraction(frac) != "" && IsDigit((whole + Fraction(frac))[0])
  {
    assert whole[0] in whole;
  }

  lemma GroupIndianOfSigned(neg: bool, unsigned: string, whole: string, frac: Option<string>)
    requires unsigned != "" && IsDigit(unsigned[0]) && SplitAtDot(unsigned) == (whole, frac)
    requires Trim(Sign(neg) + unsigned) == Sign(neg) + unsigned
    ensures GroupIndian(Sign(neg) + unsigned) == Sign(neg) + GroupedInteger(whole) + Fraction(frac)
  {
    SignComesOff(neg, unsigned);
  }

  lemma TrimCanonical(neg: bool, whole: string, frac: Option<string>)
    requires DecimalParts(whole, frac)
    ensures Trim(Canonical(neg, whole, frac)) == Canonical(neg, whole, frac)
  {
    CanonicalChars(neg, whole, frac);
    TrimNothing(Canonical(neg, whole, frac));
  }

  lemma RenderedParts(neg: bool, whole: string, frac: Option<string>)
    ensures Sign(neg) + GroupedInteger(whole) + Fraction(frac) == Sign(neg) + Rendered(whole, frac)
  {
    var g := GroupedInteger(whole);
    assert Sign(neg) + g + Fraction(frac) == Sign(neg) + (g + Fraction(frac));
  }

  lemma GroupIndianOfCanonical(neg: bool, whole: string, frac: Option<string>)
    requires DecimalParts(whole, frac)
    ensures GroupIndian(Canonical(neg, whole, frac)) == Sign(neg) + Rendered(whole, frac)
  {
    var unsigned := whole + Fraction(frac);
    var value := Canonical(neg, whole, frac);
    assert value == Sign(neg) + unsigned && unsigned != "" && IsDigit(unsigned[0]) by {
      CanonicalParts(neg, whole, frac);
    }
    assert Trim(value) == value by { TrimCanonical(neg, whole, frac); }
    assert SplitAtDot(unsigned) == (whole, frac) by { SplitCanonical(whole, frac); }
    GroupIndianOfSigned(neg, unsigned, whole, frac);
    RenderedParts(neg, whole, frac);
  }

  /** A rendered number holds digits and separators only, and starts with a digit. */
  lemma RenderedShape(whole: string, frac: Option<string>)
    requires DecimalParts(whole, frac)
    ensures WellShaped(Rendered(whole, frac)) && '-' !in Rendered(whole, frac)
    ensures forall c :: c in Rendered(whole, frac) ==> Kept(c)
  {
    hide GroupedInteger, IsGroupedInteger, Dropped;
    GroupedShape(whole);
    var g, f := GroupedInteger(whole), Fraction(frac);
    assert forall c :: c in f ==> IsDigit(c) || c == '.';
    assert (g + f)[0] == g[0];
    assert forall c :: c in g + f ==> c in g || c in f;
  }

  /** The parser, once sign and white space are out of the way. */
  function ParsedDigits(digits: string, decimalMode: bool): Option<string> {
    var mark := DecimalMark(digits, decimalMode);
    MarkIsPresent(digits, decimalMode);
    if mark.None? || !MarkFits(digits, mark.value) then None
    else if Stripped(digits, mark.value) == "" || Stripped(digits, mark.value) == "." then None
    else Some(Stripped(digits, mark.value))
  }

  function Signed(neg: bool, r: Option<string>): Option<string> {
    if r.None? then None else Some(Sign(neg) + r.value)
  }

  lemma NormalisedIsParsed(neg: bool, digits: string, decimalMode: bool)
    requires WellShaped(digits) && '-' !in digits && forall c :: c in digits ==> Kept(c)
    ensures Normalised(Sign(neg) + digits, true, decimalMode) == Signed(neg, ParsedDigits(digits, decimalMode))
  {
    var raw := Sign(neg) + digits;
    assert Filter(raw, Kept) == raw by { FilterAll(raw, Kept); }
    SignComesOff(neg, digits);
  }

  lemma OneOccurrence(a: string, c: char, b: string)
    requires c !in a && c !in b
    ensures Occurrences(a + [c] + b, c) == 1
  {
    NoOccurrence(a, c);
    NoOccurrence(b, c);
    CountConcatenated(a + [c], b, c);
    CountConcatenated(a, [c], c);
  }

  lemma WithoutAbsent(s: string, c: char)
    requires c !in s
    ensures Dropped(s, c) == s
  {
    FilterAll(s, d => d != c);
  }

  lemma WithoutMark(a: string, c: char, b: string)
    requires c !in a && c !in b
    ensures Dropped(a + [c] + b, c) == a + b
  {
    FilterConcat(a + [c], b, d => d != c);
    FilterConcat(a, [c], d => d != c);
    WithoutAbsent(a, c);
    WithoutAbsent(b, c);
  }

  /** What parsing comes to, once the mark is known and fits. */
  lemma ParsedWithMark(digits: string, decimalMode: bool, mark: char, result: string)
    requires DecimalMark(digits, decimalMode) == Some(mark)
    requires mark == ' ' || mark in digits
    requires MarkFits(digits, mark)
    requires Stripped(digits, mark) == result && result != "" && result != "."
    ensures ParsedDigits(digits, decimalMode) == Some(result)
  {
  }

  /** Two pieces of digits around one separator: which mark is read. */
  lemma SingleMark(a: string, c: char, b: string, decimalMode: bool)
    requires Digits(a) && a != "" && Digits(b) && (c == ',' || c == '.')
    ensures var grouping := !decimalMode && |a| <= 3 && |b| == 3;
            DecimalMark(a + [c] + b, decimalMode) == Some(if grouping then ' ' else c)
  {
    var digits := a + [c] + b;
    DigitsHoldNoMark(a);
    DigitsHoldNoMark(b);
    assert Other(c) !in digits;
    FirstIndexAfter(a, c, b);
    LastIndexAfter(a, c, b);
    OneOccurrence(a, c, b);
  }

  /** ... and why it fits. */
  lemma SingleMarkFits(a: string, c: char, b: string)
    requires Digits(a) && a != "" && Digits(b) && (c == ',' || c == '.')
    ensures c in a + [c] + b && MarkFits(a + [c] + b, c)
  {
    var digits := a + [c] + b;
    DigitsHoldNoMark(a);
    DigitsHoldNoMark(b);
    LastIndexAfter(a, c, b);
    assert digits[|a|] == c;
    assert digits[..|a|] == a && digits[|a| + 1..] == b;
  }

  /** What is left when the separator is the decimal mark, and when it only groups. */
  lemma SingleMarkStripped(a: string, c: char, b: string)
    requires Digits(a) && Digits(b) && (c == ',' || c == '.')
    ensures Stripped(a + [c] + b, c) == a + "." + b
    ensures Stripped(a + [c] + b, ' ') == a + b
  {
    var digits := a + [c] + b;
    DigitsHoldNoMark(a);
    DigitsHoldNoMark(b);
    assert Other(c) !in digits;
    WithoutAbsent(digits, Other(c));
    WithoutMark(a, c, b);
    WithoutAbsent(a + b, '.');
    if c == ',' {
      FirstIndexAfter(a, ',', b);
      assert digits[..|a|] == a && digits[|a| + 1..] == b;
    }
  }

  /** Two pieces of digits around one separator: what they are read as. */
  lemma ParseSingleMark(a: string, c: char, b: string, decimalMode: bool)
    requires Digits(a) && a != "" && Digits(b) && (c == ',' || c == '.')
    ensures ParsedDigits(a + [c] + b, decimalMode)
      == Some(if !decimalMode && |a| <= 3 && |b| == 3 then a + b else a + "." + b)
  {
    var digits := a + [c] + b;
    SingleMark(a, c, b, decimalMode);
    SingleMarkFits(a, c, b);
    SingleMarkStripped(a, c, b);
    if !decimalMode && |a| <= 3 && |b| == 3 {
      ParsedWithMark(digits, decimalMode, ' ', a + b);
    } else {
      ParsedWithMark(digits, decimalMode, c, a + "." + b);
    }
  }

  lemma DotAfterCommas(g: string, f: string, decimalMode: bool)
    requires ',' in g && Digits(f)
    ensures DecimalMark(g + "." + f, decimalMode) == Some('.')
  {
    var digits := g + "." + f;
    DigitsHoldNoMark(f);
    LastIndexAfter(g, '.', f);
    assert ',' in digits;
    assert LastIndex(digits, ',') < |g|;
  }

  lemma DotFits(g: string, f: string)
    requires Digits(f) && IsGroupedInteger(g, ',')
    ensures '.' in g + "." + f && MarkFits(g + "." + f, '.')
  {
    hide IsGroupedInteger;
    var digits := g + "." + f;
    DigitsHoldNoMark(f);
    LastIndexAfter(g, '.', f);
    assert digits[|g|] == '.';
    assert digits[..|g|] == g && digits[|g| + 1..] == f;
  }

  lemma CommasOut(g: string, f: string)
    requires Digits(f)
    ensures Dropped(g + "." + f, ',') == Dropped(g, ',') + "." + f
  {
    DigitsHoldNoMark(f);
    FilterConcat(g + ".", f, c => c != ',');
    FilterConcat(g, ".", c => c != ',');
    WithoutAbsent(f, ',');
  }

  /** A grouped number with a fraction: comma and dot leave no doubt. */
  lemma ParseGroupedFraction(g: string, whole: string, f: string, decimalMode: bool)
    requires Digits(f) && whole != "" && Dropped(g, ',') == whole && IsGroupedInteger(g, ',') && ',' in g
    ensures ParsedDigits(g + "." + f, decimalMode) == Some(whole + "." + f)
  {
    hide ParsedDigits, DecimalMark, IsGroupedInteger, MarkFits, Dropped;
    DotAfterCommas(g, f, decimalMode);
    DotFits(g, f);
    CommasOut(g, f);
    ParsedWithMark(g + "." + f, decimalMode, '.', whole + "." + f);
  }

  lemma CommasOnly(g: string, decimalMode: bool)
    requires '.' !in g && ',' in g && Occurrences(g, ',') != 1 && IsGroupedInteger(g, ',')
    ensures DecimalMark(g, decimalMode) == Some(' ')
  {
  }

  /** A grouped integer: one comma could be a decimal comma, more cannot. */
  lemma ParseGrouped(whole: string, decimalMode: bool)
    requires Digits(whole) && |whole| > 3
    ensures ParsedDigits(GroupedInteger(whole), decimalMode)
      == Some(if decimalMode && |whole| <= 5 then whole[..|whole| - 3] + "." + whole[|whole| - 3..] else whole)
  {
    hide ParsedDigits, GroupedInteger, IsGroupedInteger, DecimalMark;
    var g := GroupedInteger(whole);
    GroupedCommas(whole);
    if |whole| <= 5 {
      var a, b := whole[..|whole| - 3], whole[|whole| - 3..];
      assert a + b == whole;
      ParseSingleMark(a, ',', b, decimalMode);
    } else {
      GroupedShape(whole);
      CommasOnly(g, decimalMode);
      DigitsHoldNoMark(whole);
      WithoutAbsent(whole, '.');
      ParsedWithMark(g, decimalMode, ' ', whole);
    }
  }

  lemma ParsePlain(whole: string, decimalMode: bool)
    requires Digits(whole) && whole != ""
    ensures ParsedDigits(whole, decimalMode) == Some(whole)
  {
    DigitsHoldNoMark(whole);
    WithoutAbsent(whole, ',');
    WithoutAbsent(whole, '.');
    assert whole[0] in whole;
  }

  /** The renderings the parser reads as another number. */
  predicate Ambiguous(whole: string, frac: Option<string>, decimalMode: bool) {
    if decimalMode then frac.None? && 4 <= |whole| <= 5
    else |whole| <= 3 && frac.Some? && |frac.value| == 3
  }

  /** ... and the number they are read as: a decimal comma for a grouping one, or the reverse. */
  function Misread(whole: string, frac: Option<string>): string {
    if frac.Some? then whole + frac.value
    else if |whole| > 3 then whole[..|whole| - 3] + "." + whole[|whole| - 3..] else whole
  }

  /** What every rendering is read as. */
  lemma ParsedOfRendered(whole: string, frac: Option<string>, decimalMode: bool)
    requires DecimalParts(whole, frac)
    ensures ParsedDigits(Rendered(whole, frac), decimalMode)
      == Some(if Ambiguous(whole, frac, decimalMode) then Misread(whole, frac) else Canonical(false, whole, frac))
  {
    var g := GroupedInteger(whole);
    if frac.None? {
      assert Rendered(whole, frac) == g && Canonical(false, whole, frac) == whole;
      if |whole| <= 3 {
        ParsePlain(whole, decimalMode);
      } else {
        ParseGrouped(whole, decimalMode);
      }
    } else {
      var f := frac.value;
      assert Rendered(whole, frac) == g + "." + f && Canonical(false, whole, frac) == whole + "." + f;
      if |whole| <= 3 {
        ParseSingleMark(whole, '.', f, decimalMode);
      } else {
        GroupedShape(whole);
        ParseGroupedFraction(g, whole, f, decimalMode);
      }
    }
  }

  lemma MisreadDiffers(whole: string, frac: Option<string>, decimalMode: bool)
    requires Ambiguous(whole, frac, decimalMode)
    ensures |Misread(whole, frac)| != |Canonical(false, whole, frac)|
  {
  }

  /**
   * The number codec round trip, in both single-separator modes and for every canonical decimal:
   * normalising the Indian grouping gives back the same string exactly when the rendering is not
   * ambiguous. In the default mode that excludes only three-digit fractions of numbers below a
   * thousand; in decimal mode only whole numbers of four or five digits.
   */
  lemma NormaliseUndoesGroupingIffUnambiguous(neg: bool, whole: string, frac: Option<string>, decimalMode: bool)
    requires DecimalParts(whole, frac)
    ensures Normalised(GroupIndian(Canonical(neg, whole, frac)), true, decimalMode)
      == Some(if Ambiguous(whole, frac, decimalMode) then Sign(neg) + Misread(whole, frac)
              else Canonical(neg, whole, frac))
    ensures Normalised(GroupIndian(Canonical(neg, whole, frac)), true, decimalMode) == Some(Canonical(neg, whole, frac))
      <==> !Ambiguous(whole, frac, decimalMode)
  {
    GroupIndianOfCanonical(neg, whole, frac);
    RenderedShape(whole, frac);
    NormalisedIsParsed(neg, Rendered(whole, frac), decimalMode);
    ParsedOfRendered(whole, frac, decimalMode);
    SignedCanonical(neg, whole, frac);
    if Ambiguous(whole, frac, decimalMode) {
      MisreadDiffers(whole, frac, decimalMode);
    }
  }

  lemma SignedCanonical(neg: bool, whole: string, frac: Option<string>)
    ensures Canonical(neg, whole, frac) == Sign(neg) + Canonical(false, whole, frac)
  {
  }
}
