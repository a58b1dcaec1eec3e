/** Which number every typed text is read as, stated on its groups of digits (frontend/src/lib/formNumbers.ts). */
module NumberReadings {
  import opened Sequences
  import opened FormNumbers

  /** A separator and the digits after it. */
  datatype Piece = Piece(separator: char, digits: string)

  predicate ArePieces(tail: seq<Piece>) {
    forall i :: 0 <= i < |tail| ==> (tail[i].separator == ',' || tail[i].separator == '.') && Digits(tail[i].digits)
  }

  function Text(tail: seq<Piece>): string {
    if tail == [] then "" else [tail[0].separator] + tail[0].digits + Text(tail[1..])
  }

  function Joined(tail: seq<Piece>): string {
    if tail == [] then "" else tail[0].digits + Joined(tail[1..])
  }

  /** Digits, then any number of separators with digits, or none, after each. */
  predicate IsNumeral(head: string, tail: seq<Piece>) {
    head != "" && Digits(head) && ArePieces(tail)
  }

  predicate AllBy(tail: seq<Piece>, c: char) {
    forall i :: 0 <= i < |tail| ==> tail[i].separator == c
  }

  predicate Threes(tail: seq<Piece>) {
    tail != [] && forall i :: 0 <= i < |tail| ==> |tail[i].digits| == 3
  }

  predicate PairsThenThree(tail: seq<Piece>) {
    && |tail| >= 2 && |tail[|tail| - 1].digits| == 3
    && forall i :: 0 <= i < |tail| - 1 ==> |tail[i].digits| == 2
  }

  /** One to three digits, then groups of three, or pairs and a last group of three. */
  predicate Grouping(head: string, tail: seq<Piece>) {
    1 <= |head| <= 3 && (Threes(tail) || PairsThenThree(tail))
  }

  /** The number a numeral stands for; None when it is not one. */
  function Reading(head: string, tail: seq<Piece>, decimalMode: bool): Option<string> {
    if tail == [] then Some(head)
    else
      var n := |tail| - 1;
      var init, last := tail[..n], tail[n];
      if n == 0 then
        Some(if !decimalMode && |head| <= 3 && |last.digits| == 3 then head + last.digits else head + "." + last.digits)
      else if AllBy(init, last.separator) then
        if Grouping(head, tail) then Some(head + Joined(tail)) else None
      else if AllBy(init, Other(last.separator)) && Grouping(head, init) then
        Some(head + Joined(init) + "." + last.digits)
      else None
  }

  // ----- numerals as text -----

  lemma TextCons(p: Piece, rest: seq<Piece>)
    ensures Text([p] + rest) == [p.separator] + p.digits + Text(rest) && Joined([p] + rest) == p.digits + Joined(rest)
  {
    assert ([p] + rest)[1..] == rest;
  }

  lemma {:induction false} TextConcat(xs: seq<Piece>, ys: seq<Piece>)
    ensures Text(xs + ys) == Text(xs) + Text(ys) && Joined(xs + ys) == Joined(xs) + Joined(ys)
  {
    hide Text, Joined;
    if xs == [] {
      assert xs + ys == ys;
      EmptyText();
    } else {
      var p, rest := xs[0], xs[1..];
      TextConcat(rest, ys);
      TextCons(p, rest);
      TextCons(p, rest + ys);
      assert xs == [p] + rest && xs + ys == [p] + (rest + ys);
    }
  }

  lemma EmptyText()
    ensures Text([]) == "" && Joined([]) == ""
  {
  }

  lemma LastPiece(head: string, tail: seq<Piece>)
    requires tail != []
    ensures var init, last := tail[..|tail| - 1], tail[|tail| - 1];
            && head + Text(tail) == (head + Text(init)) + [last.separator] + last.digits
            && Joined(tail) == Joined(init) + last.digits
  {
    var init, last := tail[..|tail| - 1], tail[|tail| - 1];
    assert tail == init + [last] && [last][1..] == [];
    TextConcat(init, [last]);
  }

  lemma {:induction false} TextChars(tail: seq<Piece>)
    requires ArePieces(tail)
    ensures forall c :: c in Text(tail) ==> IsDigit(c) || c == ',' || c == '.'
    ensures forall i :: 0 <= i < |tail| ==> tail[i].separator in Text(tail)
    ensures forall c :: (c == ',' || c == '.') && AllBy(tail, c) ==> Other(c) !in Text(tail)
    ensures Digits(Joined(tail))
  {
    if tail != [] {
      var rest := tail[1..];
      assert forall i :: 0 <= i < |rest| ==> rest[i] == tail[i + 1];
      TextChars(rest);
      forall i | 0 <= i < |tail|
        ensures tail[i].separator in Text(tail)
      {
        if i > 0 {
          assert tail[i] == rest[i - 1];
        }
      }
    }
  }

  lemma {:induction false} SeparatorsCounted(tail: seq<Piece>, c: char)
    requires ArePieces(tail) && AllBy(tail, c) && (c == ',' || c == '.')
    ensures Occurrences(Text(tail), c) == |tail|
  {
    if tail != [] {
      var rest := tail[1..];
      assert forall i :: 0 <= i < |rest| ==> rest[i] == tail[i + 1];
      SeparatorsCounted(rest, c);
      DigitsHoldNoMark(tail[0].digits);
      NoOccurrence(tail[0].digits, c);
      CountConcatenated([c] + tail[0].digits, Text(rest), c);
      CountConcatenated([c], tail[0].digits, c);
    }
  }

  lemma {:induction false} SeparatorsDropped(tail: seq<Piece>, c: char)
    requires ArePieces(tail) && AllBy(tail, c) && (c == ',' || c == '.')
    ensures Dropped(Text(tail), c) == Joined(tail)
  {
    if tail != [] {
      var rest := tail[1..];
      assert forall i :: 0 <= i < |rest| ==> rest[i] == tail[i + 1];
      SeparatorsDropped(rest, c);
      DigitsHoldNoMark(tail[0].digits);
      FilterConcat([c] + tail[0].digits, Text(rest), d => d != c);
      FilterConcat([c], tail[0].digits, d => d != c);
      WithoutAbsent(tail[0].digits, c);
    }
  }

  /** Every text of the right shape is a numeral. */
  lemma {:induction false} ShapedIsNumeral(s: string) returns (head: string, tail: seq<Piece>)
    requires WellShaped(s)
    ensures IsNumeral(head, tail) && s == head + Text(tail)
    decreases |s|
  {
    hide Text, IsNumeral;
    var n := |s| - 1;
    var init, last := s[..n], s[n];
    assert last in s && s == init + [last];
    if n == 0 {
      head, tail := s, [];
      JustDigits(s);
    } else {
      assert init[0] == s[0] && forall c :: c in init ==> c in s;
      head, tail := ShapedIsNumeral(init);
      head, tail := OneMoreChar(head, tail, last);
    }
  }

  lemma JustDigits(s: string)
    requires s != "" && Digits(s)
    ensures IsNumeral(s, []) && s + Text([]) == s
  {
  }

  lemma OneMoreChar(head: string, tail: seq<Piece>, c: char) returns (head': string, tail': seq<Piece>)
    requires IsNumeral(head, tail) && (IsDigit(c) || c == ',' || c == '.')
    ensures IsNumeral(head', tail') && head' + Text(tail') == head + Text(tail) + [c]
  {
    hide Text;
    head', tail' := head, tail;
    if !IsDigit(c) {
      tail' := tail + [Piece(c, "")];
      OneMoreSeparator(head, tail, c);
    } else if tail == [] {
      EmptyText();
      head' := head + [c];
      assert head + "" == head && head' + "" == head';
    } else {
      var n := |tail| - 1;
      tail' := tail[..n] + [Piece(tail[n].separator, tail[n].digits + [c])];
      OneMoreDigit(head, tail, c);
    }
  }

  lemma PieceAdded(head: string, before: seq<Piece>, p: Piece)
    ensures head + Text(before + [p]) == head + Text(before) + [p.separator] + p.digits
  {
    LastPiece(head, before + [p]);
    assert (before + [p])[..|before|] == before;
  }

  lemma Regrouped(a: string, b: string, c: string)
    ensures a + (b + c) == a + b + c && a + "" == a
  {
  }

  lemma OneMoreSeparator(head: string, tail: seq<Piece>, c: char)
    ensures head + Text(tail + [Piece(c, "")]) == head + Text(tail) + [c]
  {
    hide *;
    PieceAdded(head, tail, Piece(c, ""));
    Regrouped(head + Text(tail) + [c], "", "");
  }

  lemma OneMoreDigit(head: string, tail: seq<Piece>, c: char)
    requires tail != []
    ensures var n := |tail| - 1;
            head + Text(tail[..n] + [Piece(tail[n].separator, tail[n].digits + [c])]) == head + Text(tail) + [c]
  {
    hide *;
    var n := |tail| - 1;
    var before, p := tail[..n], tail[n];
    assert tail == before + [p];
    PieceAdded(head, before, p);
    PieceAdded(head, before, Piece(p.separator, p.digits + [c]));
    Regrouped(head + Text(before) + [p.separator], p.digits, [c]);
  }

  // ----- groupings -----

  /** n digits, and then the end or a separator. */
  predicate StartsWithGroup(s: string, n: nat) {
    |s| >= n + 1 && Digits(s[1..n + 1]) && (|s| > n + 1 ==> !IsDigit(s[n + 1]))
  }

  lemma FirstGroup(tail: seq<Piece>, n: nat)
    requires ArePieces(tail) && tail != []
    ensures Text(tail) != "" && Text(tail)[0] == tail[0].separator
    ensures StartsWithGroup(Text(tail), n) <==> |tail[0].digits| == n
    ensures |tail[0].digits| == n ==> |Text(tail)| == n + 1 + |Text(tail[1..])| && Text(tail)[n + 1..] == Text(tail[1..])
  {
    var s, d, rest := Text(tail), tail[0].digits, Text(tail[1..]);
    assert s == [tail[0].separator] + d + rest;
    if rest != "" {
      assert tail[1..] != [] && rest[0] == tail[1].separator && !IsDigit(rest[0]);
    }
    if |d| == n {
      assert s[1..n + 1] == d;
    } else if n < |d| {
      assert s[n + 1] == d[n] && d[n] in d;
    } else if |s| >= n + 1 {
      assert s[1..n + 1][|d|] == rest[0] && rest[0] in s[1..n + 1];
    }
  }

  lemma RestOfPieces(tail: seq<Piece>)
    requires tail != []
    ensures ArePieces(tail) ==> ArePieces(tail[1..])
    ensures forall c :: AllBy(tail, c) <==> tail[0].separator == c && AllBy(tail[1..], c)
    ensures forall n :: Sized(tail, n) <==> |tail[0].digits| == n && Sized(tail[1..], n)
    ensures Text(tail[1..]) == "" <==> tail[1..] == []
  {
    assert forall i :: 0 <= i < |tail[1..]| ==> tail[1..][i] == tail[i + 1];
    assert forall i :: 0 < i < |tail| ==> tail[i] == tail[1..][i - 1];
  }

  predicate Sized(tail: seq<Piece>, n: nat) {
    forall i :: 0 <= i < |tail| ==> |tail[i].digits| == n
  }

  lemma GroupsOfStep(s: string, c: char, n: nat)
    requires c == ',' || c == '.'
    ensures GroupsOf(s, c, n) <==>
              |s| >= 1 && s[0] == c && StartsWithGroup(s, n) && (|s| == n + 1 || GroupsOf(s[n + 1..], c, n))
  {
  }

  lemma {:induction false} GroupsAreSizes(tail: seq<Piece>, c: char, n: nat)
    requires ArePieces(tail) && (c == ',' || c == '.')
    ensures GroupsOf(Text(tail), c, n) <==> tail != [] && AllBy(tail, c) && Sized(tail, n)
  {
    hide GroupsOf, Text, AllBy, Sized, ArePieces, StartsWithGroup;
    GroupsOfStep(Text(tail), c, n);
    if tail == [] {
      EmptyText();
    } else {
      FirstGroup(tail, n);
      RestOfPieces(tail);
      GroupsAreSizes(tail[1..], c, n);
      NoneSized(c, n);
    }
  }

  lemma NoneSized(c: char, n: nat)
    ensures AllBy([], c) && Sized([], n)
  {
  }

  lemma IndianTailStep(s: string, c: char)
    requires c == ',' || c == '.'
    ensures IndianTail(s, c) <==>
              |s| >= 1 && s[0] == c && StartsWithGroup(s, 2)
              && ((|s| == 7 && GroupsOf(s[3..], c, 3)) || IndianTail(s[3..], c))
  {
  }

  /** Pairs, at least one, and a last group of three. */
  predicate Pairs(tail: seq<Piece>) {
    |tail| >= 2 && |tail[0].digits| == 2 && (if |tail| == 2 then |tail[1].digits| == 3 else Pairs(tail[1..]))
  }

  lemma {:induction false} PairsAreSizes(tail: seq<Piece>)
    ensures Pairs(tail) <==> PairsThenThree(tail)
  {
    if |tail| >= 3 {
      PairsAreSizes(tail[1..]);
      assert forall i :: 0 <= i < |tail[1..]| ==> tail[1..][i] == tail[i + 1];
      assert forall i :: 0 < i < |tail| ==> tail[i] == tail[1..][i - 1];
    }
  }

  lemma {:induction false} IndianTailIsPairs(tail: seq<Piece>, c: char)
    requires ArePieces(tail) && (c == ',' || c == '.')
    ensures IndianTail(Text(tail), c) <==> AllBy(tail, c) && Pairs(tail)
  {
    hide GroupsOf, IndianTail, Text, AllBy, Sized, ArePieces, StartsWithGroup;
    IndianTailStep(Text(tail), c);
    if tail == [] {
      EmptyText();
    } else {
      var rest := tail[1..];
      FirstGroup(tail, 2);
      RestOfPieces(tail);
      IndianTailIsPairs(rest, c);
      GroupsAreSizes(rest, c, 3);
      if rest != [] {
        FirstGroup(rest, 3);
        RestOfPieces(rest);
        NoneSized(c, 3);
        assert |tail| == 2 <==> rest[1..] == [];
      }
    }
  }

  lemma GroupsStartAtTheSeparator(s: string, c: char)
    ensures GroupsOf(s, c, 3) || IndianTail(s, c) ==> s != "" && s[0] == c
  {
  }

  /** The head ends at the first separator. */
  lemma HeadEnds(head: string, text: string, c: char, h: nat)
    requires Digits(head) && text != "" && text[0] == c && !IsDigit(c)
    requires h < |head + text| && Digits((head + text)[..h]) && (head + text)[h] == c
    ensures h == |head|
  {
    var s := head + text;
    assert s[|head|] == c;
    assert forall k :: 0 <= k < |head| ==> s[k] == head[k] && head[k] in head;
    assert forall k :: 0 <= k < h ==> s[..h][k] == s[k] && s[k] in s[..h];
  }

  lemma GroupedMeansGrouping(head: string, tail: seq<Piece>, c: char)
    requires IsNumeral(head, tail) && tail != [] && (c == ',' || c == '.') && tail[0].separator == c
    ensures IsGroupedInteger(head + Text(tail), c) <==> AllBy(tail, c) && Grouping(head, tail)
  {
    hide GroupsOf, IndianTail, AllBy, Text, Pairs, PairsThenThree;
    var s := head + Text(tail);
    GroupsAreSizes(tail, c, 3);
    IndianTailIsPairs(tail, c);
    PairsAreSizes(tail);
    FirstGroup(tail, 3);
    assert s[|head|] == c && s[..|head|] == head && s[|head|..] == Text(tail);
    forall h | 1 <= h <= 3 && h <= |s| && Digits(s[..h]) && (GroupsOf(s[h..], c, 3) || IndianTail(s[h..], c))
      ensures h == |head|
    {
      GroupsStartAtTheSeparator(s[h..], c);
      HeadEnds(head, Text(tail), c, h);
    }
  }

  // ----- what a numeral is read as -----

  lemma NumeralShape(head: string, tail: seq<Piece>)
    requires IsNumeral(head, tail)
    ensures WellShaped(head + Text(tail)) && '-' !in head + Text(tail) && forall c :: c in head + Text(tail) ==> Kept(c)
  {
    TextChars(tail);
    var s := head + Text(tail);
    assert s[0] == head[0] && head[0] in head;
    assert forall c :: c in s ==> c in head || c in Text(tail);
  }

  /** One kind of separator, two or more of them: only a grouping is a number. */
  lemma ReadOneKind(head: string, tail: seq<Piece>, c: char, decimalMode: bool)
    requires IsNumeral(head, tail) && |tail| >= 2 && (c == ',' || c == '.') && AllBy(tail, c)
    ensures ParsedDigits(head + Text(tail), decimalMode) == if Grouping(head, tail) then Some(head + Joined(tail)) else None
  {
    hide ParsedDigits, IsGroupedInteger, Text, Joined, Grouping;
    var s := head + Text(tail);
    OneKindMark(head, tail, c, decimalMode);
    GroupedMeansGrouping(head, tail, c);
    OneKindStripped(head, tail, c);
    if Grouping(head, tail) {
      ParsedWithMark(s, decimalMode, ' ', head + Joined(tail));
    } else {
      NoMark(s, decimalMode);
    }
  }

  lemma NoMark(s: string, decimalMode: bool)
    requires var mark := DecimalMark(s, decimalMode); mark.None? || (mark.value in s && !MarkFits(s, mark.value))
    ensures ParsedDigits(s, decimalMode).None?
  {
  }

  lemma OneKindMark(head: string, tail: seq<Piece>, c: char, decimalMode: bool)
    requires IsNumeral(head, tail) && |tail| >= 2 && (c == ',' || c == '.') && AllBy(tail, c)
    ensures var s := head + Text(tail);
            DecimalMark(s, decimalMode) == if IsGroupedInteger(s, c) then Some(' ') else None
  {
    hide IsGroupedInteger, Text;
    var s := head + Text(tail);
    TextChars(tail);
    SeparatorsCounted(tail, c);
    DigitsHoldNoMark(head);
    NoOccurrence(head, c);
    CountConcatenated(head, Text(tail), c);
    assert tail[0].separator in Text(tail);
    assert c in s && Other(c) !in s;
    MarkOfOneKind(s, c, decimalMode);
  }

  lemma MarkOfOneKind(s: string, c: char, decimalMode: bool)
    requires (c == ',' || c == '.') && c in s && Other(c) !in s && Occurrences(s, c) >= 2
    ensures DecimalMark(s, decimalMode) == if IsGroupedInteger(s, c) then Some(' ') else None
  {
    hide IsGroupedInteger;
  }

  lemma HeadDropped(head: string, tail: seq<Piece>, c: char)
    requires IsNumeral(head, tail) && (c == ',' || c == '.') && AllBy(tail, c)
    ensures Dropped(head + Text(tail), c) == head + Joined(tail)
    ensures Other(c) !in head + Text(tail)
  {
    SeparatorsDropped(tail, c);
    DigitsHoldNoMark(head);
    FilterConcat(head, Text(tail), d => d != c);
    WithoutAbsent(head, c);
    TextChars(tail);
  }

  lemma OneKindStripped(head: string, tail: seq<Piece>, c: char)
    requires IsNumeral(head, tail) && (c == ',' || c == '.') && AllBy(tail, c)
    ensures Stripped(head + Text(tail), ' ') == head + Joined(tail) && head + Joined(tail) != "" && head + Joined(tail) != "."
  {
    var s := head + Text(tail);
    HeadDropped(head, tail, c);
    TextChars(tail);
    DigitsHoldNoMark(head + Joined(tail));
    WithoutAbsent(head + Joined(tail), Other(c));
    WithoutAbsent(s, Other(c));
    assert head[0] in head;
  }

  /** Both kinds of separator: the last one is the mark, and a grouping by the other must stand in front of it. */
  lemma ReadTwoKinds(head: string, init: seq<Piece>, last: Piece, decimalMode: bool)
    requires IsNumeral(head, init + [last]) && !AllBy(init, last.separator)
    ensures ParsedDigits(head + Text(init + [last]), decimalMode)
         == if AllBy(init, Other(last.separator)) && Grouping(head, init) then Some(head + Joined(init) + "." + last.digits)
            else None
  {
    hide ParsedDigits, IsGroupedInteger, Text, Joined, Grouping, DecimalMark, MarkFits, Stripped;
    var mark, f := last.separator, last.digits;
    var a := head + Text(init);
    var s := head + Text(init + [last]);
    assert ArePieces(init) && (mark == ',' || mark == '.') && Digits(f) by {
      assert (init + [last])[|init|] == last;
      assert forall i :: 0 <= i < |init| ==> (init + [last])[i] == init[i];
    }
    LastPiece(head, init + [last]);
    assert (init + [last])[..|init|] == init && s == a + [mark] + f;
    TextChars(init);
    var i :| 0 <= i < |init| && init[i].separator != mark;
    assert init[i].separator == Other(mark) && Other(mark) in a;
    TwoKindsMark(a, mark, f, decimalMode);
    TwoKindsFit(a, mark, f);
    if IsGroupedInteger(a, Other(mark)) {
      TwoKindsGrouped(head, init, Other(mark));
      HeadDropped(head, init, Other(mark));
      TwoKindsStripped(a, mark, f, head + Joined(init));
      ParsedWithMark(s, decimalMode, mark, head + Joined(init) + "." + f);
    } else {
      TwoKindsGrouped(head, init, Other(mark));
      NoMark(s, decimalMode);
    }
  }

  /** Only a text whose separators are all of one kind is grouped by it. */
  lemma TwoKindsGrouped(head: string, init: seq<Piece>, c: char)
    requires IsNumeral(head, init) && init != [] && (c == ',' || c == '.') && c in head + Text(init)
    ensures IsGroupedInteger(head + Text(init), c) <==> AllBy(init, c) && Grouping(head, init)
  {
    hide GroupsOf, IndianTail, Text;
    if init[0].separator == c {
      GroupedMeansGrouping(head, init, c);
    } else {
      var s := head + Text(init);
      FirstGroup(init, 0);
      GroupedHeads(s, c, |head|);
      assert s[|head|] == init[0].separator;
      assert forall k :: 0 <= k < |head| ==> s[k] == head[k] && head[k] in head;
    }
  }

  /** What is grouped by c has c after its first digits. */
  lemma GroupedHeads(s: string, c: char, n: nat)
    requires c in s && n < |s| && !IsDigit(s[n]) && s[n] != c && forall k :: 0 <= k < n ==> IsDigit(s[k])
    requires c == ',' || c == '.'
    ensures !IsGroupedInteger(s, c)
  {
    hide GroupsOf, IndianTail;
    forall h | 1 <= h <= 3 && h <= |s| && Digits(s[..h])
      ensures !GroupsOf(s[h..], c, 3) && !IndianTail(s[h..], c)
    {
      assert forall k :: 0 <= k < h ==> s[..h][k] == s[k] && s[k] in s[..h];
      GroupsStartAtTheSeparator(s[h..], c);
    }
  }

  lemma TwoKindsMark(a: string, mark: char, f: string, decimalMode: bool)
    requires (mark == ',' || mark == '.') && Digits(f) && Other(mark) in a
    ensures mark in a + [mark] + f && DecimalMark(a + [mark] + f, decimalMode) == Some(mark)
  {
    var s := a + [mark] + f;
    DigitsHoldNoMark(f);
    LastIndexAfter(a, mark, f);
    assert s[|a|] == mark;
    var i :| 0 <= i < |a| && a[i] == Other(mark);
    assert s[i] == Other(mark);
    assert forall k :: |a| <= k < |s| ==> s[k] == mark || s[k] in f;
  }

  lemma TwoKindsFit(a: string, mark: char, f: string)
    requires (mark == ',' || mark == '.') && Digits(f)
    ensures mark in a + [mark] + f
    ensures MarkFits(a + [mark] + f, mark) <==> IsGroupedInteger(a, Other(mark))
  {
    hide IsGroupedInteger;
    var s := a + [mark] + f;
    DigitsHoldNoMark(f);
    LastIndexAfter(a, mark, f);
    assert s[|a|] == mark && s[..|a|] == a && s[|a| + 1..] == f;
  }

  lemma TwoKindsStripped(a: string, mark: char, f: string, whole: string)
    requires (mark == ',' || mark == '.') && Digits(f) && Dropped(a, Other(mark)) == whole && Digits(whole) && whole != ""
    ensures Stripped(a + [mark] + f, mark) == whole + "." + f && whole + "." + f != "" && whole + "." + f != "."
  {
    var s := a + [mark] + f;
    DigitsHoldNoMark(f);
    DigitsHoldNoMark(whole);
    FilterConcat(a + [mark], f, d => d != Other(mark));
    FilterConcat(a, [mark], d => d != Other(mark));
    WithoutAbsent(f, Other(mark));
    assert Dropped(s, Other(mark)) == whole + [mark] + f;
    if mark == ',' {
      FirstIndexAfter(whole, ',', f);
      assert (whole + [mark] + f)[..|whole|] == whole && (whole + [mark] + f)[|whole| + 1..] == f;
    }
  }

  /** Every numeral is read as the number it stands for. */
  lemma ParsedIsReading(head: string, tail: seq<Piece>, decimalMode: bool)
    requires IsNumeral(head, tail)
    ensures ParsedDigits(head + Text(tail), decimalMode) == Reading(head, tail, decimalMode)
  {
    hide ParsedDigits, Text, Joined, Grouping;
    if tail == [] {
      EmptyText();
      assert head + "" == head;
      ParsePlain(head, decimalMode);
    } else {
      var n := |tail| - 1;
      var init, last := tail[..n], tail[n];
      assert tail == init + [last];
      if n == 0 {
        LastPiece(head, tail);
        EmptyText();
        assert init == [] && head + "" == head;
        ParseSingleMark(head, last.separator, last.digits, decimalMode);
      } else if AllBy(init, last.separator) {
        ReadOneKind(head, tail, last.separator, decimalMode);
      } else {
        ReadTwoKinds(head, init, last, decimalMode);
      }
    }
  }

  // ----- the whole reader -----

  /** White space and underscores anywhere do not count. */
  lemma SpacesDoNotCount(a: string, c: char, b: string, allowNegative: bool, decimalMode: bool)
    requires c == ' ' || c == '\t' || c == '\n' || c == '\r' || c == '\U{A0}' || c == '_'
    ensures Normalised(a + [c] + b, allowNegative, decimalMode) == Normalised(a + b, allowNegative, decimalMode)
  {
    assert !Kept(c);
    hide *;
    FilterConcat(a + [c], b, Kept);
    FilterConcat(a, [c], Kept);
    FilterConcat(a, b, Kept);
    FilterNone([c], Kept);
    assert Filter(a, Kept) + [] == Filter(a, Kept);
    SameMeant(a + [c] + b, a + b, allowNegative, decimalMode);
  }

  lemma SameMeant(raw: string, other: string, allowNegative: bool, decimalMode: bool)
    requires Filter(raw, Kept) == Filter(other, Kept)
    ensures Normalised(raw, allowNegative, decimalMode) == Normalised(other, allowNegative, decimalMode)
  {
    hide DecimalMark, MarkFits, Stripped, WellShaped;
  }

  /**
   * Every text, in every mode. Nothing at all is zero. A sign, where one is allowed, and a numeral are the signed number the
   * numeral stands for, if it stands for one. Nothing else is a number.
   */
  lemma NormalisedIsReading(raw: string, allowNegative: bool, decimalMode: bool)
    requires forall c :: c in raw ==> !IsSpace(c) && c != '_'
    ensures raw == "" ==> Normalised(raw, allowNegative, decimalMode) == Some("0")
    ensures forall neg, head, tail :: IsNumeral(head, tail) && raw == Sign(neg) + (head + Text(tail)) ==>
              Normalised(raw, allowNegative, decimalMode)
                == if neg && !allowNegative then None else Signed(neg, Reading(head, tail, decimalMode))
    ensures raw != "" && Normalised(raw, allowNegative, decimalMode).Some? ==>
              exists neg, head, tail :: IsNumeral(head, tail) && raw == Sign(neg) + (head + Text(tail))
  {
    hide *;
    NothingIsZero(allowNegative, decimalMode);
    forall neg, head, tail | IsNumeral(head, tail) && raw == Sign(neg) + (head + Text(tail))
      ensures Normalised(raw, allowNegative, decimalMode)
           == if neg && !allowNegative then None else Signed(neg, Reading(head, tail, decimalMode))
    {
      SignedNumeral(neg, head, tail, allowNegative, decimalMode);
    }
    if raw != "" && Normalised(raw, allowNegative, decimalMode).Some? {
      var neg, digits := ReadTextsAreShaped(raw, allowNegative, decimalMode);
      var head, tail := ShapedIsNumeral(digits);
    }
  }

  lemma NothingIsZero(allowNegative: bool, decimalMode: bool)
    ensures Normalised("", allowNegative, decimalMode) == Some("0")
  {
  }

  lemma ReadTextsAreShaped(raw: string, allowNegative: bool, decimalMode: bool) returns (neg: bool, digits: string)
    requires raw != "" && forall c :: c in raw ==> !IsSpace(c) && c != '_'
    requires Normalised(raw, allowNegative, decimalMode).Some?
    ensures raw == Sign(neg) + digits && WellShaped(digits)
  {
    hide DecimalMark, MarkFits, Stripped;
    FilterAll(raw, Kept);
    neg := raw[0] == '-';
    digits := if neg then raw[1..] else raw;
  }

  lemma SignedNumeral(neg: bool, head: string, tail: seq<Piece>, allowNegative: bool, decimalMode: bool)
    requires IsNumeral(head, tail)
    ensures Normalised(Sign(neg) + (head + Text(tail)), allowNegative, decimalMode)
         == if neg && !allowNegative then None else Signed(neg, Reading(head, tail, decimalMode))
  {
    hide ParsedDigits, Reading, Text;
    var s := head + Text(tail);
    NumeralShape(head, tail);
    ParsedIsReading(head, tail, decimalMode);
    NormalisedIsParsed(neg, s, decimalMode);
    SignComesOff(neg, s);
    FilterAll(Sign(neg) + s, Kept);
    NegativesMayBeRefused(Sign(neg) + s, neg, s, allowNegative, decimalMode);
  }

  /** The option bears on signed texts only. */
  lemma NegativesMayBeRefused(raw: string, neg: bool, digits: string, allowNegative: bool, decimalMode: bool)
    requires raw == Sign(neg) + digits && digits != "" && IsDigit(digits[0]) && Filter(raw, Kept) == raw
    ensures Normalised(raw, allowNegative, decimalMode)
         == if neg && !allowNegative then None else Normalised(raw, true, decimalMode)
  {
    SignComesOff(neg, digits);
  }

  /** A European amount: groups by the dot, then the decimal comma. */
  lemma EuropeanAmount(neg: bool, head: string, groups: seq<Piece>, cents: string, decimalMode: bool)
    requires IsNumeral(head, groups) && AllBy(groups, '.') && Grouping(head, groups) && Digits(cents)
    ensures Normalised(Sign(neg) + (head + Text(groups) + "," + cents), true, decimalMode)
         == Some(Sign(neg) + (head + Joined(groups) + "." + cents))
  {
    var tail := groups + [Piece(',', cents)];
    LastPiece(head, tail);
    assert tail[..|tail| - 1] == groups;
    assert IsNumeral(head, tail);
    assert groups[0].separator == '.';
    SignedNumeral(neg, head, tail, true, decimalMode);
  }

  ghost predicate Blank(s: string) {
    forall c :: c in s ==> IsSpace(c)
  }

  lemma {:induction false} TrimStartPads(before: string, s: string)
    requires Blank(before)
    ensures TrimStart(before + s) == TrimStart(s)
  {
    if before == "" {
      assert before + s == s;
    } else {
      TrimStartPads(before[1..], s);
      assert before[0] in before && (before + s)[1..] == before[1..] + s;
    }
  }

  lemma {:induction false} TrimEndPads(s: string, after: string)
    requires Blank(after)
    ensures TrimEnd(s + after) == TrimEnd(s)
    decreases |after|
  {
    if after == "" {
      assert s + after == s;
    } else {
      var n := |after| - 1;
      TrimEndPads(s, after[..n]);
      assert after[n] in after && (s + after)[..|s + after| - 1] == s + after[..n];
    }
  }

  lemma {:induction false} TrimStartKeepsEnd(s: string, after: string)
    requires Blank(after)
    ensures TrimEnd(TrimStart(s + after)) == TrimEnd(TrimStart(s))
  {
    if s == "" {
      assert s + after == after;
      TrimStartPads(after, "");
      assert after + "" == after;
    } else if IsSpace(s[0]) {
      TrimStartKeepsEnd(s[1..], after);
      assert (s + after)[1..] == s[1..] + after;
    } else {
      TrimEndPads(s, after);
    }
  }

  /** White space around a number does not change its rendering. */
  lemma SpacesAroundDoNotCount(before: string, s: string, after: string)
    requires Blank(before) && Blank(after)
    ensures GroupIndian(before + s + after) == GroupIndian(s)
  {
    assert Trim(before + s + after) == Trim(s) by {
      assert before + s + after == before + (s + after);
      TrimStartPads(before, s + after);
      TrimStartKeepsEnd(s, after);
    }
  }

  /** groupIndian groups by commas: a head of one or two digits, pairs, and a last three; or a head and a three. */
  lemma GroupingIsIndian(whole: string) returns (head: string, tail: seq<Piece>)
    requires Digits(whole) && whole != ""
    ensures IsNumeral(head, tail) && AllBy(tail, ',') && GroupedInteger(whole) == head + Text(tail)
    ensures head + Joined(tail) == whole
    ensures |whole| <= 3 ==> tail == []
    ensures |whole| > 3 ==> tail != [] && |head| <= 2 && |tail[|tail| - 1].digits| == 3
    ensures |whole| > 3 ==> forall i :: 0 <= i < |tail| - 1 ==> |tail[i].digits| == 2
  {
    hide GroupedInteger, IsGroupedInteger, GroupsOf, IndianTail, Text, Joined, Dropped, ArePieces, Occurrences;
    GroupedShape(whole);
    if |whole| <= 3 {
      head, tail := whole, [];
      JustDigits(whole);
      EmptyText();
      NoneSized(',', 0);
      ShortGrouping(whole);
      assert whole + "" == whole;
    } else {
      var h, t := LongGrouping(whole);
      head, tail := ShapedIsNumeral(h + t);
      SeparatorsAreCommas(h + t, head, tail);
      TailIsTheGroups(h, t, head, tail);
      HeadDropped(head, tail, ',');
      LongSizes(whole, tail);
    }
  }

  lemma ShortGrouping(whole: string)
    requires |whole| <= 3
    ensures GroupedInteger(whole) == whole
  {
  }

  lemma TailIsTheGroups(h: string, t: string, head: string, tail: seq<Piece>)
    requires Digits(h) && t != "" && t[0] == ',' && IsNumeral(head, tail) && AllBy(tail, ',') && h + t == head + Text(tail)
    ensures head == h && Text(tail) == t && tail != []
  {
    hide Text;
    EmptyText();
    assert (h + t)[|h|] == ',';
    CommaIsInTheTail(head, Text(tail));
    FirstGroup(tail, 0);
    HeadEnds(h, t, ',', |head|) by {
      assert (head + Text(tail))[..|head|] == head;
    }
    assert (h + t)[|h|..] == t && (head + Text(tail))[|head|..] == Text(tail);
    assert (h + t)[..|h|] == h && (head + Text(tail))[..|head|] == head;
  }

  lemma CommaIsInTheTail(head: string, text: string)
    requires Digits(head) && ',' in head + text
    ensures text != ""
  {
    DigitsHoldNoMark(head);
    assert forall c :: c in head + text <==> c in head || c in text;
  }

  lemma SeparatorsAreCommas(g: string, head: string, tail: seq<Piece>)
    requires IsNumeral(head, tail) && g == head + Text(tail) && forall c :: c in g ==> IsDigit(c) || c == ','
    ensures AllBy(tail, ',')
  {
    TextChars(tail);
    forall i | 0 <= i < |tail|
      ensures tail[i].separator == ','
    {
      assert tail[i].separator in g;
    }
  }

  lemma LongSizes(whole: string, tail: seq<Piece>)
    requires ArePieces(tail) && tail != []
    requires if |whole| <= 5 then |Text(tail)| == 4 && GroupsOf(Text(tail), ',', 3) else IndianTail(Text(tail), ',')
    ensures |tail[|tail| - 1].digits| == 3 && forall i :: 0 <= i < |tail| - 1 ==> |tail[i].digits| == 2
  {
    hide GroupsOf, IndianTail, Text;
    GroupsAreSizes(tail, ',', 3);
    IndianTailIsPairs(tail, ',');
    PairsAreSizes(tail);
    if |whole| <= 5 {
      OnePiece(tail);
    }
  }

  lemma OnePiece(tail: seq<Piece>)
    requires ArePieces(tail) && tail != [] && |Text(tail)| == 4 && |tail[0].digits| == 3
    ensures |tail| == 1
  {
    RestOfPieces(tail);
  }
}
