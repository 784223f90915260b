// What a verdict of the cross-year comparison says about the amounts, in numbers, and which rows an item
// stands for.

module CrossYearVerdicts {
  import opened Common
  import opened Catalog
  import opened Statements
  import opened CrossYear
  import opened CrossYearPairs

  // ---------------------------------------------------------------- digits

  lemma {:induction false} PowersGrow(m: nat, n: nat)
    requires m <= n
    ensures Pow10(m) <= Pow10(n)
  {
    if m < n {
      PowersGrow(m, n - 1);
    }
  }

  lemma {:induction false} DigitsLength(a: nat, n: nat)
    requires n >= 1 && a < Pow10(n) && (n == 1 || Pow10(n - 1) <= a)
    ensures |Digits(a)| == n
  {
    if n == 1 {
      assert Pow10(1) == 10;
    } else {
      PowersGrow(1, n - 1);
      assert Pow10(1) == 10;
      DigitsLength(a / 10, n - 1);
    }
  }

  lemma LongerThan(b: nat, n: nat)
    requires b >= Pow10(n)
    ensures |Digits(b)| > n
  {
    DigitsBound(b);
    PowersGrow(if |Digits(b)| <= n then |Digits(b)| else n, n);
  }

  // A number of n digits that another one leaves modulo ten to the n is its tail.
  lemma {:induction false} RemainderIsTail(a: nat, b: nat, n: nat)
    requires n >= 1 && a < Pow10(n) && (n == 1 || Pow10(n - 1) <= a) && a == b % Pow10(n)
    ensures EndsWith(Digits(b), Digits(a))
  {
    DigitsSplit(a);
    DigitsSplit(b);
    if n == 1 {
      assert Pow10(1) == 10 && a < 10;
      assert Digits(a) == [DigitOf(a)];
    } else {
      PowersGrow(1, n - 1);
      assert Pow10(1) == 10;
      Shorter(a, b, Pow10(n - 1));
      RemainderIsTail(a / 10, b / 10, n - 1);
      TailGrows(b, a);
    }
  }

  // Leaving out the last digit of both.
  lemma Shorter(a: nat, b: nat, m: nat)
    requires m >= 1 && a == b % (10 * m)
    ensures a / 10 == (b / 10) % m && a % 10 == b % 10 && a <= b
  {
    RemainderStep(b, m);
  }

  lemma TailGrows(b: nat, a: nat)
    requires a >= 10 && b >= 10 && EndsWith(Digits(b / 10), Digits(a / 10)) && a % 10 == b % 10
    ensures EndsWith(Digits(b), Digits(a))
  {
    DigitsSplit(a);
    DigitsSplit(b);
    hide Digits;
    BothEnd(Digits(b / 10), Digits(a / 10), DigitOf(a % 10));
  }

  lemma BothEnd(long: string, short: string, c: char)
    requires EndsWith(long, short)
    ensures EndsWith(long + [c], short + [c])
  {
    assert long == long[..|long| - |short|] + short;
    assert long + [c] == long[..|long| - |short|] + (short + [c]);
  }

  // ---------------------------------------------------------------- verdicts

  // The whole part of one is the last digits, two or more and not starting with zeros, of a longer one's.
  ghost predicate CutOff(earlier: real, later: real) {
    var a, b := Abs(earlier).Floor, Abs(later).Floor;
    exists n: nat :: n >= 2 && (Tail(a, b, n) || Tail(b, a, n))
  }

  ghost predicate Tail(a: int, b: int, n: nat) {
    n >= 1 && a < Pow10(n) && Pow10(n - 1) <= a && b >= Pow10(n) && a == b % Pow10(n)
  }

  // The sizes are a thousand, ten thousand or a million times apart, give or take a hundredth.
  predicate UnitsApart(earlier: real, later: real) {
    var small, large := Smaller(earlier, later), MaxReal(Abs(earlier), Abs(later));
    && small > 0.0
    && (|| 0.99 <= large / small / 1000.0 <= 1.01 || 0.99 <= large / small / 10000.0 <= 1.01
        || 0.99 <= large / small / 1000000.0 <= 1.01)
  }

  function Smaller(earlier: real, later: real): real {
    if Abs(earlier) <= Abs(later) then Abs(earlier) else Abs(later)
  }

  lemma TailMeans(earlier: real, later: real)
    ensures var p, q := Digits(WholePart(earlier)), Digits(WholePart(later));
            (IsTail(p, q) || IsTail(q, p)) <==> CutOff(earlier, later)
  {
    var a, b := WholePart(earlier), WholePart(later);
    if CutOff(earlier, later) {
      var n: nat :| n >= 2 && (Tail(a, b, n) || Tail(b, a, n));
      if Tail(a, b, n) {
        TailIsTail(a, b, n);
      } else {
        TailIsTail(b, a, n);
      }
    }
    if IsTail(Digits(a), Digits(b)) {
      IsTailMeans(a, b);
    }
    if IsTail(Digits(b), Digits(a)) {
      IsTailMeans(b, a);
    }
  }

  lemma TailIsTail(a: nat, b: nat, n: nat)
    requires n >= 2 && Tail(a, b, n)
    ensures IsTail(Digits(a), Digits(b))
  {
    DigitsLength(a, n);
    LongerThan(b, n);
    RemainderIsTail(a, b, n);
  }

  lemma IsTailMeans(a: nat, b: nat)
    requires IsTail(Digits(a), Digits(b))
    ensures Tail(a, b, |Digits(a)|) && |Digits(a)| >= 2
  {
    TailIsRemainder(a, b);
    DigitsBound(a);
    LongerIsLarger(b, |Digits(a)|);
  }

  lemma NearMeans(ratio: real)
    ensures NearUnitFactor(ratio) <==>
            0.99 <= ratio / 1000.0 <= 1.01 || 0.99 <= ratio / 10000.0 <= 1.01 || 0.99 <= ratio / 1000000.0 <= 1.01
  {
    assert UNIT_FACTORS[0] == 1000.0 && UNIT_FACTORS[1] == 10000.0 && UNIT_FACTORS[2] == 1000000.0;
  }

  // Each verdict on two amounts is given exactly in its own case.
  lemma JudgeMeans(earlier: real, later: real, tolerance: real)
    ensures var v := Judge(earlier, later, tolerance);
            var equal := -tolerance <= earlier - later <= tolerance;
            var sized := -tolerance <= Abs(earlier) - Abs(later) <= tolerance;
            && (v == Agree <==> equal)
            && (v == SignOnly <==> !equal && sized)
            && (v == SuspectTruncated <==> !equal && !sized && CutOff(earlier, later))
            && (v == SuspectUnit <==> !equal && !sized && !CutOff(earlier, later) && UnitsApart(earlier, later))
            && (v == Different <==> !equal && !sized && !CutOff(earlier, later) && !UnitsApart(earlier, later))
  {
    hide CutOff, NearUnitFactor, IsTail;
    var small, large := Smaller(earlier, later), MaxReal(Abs(earlier), Abs(later));
    var p, q := Digits(WholePart(earlier)), Digits(WholePart(later));
    TailMeans(earlier, later);
    ShorterFirst(p, q);
    if small > 0.0 {
      NearMeans(large / small);
    }
  }

  lemma ShorterFirst(p: string, q: string)
    ensures (IsTail(p, q) || IsTail(q, p)) <==> IsTail(if |p| <= |q| then p else q, if |p| <= |q| then q else p)
  {
  }

  // ---------------------------------------------------------------- items

  // The item stands for the n-th amounts under its label: both compared, when both reports have the label
  // equally often; or one alone, because the other report has none, or cannot be told apart.
  predicate Fits(item: CrossItem, mine: seq<Cell>, other: seq<Cell>, tolerance: real) {
    var n := item.occurrence;
    && n >= 1 && !item.byValue && item.laterName == None
    && (item.earlier != None ==> n <= |mine| && item.earlier == Some(mine[n - 1].value))
    && (item.later != None ==> n <= |other| && item.later == Some(other[n - 1].value))
    && (item.earlier != None || item.later != None)
    && (item.earlier != None && item.later != None ==>
          && |mine| == |other| && item.name != UNLABELLED
          && item.verdict == Judge(item.earlier.value, item.later.value, tolerance))
    && (item.later == None ==>
          if other == [] then item.verdict == OnlyEarlier
          else item.verdict == Ambiguous && (item.name == UNLABELLED || |mine| != |other|))
    && (item.earlier == None ==>
          if mine == [] then item.verdict == OnlyLater
          else item.verdict == Ambiguous && (item.name == UNLABELLED || |mine| != |other|))
  }

  lemma {:induction false} AloneFits(side: Side, name: string, cells: seq<Cell>, verdict: Verdict, item: CrossItem)
    requires item in AllAlone(side, name, cells, verdict)
    ensures 1 <= item.occurrence <= |cells|
            && item == Alone(side, name, item.occurrence, cells[item.occurrence - 1], verdict)
  {
    var n := |cells|;
    if item != Alone(side, name, n, cells[n - 1], verdict) {
      AloneFits(side, name, cells[..n - 1], verdict, item);
    }
  }

  lemma {:induction false} TogetherFits(name: string, mine: seq<Cell>, other: seq<Cell>, tolerance: real,
      item: CrossItem)
    requires |mine| == |other| && item in AllTogether(name, mine, other, tolerance)
    ensures 1 <= item.occurrence <= |mine|
    ensures item == Together(name, item.occurrence, mine[item.occurrence - 1], other[item.occurrence - 1], tolerance)
  {
    var n := |mine|;
    if item != Together(name, n, mine[n - 1], other[n - 1], tolerance) {
      TogetherFits(name, mine[..n - 1], other[..n - 1], tolerance, item);
    }
  }

  lemma LabelFits(name: string, mine: seq<Cell>, other: seq<Cell>, tolerance: real, item: CrossItem)
    requires item in ForLabel(name, mine, other, tolerance)
    ensures item.name == name && Fits(item, mine, other, tolerance)
  {
    hide Judge;
    if mine != [] && other != [] && (name == UNLABELLED || |mine| != |other|) {
      if item in AllAlone(Earlier, name, mine, Ambiguous) {
        AloneFits(Earlier, name, mine, Ambiguous, item);
      } else {
        AloneFits(Later, name, other, Ambiguous, item);
      }
    } else if other == [] {
      AloneFits(Earlier, name, mine, OnlyEarlier, item);
    } else if mine == [] {
      AloneFits(Later, name, other, OnlyLater, item);
    } else {
      TogetherFits(name, mine, other, tolerance, item);
    }
  }

  lemma {:induction false} LabelsFit(names: seq<string>, ours: map<string, seq<Cell>>, theirs: map<string, seq<Cell>>,
      tolerance: real, item: CrossItem)
    requires item in ForLabels(names, ours, theirs, tolerance)
    ensures item.name in names && Fits(item, CellsOf(ours, item.name), CellsOf(theirs, item.name), tolerance)
  {
    hide Fits, ForLabel;
    var rest, name := names[..|names| - 1], names[|names| - 1];
    if item in ForLabels(rest, ours, theirs, tolerance) {
      LabelsFit(rest, ours, theirs, tolerance, item);
      assert names == rest + [name];
    } else {
      LabelFits(name, CellsOf(ours, name), CellsOf(theirs, name), tolerance, item);
    }
  }

  // Every item of the result stands for rows of its label, or was paired by amount; and each verdict on
  // two amounts, Agree above all, is the one they deserve.
  lemma EveryItemIsJudged(lex: Lexicon, earlier: ExtractedStatement, later: ExtractedStatement, names: seq<string>,
      item: CrossItem)
    requires item in PairedByValue(ByLabels(lex, earlier, later, names), Tolerance(earlier, later))
    ensures var ours, theirs :=
              Labelled(lex, earlier, Current, |earlier.rows|), Labelled(lex, later, Prior, |later.rows|);
            !item.byValue ==> Fits(item, CellsOf(ours, item.name), CellsOf(theirs, item.name),
                                   Tolerance(earlier, later))
    ensures item.verdict == Agree ==>
              && item.earlier != None && item.later != None
              && -Tolerance(earlier, later) <= item.earlier.value - item.later.value <= Tolerance(earlier, later)
    ensures item.byValue ==> item.verdict == Agree
    ensures item.earlier != None && item.later != None ==>
              item.verdict == Judge(item.earlier.value, item.later.value, Tolerance(earlier, later))
  {
    hide Fits, ByLabels, AgreedByValue;
    var items, tolerance := ByLabels(lex, earlier, later, names), Tolerance(earlier, later);
    var partners := Partners(Slots(items, tolerance));
    ValuePairsAgree(lex, earlier, later, names, item);
    AgreedMeans(item, tolerance);
    if item in Without(items, Used(partners, |items|), |items|) {
      KeptAreItems(items, Used(partners, |items|), |items|, item);
      ItemFits(lex, earlier, later, names, item);
    } else {
      PairedIsByValue(items, partners, |items|, item);
    }
    if item.earlier != None && item.later != None {
      JudgeMeans(item.earlier.value, item.later.value, tolerance);
    }
  }

  lemma AgreedMeans(item: CrossItem, tolerance: real)
    requires AgreedByValue(item, tolerance)
    ensures item.byValue ==>
              && item.verdict == Agree && item.earlier != None && item.later != None
              && -tolerance <= item.earlier.value - item.later.value <= tolerance
  {
  }

  lemma ItemFits(lex: Lexicon, earlier: ExtractedStatement, later: ExtractedStatement, names: seq<string>,
      item: CrossItem)
    requires item in ByLabels(lex, earlier, later, names)
    ensures var ours, theirs :=
              Labelled(lex, earlier, Current, |earlier.rows|), Labelled(lex, later, Prior, |later.rows|);
            Fits(item, CellsOf(ours, item.name), CellsOf(theirs, item.name), Tolerance(earlier, later))
    ensures !item.byValue
    ensures item.verdict == Agree ==> item.earlier != None && item.later != None
    ensures item.earlier != None && item.later != None ==>
              item.verdict == Judge(item.earlier.value, item.later.value, Tolerance(earlier, later))
  {
    LabelsFit(names, Labelled(lex, earlier, Current, |earlier.rows|), Labelled(lex, later, Prior, |later.rows|),
              Tolerance(earlier, later), item);
  }

  lemma {:induction false} PairedIsByValue(items: seq<CrossItem>, partners: seq<Option<nat>>, n: nat, item: CrossItem)
    requires |partners| == |items| && WithinRange(partners) && n <= |items| && item in Paired(items, partners, n)
    ensures item.byValue
  {
    if item in Paired(items, partners, n - 1) {
      PairedIsByValue(items, partners, n - 1, item);
    }
  }

  // ---------------------------------------------------------------- pairs by amount

  // Left over on this side, with an amount of at least a thousand yuan.
  predicate Leftover(item: CrossItem, side: Side) {
    && item.verdict in {OnlyEarlier, OnlyLater, Ambiguous}
    && (side == Earlier ==> item.earlier != None && Abs(item.earlier.value) >= 1000.0)
    && (side == Later ==> item.earlier == None && item.later != None && Abs(item.later.value) >= 1000.0)
  }

  // The amount in multiples of the tolerance, rounded.
  function Multiple(item: CrossItem, tolerance: real): int
    requires tolerance > 0.0
  {
    if item.earlier != None then Rounded(item.earlier.value / tolerance)
    else if item.later != None then Rounded(item.later.value / tolerance)
    else 0
  }

  lemma SlotMeans(item: CrossItem, tolerance: real, side: Side, bucket: int)
    requires tolerance > 0.0
    ensures SlotOf(item, tolerance) == Some(Slot(side, bucket)) <==>
            Leftover(item, side) && Multiple(item, tolerance) == bucket
  {
  }

  lemma {:induction false} InSlotAscends(slots: seq<Option<Slot>>, slot: Slot, n: nat)
    requires n <= |slots|
    ensures Rising(InSlot(slots, slot, n), n)
  {
    if n > 0 {
      InSlotAscends(slots, slot, n - 1);
    }
  }

  lemma AloneMeans(slots: seq<Option<Slot>>, slot: Slot, i: nat)
    requires i < |slots| && slots[i] == Some(slot)
    ensures |InSlot(slots, slot, |slots|)| == 1 <==> forall k :: 0 <= k < |slots| && slots[k] == Some(slot) ==> k == i
  {
    var members := InSlot(slots, slot, |slots|);
    InSlotAscends(slots, slot, |slots|);
    assert i in members;
    if |members| == 1 {
      forall k | 0 <= k < |slots| && slots[k] == Some(slot)
        ensures k == i
      {
        assert k in members;
      }
    } else {
      assert members[0] in members && members[1] in members && members[0] < members[1];
    }
  }

  // Two items are paired by amount exactly when each is the only one left over on its side whose amount
  // rounds to that multiple.
  lemma PairedExactly(items: seq<CrossItem>, tolerance: real, i: nat, j: nat)
    requires tolerance > 0.0 && i < |items| && j < |items|
    ensures Partners(Slots(items, tolerance))[i] == Some(j) <==>
            && Leftover(items[i], Earlier) && Leftover(items[j], Later)
            && Multiple(items[i], tolerance) == Multiple(items[j], tolerance)
            && (forall k :: 0 <= k < |items| && k != i ==>
                  !(Leftover(items[k], Earlier) && Multiple(items[k], tolerance) == Multiple(items[i], tolerance)))
            && (forall k :: 0 <= k < |items| && k != j ==>
                  !(Leftover(items[k], Later) && Multiple(items[k], tolerance) == Multiple(items[j], tolerance)))
  {
    hide Leftover, Multiple;
    var slots := Slots(items, tolerance);
    var bucket := Multiple(items[i], tolerance);
    var ours, theirs := Slot(Earlier, bucket), Slot(Later, bucket);
    forall k | 0 <= k < |items|
      ensures slots[k] == Some(ours) <==> Leftover(items[k], Earlier) && Multiple(items[k], tolerance) == bucket
      ensures slots[k] == Some(theirs) <==> Leftover(items[k], Later) && Multiple(items[k], tolerance) == bucket
      ensures slots[k].Some? ==> slots[k] == Some(Slot(slots[k].value.side, Multiple(items[k], tolerance)))
    {
      SlotMeans(items[k], tolerance, Earlier, bucket);
      SlotMeans(items[k], tolerance, Later, bucket);
      if slots[k].Some? {
        SlotMeans(items[k], tolerance, slots[k].value.side, slots[k].value.bucket);
      }
    }
    if slots[i] == Some(ours) {
      AloneMeans(slots, ours, i);
      if slots[j] == Some(theirs) {
        AloneMeans(slots, theirs, j);
        assert j in InSlot(slots, theirs, |slots|);
      }
    }
    if Partner(slots, i) == Some(j) {
      PartnerMeans(slots, i);
    }
  }
}
