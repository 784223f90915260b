// The second half of cross-year checking: items left over by label are paired when their amounts round
// to the same multiple of the unit and nothing else on either side does.

module CrossYearPairs {
  import opened Common
  import opened Catalog
  import opened Statements
  import opened CrossYear

  predicate LeftOver(item: CrossItem) {
    item.verdict.OnlyEarlier? || item.verdict.OnlyLater? || item.verdict.Ambiguous?
  }

  function ValueOf(item: CrossItem): Option<real> {
    if item.earlier.Some? then item.earlier else item.later
  }

  // Left over, and with an amount large enough not to coincide by chance.
  predicate Candidate(item: CrossItem) {
    LeftOver(item) && ValueOf(item).Some? && Abs(ValueOf(item).value) >= MIN_VALUE_TO_PAIR
  }

  datatype Slot = Slot(side: Side, bucket: int)

  // Where an item is put aside, if it is.
  function SlotOf(item: CrossItem, tolerance: real): Option<Slot>
    requires tolerance > 0.0
  {
    if Candidate(item) then Some(Slot(if item.earlier.Some? then Earlier
                                      else Later, Rounded(ValueOf(item).value / tolerance))) else None
  }

  function Slots(items: seq<CrossItem>, tolerance: real): (slots: seq<Option<Slot>>)
    requires tolerance > 0.0
    ensures |slots| == |items| && forall i :: 0 <= i < |items| ==> slots[i] == SlotOf(items[i], tolerance)
  {
    seq(|items|, i requires 0 <= i < |items| => SlotOf(items[i], tolerance))
  }

  // The positions among the first n of what is put aside in a slot.
  function InSlot(slots: seq<Option<Slot>>, slot: Slot, n: nat): (b: seq<nat>)
    requires n <= |slots|
    ensures forall x: nat {:trigger x in b} :: x in b <==> x < n && slots[x] == Some(slot)
  {
    if n == 0 then []
    else InSlot(slots, slot, n - 1) + if slots[n - 1] == Some(slot) then [n - 1] else []
  }

  // The item of the later report that an item of the earlier one is paired with: both alone in the bucket.
  function Partner(slots: seq<Option<Slot>>, i: nat): (j: Option<nat>)
    requires i < |slots|
    ensures j.Some? ==> j.value < |slots|
  {
    if slots[i].Some? && slots[i].value.side.Earlier? then
      var ours := InSlot(slots, slots[i].value, |slots|);
      var theirs := InSlot(slots, Slot(Later, slots[i].value.bucket), |slots|);
      if |ours| == 1 && |theirs| == 1 then
        assert theirs[0] in theirs;
        Some(theirs[0])
      else None
    else None
  }

  function PairOf(a: CrossItem, b: CrossItem): CrossItem {
    CrossItem(a.name, a.occurrence, a.earlier, b.later, Agree, a.earlierPage, b.laterPage, true, Some(b.name))
  }

  lemma PartnerMeans(slots: seq<Option<Slot>>, i: nat)
    requires i < |slots| && Partner(slots, i).Some?
    ensures var j := Partner(slots, i).value;
            slots[i].Some? && slots[j].Some? && slots[i].value.side.Earlier?
            && slots[j].value == Slot(Later, slots[i].value.bucket)
  {
    var theirs := InSlot(slots, Slot(Later, slots[i].value.bucket), |slots|);
    assert theirs[0] in theirs;
  }

  lemma AloneInSlot(slots: seq<Option<Slot>>, slot: Slot, i: nat, k: nat)
    requires i < |slots| && k < |slots| && slots[i] == Some(slot) && slots[k] == Some(slot)
             && |InSlot(slots, slot, |slots|)| == 1
    ensures i == k
  {
    assert i in InSlot(slots, slot, |slots|) && k in InSlot(slots, slot, |slots|);
  }

  lemma PartnersDiffer(slots: seq<Option<Slot>>, i: nat, k: nat)
    requires i < |slots| && k < |slots| && Partner(slots, i).Some? && Partner(slots, i) == Partner(slots, k)
    ensures i == k
  {
    PartnerMeans(slots, i);
    PartnerMeans(slots, k);
    AloneInSlot(slots, slots[i].value, i, k);
  }

  predicate WithinRange(partners: seq<Option<nat>>) {
    forall i :: 0 <= i < |partners| && partners[i].Some? ==> partners[i].value < |partners|
  }

  function Partners(slots: seq<Option<Slot>>): (partners: seq<Option<nat>>)
    ensures |partners| == |slots| && WithinRange(partners)
  {
    seq(|slots|, i requires 0 <= i < |slots| => Partner(slots, i))
  }

  function Paired(items: seq<CrossItem>, partners: seq<Option<nat>>, n: nat): seq<CrossItem>
    requires |partners| == |items| && WithinRange(partners) && n <= |items|
  {
    if n == 0 then []
    else if partners[n - 1].None? then Paired(items, partners, n - 1)
    else Paired(items, partners, n - 1) + [PairOf(items[n - 1], items[partners[n - 1].value])]
  }

  function Used(partners: seq<Option<nat>>, n: nat): set<nat>
    requires n <= |partners|
  {
    if n == 0 then {}
    else if partners[n - 1].None? then Used(partners, n - 1)
    else Used(partners, n - 1) + {n - 1, partners[n - 1].value}
  }

  function Without(items: seq<CrossItem>, used: set<nat>, n: nat): seq<CrossItem>
    requires n <= |items|
  {
    if n == 0 then []
    else if n - 1 in used then Without(items, used, n - 1)
    else Without(items, used, n - 1) + [items[n - 1]]
  }

  function PairedByValue(items: seq<CrossItem>, tolerance: real): seq<CrossItem>
    requires tolerance > 0.0
  {
    var partners := Partners(Slots(items, tolerance));
    Without(items, Used(partners, |items|), |items|) + Paired(items, partners, |items|)
  }

  // ---------------------------------------------------------------- the loops

  function At(m: map<int, seq<nat>>, bucket: int): seq<nat> {
    if bucket in m then m[bucket] else []
  }

  ghost predicate Grouped(slots: seq<Option<Slot>>, side: Side, n: nat, m: map<int, seq<nat>>)
    requires n <= |slots|
  {
    forall bucket :: At(m, bucket) == InSlot(slots, Slot(side, bucket), n)
  }

  // The keys of a dict in the order they were first used, with the positions that used them.
  ghost predicate InOrder(m: map<int, seq<nat>>, order: seq<int>, firsts: seq<nat>, n: nat) {
    && |firsts| == |order|
    && (forall a :: 0 <= a < |firsts| ==> firsts[a] < n)
    && (forall a :: 0 <= a < |order| ==> order[a] in m && m[order[a]] != [] && m[order[a]][0] == firsts[a])
    && (forall a, b :: 0 <= a < b < |order| ==> firsts[a] < firsts[b])
    && (forall bucket :: bucket in m ==> bucket in order)
  }

  lemma SameGrouped(slots: seq<Option<Slot>>, side: Side, n: nat, m: map<int, seq<nat>>)
    requires n < |slots| && Grouped(slots, side, n, m) && (slots[n].None? || slots[n].value.side != side)
    ensures Grouped(slots, side, n + 1, m)
  {}

  lemma OneMoreGrouped(slots: seq<Option<Slot>>, side: Side, n: nat, m: map<int, seq<nat>>, bucket: int)
    requires n < |slots| && Grouped(slots, side, n, m) && slots[n] == Some(Slot(side, bucket))
    ensures Grouped(slots, side, n + 1, m[bucket := At(m, bucket) + [n]])
  {}

  lemma OneMoreInOrder(m: map<int, seq<nat>>, order: seq<int>, firsts: seq<nat>, bucket: int, n: nat)
    requires InOrder(m, order, firsts, n)
    ensures InOrder(m[bucket := At(m, bucket) + [n]], if bucket in m then order
                                                      else order + [bucket], if bucket in m then firsts
                                                          else firsts + [n], n + 1)
  {}

  method PutAside(slots: seq<Option<Slot>>, side: Side)
      returns (m: map<int, seq<nat>>, order: seq<int>, ghost firsts: seq<nat>)
    ensures Grouped(slots, side, |slots|, m) && InOrder(m, order, firsts, |slots|)
  {
    m, order, firsts := map[], [], [];
    for n := 0 to |slots|
      invariant Grouped(slots, side, n, m) && InOrder(m, order, firsts, n)
    {
      var slot := slots[n];
      if slot.None? || slot.value.side != side {
        SameGrouped(slots, side, n, m);
        continue;
      }
      var bucket := slot.value.bucket;
      OneMoreGrouped(slots, side, n, m, bucket);
      OneMoreInOrder(m, order, firsts, bucket, n);
      firsts := if bucket in m then firsts else firsts + [n];
      order := if bucket in m then order else order + [bucket];
      m := m[bucket := At(m, bucket) + [n]];
    }
  }

  lemma {:induction false} NothingBetween(items: seq<CrossItem>, partners: seq<Option<nat>>, lo: nat, hi: nat)
    requires |partners| == |items| && WithinRange(partners) && lo <= hi <= |items|
    requires forall i :: lo <= i < hi ==> partners[i].None?
    ensures Paired(items, partners, hi) == Paired(items, partners, lo) && Used(partners, hi) == Used(partners, lo)
  {
    if lo < hi {
      NothingBetween(items, partners, lo, hi - 1);
    }
  }

  // Only the first of a bucket can be its only one.
  lemma OnlyFirsts(slots: seq<Option<Slot>>, left: map<int, seq<nat>>, order: seq<int>, firsts: seq<nat>, i: nat)
    requires Grouped(slots, Earlier, |slots|, left) && InOrder(left, order, firsts, |slots|)
    requires i < |slots| && i !in firsts
    ensures Partner(slots, i).None?
  {
    if slots[i].Some? && slots[i].value.side.Earlier? {
      var bucket := slots[i].value.bucket;
      var ours := InSlot(slots, slots[i].value, |slots|);
      assert At(left, bucket) == ours;
      assert i in ours && bucket in left;
      var q :| 0 <= q < |order| && order[q] == bucket;
      assert firsts[q] in firsts && ours[0] == firsts[q];
    }
  }

  predicate OnlyAt(partners: seq<Option<nat>>, firsts: seq<nat>) {
    forall i :: 0 <= i < |partners| && i !in firsts ==> partners[i].None?
  }

  predicate Rising(firsts: seq<nat>, n: nat) {
    (forall a :: 0 <= a < |firsts| ==> firsts[a] < n) && forall a, b :: 0 <= a < b < |firsts| ==> firsts[a] < firsts[b]
  }

  lemma OnlyAtFirsts(slots: seq<Option<Slot>>, left: map<int, seq<nat>>, order: seq<int>, firsts: seq<nat>)
    requires Grouped(slots, Earlier, |slots|, left) && InOrder(left, order, firsts, |slots|)
    ensures OnlyAt(Partners(slots), firsts) && Rising(firsts, |slots|)
  {
    forall i | 0 <= i < |slots| && i !in firsts
      ensures Partners(slots)[i].None?
    {
      OnlyFirsts(slots, left, order, firsts, i);
    }
  }

  // Between two firsts nothing is paired.
  lemma {:induction false} ToNextFirst(items: seq<CrossItem>, partners: seq<Option<nat>>, firsts: seq<nat>, p: nat,
      lo: nat, hi: nat)
    requires |partners| == |items| && WithinRange(partners) && OnlyAt(partners, firsts) && Rising(firsts, |items|)
    requires p <= |firsts| && lo <= hi <= |items|
    requires p > 0 ==> firsts[p - 1] < lo
    requires p < |firsts| ==> hi <= firsts[p]
    ensures Paired(items, partners, hi) == Paired(items, partners, lo) && Used(partners, hi) == Used(partners, lo)
  {
    forall i | lo <= i < hi
      ensures partners[i].None?
    {
      forall q | 0 <= q < |firsts|
        ensures firsts[q] != i
      {
        if q < p {
          assert q < p - 1 ==> firsts[q] < firsts[p - 1];
        } else {
          assert q > p ==> firsts[p] < firsts[q];
        }
      }
      assert i !in firsts;
    }
    NothingBetween(items, partners, lo, hi);
  }

  lemma FirstOfBucket(slots: seq<Option<Slot>>, left: map<int, seq<nat>>, right: map<int, seq<nat>>, order: seq<int>,
      firsts: seq<nat>, p: nat)
    requires Grouped(slots, Earlier, |slots|, left) && Grouped(slots, Later, |slots|, right)
    requires InOrder(left, order, firsts, |slots|) && p < |order|
    ensures FoundAt(Partners(slots), At(left, order[p]), At(right, order[p]), firsts[p])
  {
    var ours := InSlot(slots, Slot(Earlier, order[p]), |slots|);
    assert At(left, order[p]) == ours && ours[0] == firsts[p];
    assert ours[0] in ours;
    assert At(right, order[p]) == InSlot(slots, Slot(Later, order[p]), |slots|);
  }

  predicate Inside(positions: seq<nat>, n: nat) {
    forall x :: x in positions ==> x < n
  }

  // Both buckets of a key hold one item.
  predicate Single(ours: seq<nat>, theirs: seq<nat>) {
    |ours| == 1 && |theirs| == 1
  }

  function PairUp(items: seq<CrossItem>, ours: seq<nat>, theirs: seq<nat>): seq<CrossItem>
    requires Inside(ours, |items|) && Inside(theirs, |items|)
  {
    if Single(ours, theirs) then
      assert ours[0] in ours && theirs[0] in theirs;
      [PairOf(items[ours[0]], items[theirs[0]])]
    else []
  }

  function UseUp(ours: seq<nat>, theirs: seq<nat>): set<nat> {
    if Single(ours, theirs) then {ours[0], theirs[0]} else {}
  }

  // What the loop over the keys finds at one key.
  ghost predicate FoundAt(partners: seq<Option<nat>>, ours: seq<nat>, theirs: seq<nat>, first: nat) {
    && Inside(ours, |partners|) && Inside(theirs, |partners|) && ours != [] && ours[0] == first < |partners|
    && partners[first] == if Single(ours, theirs) then Some(theirs[0]) else None
  }

  // One key further: nothing up to its first position, and there a pair if both buckets hold one item.
  lemma OneMoreKey(items: seq<CrossItem>, partners: seq<Option<nat>>, firsts: seq<nat>, p: nat, reached: nat,
      ours: seq<nat>, theirs: seq<nat>)
    requires |partners| == |items| && WithinRange(partners) && OnlyAt(partners, firsts) && Rising(firsts, |items|)
    requires p < |firsts| && reached == (if p > 0 then firsts[p - 1] + 1 else 0)
    requires FoundAt(partners, ours, theirs, firsts[p])
    ensures reached <= |items|
    ensures Paired(items, partners, firsts[p] + 1) == Paired(items, partners, reached) + PairUp(items, ours, theirs)
    ensures Used(partners, firsts[p] + 1) == Used(partners, reached) + UseUp(ours, theirs)
  {
    assert p > 0 ==> firsts[p - 1] < firsts[p];
    ToNextFirst(items, partners, firsts, p, reached, firsts[p]);
  }

  method CollectPairs(items: seq<CrossItem>, left: map<int, seq<nat>>, right: map<int, seq<nat>>, order: seq<int>,
      ghost firsts: seq<nat>, ghost partners: seq<Option<nat>>)
    returns (used: set<nat>, paired: seq<CrossItem>)
    requires |partners| == |items| && WithinRange(partners) && OnlyAt(partners, firsts) && Rising(firsts, |items|)
             && |order| == |firsts|
    requires forall p :: 0 <= p < |order| ==> FoundAt(partners, At(left, order[p]), At(right, order[p]), firsts[p])
    ensures used == Used(partners, |items|) && paired == Paired(items, partners, |items|)
  {
    used, paired := {}, [];
    ghost var reached := 0;
    for p := 0 to |order|
      invariant reached == (if p > 0 then firsts[p - 1] + 1 else 0) && reached <= |items|
      invariant paired == Paired(items, partners, reached) && used == Used(partners, reached)
    {
      var ours, theirs := At(left, order[p]), At(right, order[p]);
      OneMoreKey(items, partners, firsts, p, reached, ours, theirs);
      reached := firsts[p] + 1;
      paired := paired + PairUp(items, ours, theirs);
      used := used + UseUp(ours, theirs);
    }
    ToNextFirst(items, partners, firsts, |order|, reached, |items|);
  }

  method PairByValue(items: seq<CrossItem>, tolerance: real) returns (result: seq<CrossItem>)
    requires tolerance > 0.0
    ensures result == PairedByValue(items, tolerance)
  {
    var slots := Slots(items, tolerance);
    var left, order, firsts := PutAside(slots, Earlier);
    var right, _, _ := PutAside(slots, Later);
    OnlyAtFirsts(slots, left, order, firsts);
    forall p | 0 <= p < |order|
      ensures FoundAt(Partners(slots), At(left, order[p]), At(right, order[p]), firsts[p])
    {
      FirstOfBucket(slots, left, right, order, firsts, p);
    }
    var used, paired := CollectPairs(items, left, right, order, firsts, Partners(slots));
    var kept := LeaveOut(items, used);
    result := kept + paired;
  }

  method LeaveOut(items: seq<CrossItem>, used: set<nat>) returns (kept: seq<CrossItem>)
    ensures kept == Without(items, used, |items|)
  {
    kept := [];
    for n := 0 to |items|
      invariant kept == Without(items, used, n)
    {
      if n !in used {
        kept := kept + [items[n]];
      }
    }
  }

  // ---------------------------------------------------------------- nothing is lost by pairing

  // What labels leave over stands for one row, with its page.
  predicate OneSided(item: CrossItem) {
    && item.laterName.None? && !item.byValue
    && (LeftOver(item) ==> (item.earlier.Some? && item.earlierPage.Some? && item.later.None?)
                           || (item.earlier.None? && item.later.Some? && item.laterPage.Some?))
  }

  predicate AllOneSided(items: seq<CrossItem>) {
    forall i :: 0 <= i < |items| ==> OneSided(items[i])
  }

  lemma {:induction false} LeavingOne(side: Side, items: seq<CrossItem>, used: set<nat>, k: nat, n: nat, e: Entry)
    requires n <= |items| && k < |items| && k !in used
    ensures Standing(side, Without(items, used, n), e) == Standing(side, Without(items, used + {k}, n), e) + if k < n
            then Stands(side, items[k], e) else 0
  {
    hide Standing, Stands;
    if n > 0 {
      LeavingOne(side, items, used, k, n - 1, e);
      WithoutNext(side, items, used, n - 1, e);
      WithoutNext(side, items, used + {k}, n - 1, e);
    }
  }

  lemma WithoutNext(side: Side, items: seq<CrossItem>, used: set<nat>, n: nat, e: Entry)
    requires n < |items|
    ensures Standing(side, Without(items, used, n + 1), e) == Standing(side, Without(items, used, n), e)
            + if n in used then 0 else Stands(side, items[n], e)
  {}

  lemma {:induction false} UsedMeans(partners: seq<Option<nat>>, n: nat, x: nat)
    requires n <= |partners| && x in Used(partners, n)
    ensures exists i: nat :: i < n && partners[i].Some? && (x == i || x == partners[i].value)
  {
    if x in Used(partners, n - 1) {
      UsedMeans(partners, n - 1, x);
    }
  }

  // A pair takes two items that no earlier pair took.
  lemma PairIsNew(slots: seq<Option<Slot>>, n: nat)
    requires n < |slots| && Partner(slots, n).Some?
    ensures n !in Used(Partners(slots), n) && Partner(slots, n).value !in Used(Partners(slots), n)
            && Partner(slots, n).value != n
  {
    PartnerMeans(slots, n);
    forall x | x in Used(Partners(slots), n)
      ensures x != n && x != Partner(slots, n).value
    {
      UsedMeans(Partners(slots), n, x);
      var i: nat :| i < n && Partners(slots)[i].Some? && (x == i || x == Partners(slots)[i].value);
      PartnerMeans(slots, i);
      if Partner(slots, i) == Partner(slots, n) {
        PartnersDiffer(slots, i, n);
      }
    }
  }

  // The pair stands for both rows, under their own names.
  lemma PairEntries(side: Side, items: seq<CrossItem>, tolerance: real, i: nat, e: Entry)
    requires tolerance > 0.0 && AllOneSided(items) && i < |items| && Partner(Slots(items, tolerance), i).Some?
    ensures var j := Partner(Slots(items, tolerance), i).value;
            Stands(side, PairOf(items[i], items[j]), e) == Stands(side, items[i], e) + Stands(side, items[j], e)
  {
    PartnerMeans(Slots(items, tolerance), i);
    var j := Partner(Slots(items, tolerance), i).value;
    assert OneSided(items[i]) && OneSided(items[j]);
    assert SlotOf(items[i], tolerance).Some? && SlotOf(items[j], tolerance).Some?;
  }

  lemma {:induction false} NoneUsed(items: seq<CrossItem>, n: nat)
    requires n <= |items|
    ensures Without(items, {}, n) == items[..n]
  {
    if n > 0 {
      NoneUsed(items, n - 1);
    }
  }

  lemma {:induction false} PairingKeeps(side: Side, items: seq<CrossItem>, tolerance: real, n: nat, e: Entry)
    requires tolerance > 0.0 && AllOneSided(items) && n <= |items|
    ensures var partners := Partners(Slots(items, tolerance));
            Standing(side, Without(items, Used(partners, n), |items|), e)
            + Standing(side, Paired(items, partners, n), e) == Standing(side, items, e)
  {
    if n == 0 {
      NoneUsed(items, |items|);
      assert items[..|items|] == items;
    } else {
      PairingKeeps(side, items, tolerance, n - 1, e);
      if Partner(Slots(items, tolerance), n - 1).Some? {
        OnePairKeeps(side, items, tolerance, n - 1, e);
      }
    }
  }

  // What a pair takes from the list it puts back at the end.
  lemma OnePairKeeps(side: Side, items: seq<CrossItem>, tolerance: real, n: nat, e: Entry)
    requires tolerance > 0.0 && AllOneSided(items) && n < |items| && Partner(Slots(items, tolerance), n).Some?
    ensures var partners := Partners(Slots(items, tolerance));
            Standing(side, Without(items, Used(partners, n + 1), |items|), e)
            + Standing(side, Paired(items, partners, n + 1), e) ==
            Standing(side, Without(items, Used(partners, n), |items|), e)
            + Standing(side, Paired(items, partners, n), e)
  {
    var slots := Slots(items, tolerance);
    var partners := Partners(slots);
    var j := Partner(slots, n).value;
    PairIsNew(slots, n);
    LeavingOne(side, items, Used(partners, n), n, |items|, e);
    LeavingOne(side, items, Used(partners, n) + {n}, j, |items|, e);
    assert Used(partners, n + 1) == Used(partners, n) + {n} + {j};
    PairEntries(side, items, tolerance, n, e);
    StandingSnoc(side, Paired(items, partners, n), PairOf(items[n], items[j]), e);
  }

  lemma PairingLosesNothing(side: Side, items: seq<CrossItem>, tolerance: real, e: Entry)
    requires tolerance > 0.0 && AllOneSided(items)
    ensures Standing(side, PairedByValue(items, tolerance), e) == Standing(side, items, e)
  {
    var partners := Partners(Slots(items, tolerance));
    PairingKeeps(side, items, tolerance, |items|, e);
    StandingConcat(side, Without(items, Used(partners, |items|), |items|), Paired(items, partners, |items|), e);
  }

  // ---------------------------------------------------------------- pairs by amount are within the tolerance

  lemma SameBucketIsClose(a: real, b: real, tolerance: real)
    requires tolerance > 0.0 && Rounded(a / tolerance) == Rounded(b / tolerance)
    ensures Abs(a - b) <= tolerance
  {
    RoundedIsNear(a / tolerance);
    RoundedIsNear(b / tolerance);
    var d := a / tolerance - b / tolerance;
    assert -1.0 <= d <= 1.0;
    assert a / tolerance * tolerance == a && b / tolerance * tolerance == b;
    assert d * tolerance == a - b;
    Scaled(d, tolerance);
  }

  lemma Scaled(d: real, t: real)
    requires -1.0 <= d <= 1.0 && t > 0.0
    ensures -t <= d * t <= t
  {}

  predicate AgreedByValue(item: CrossItem, tolerance: real) {
    item.byValue ==> item.verdict.Agree? && item.earlier.Some? && item.later.Some?
                     && Abs(item.earlier.value - item.later.value) <= tolerance
                        && Judge(item.earlier.value, item.later.value, tolerance).Agree?
  }

  lemma PairAgrees(items: seq<CrossItem>, tolerance: real, i: nat)
    requires tolerance > 0.0 && AllOneSided(items) && i < |items| && Partner(Slots(items, tolerance), i).Some?
    ensures AgreedByValue(PairOf(items[i], items[Partner(Slots(items, tolerance), i).value]), tolerance)
  {
    PartnerMeans(Slots(items, tolerance), i);
    var j := Partner(Slots(items, tolerance), i).value;
    assert OneSided(items[i]) && OneSided(items[j]);
    assert Slots(items, tolerance)[i] == SlotOf(items[i], tolerance)
           && Slots(items, tolerance)[j] == SlotOf(items[j], tolerance);
    SameBucketIsClose(items[i].earlier.value, items[j].later.value, tolerance);
  }

  // Every pair made by amount is one that judge calls equal; nothing else is marked as paired by amount.
  lemma {:induction false} PairedAgree(items: seq<CrossItem>, tolerance: real, n: nat, item: CrossItem)
    requires tolerance > 0.0 && AllOneSided(items) && n <= |items|
             && item in Paired(items, Partners(Slots(items, tolerance)), n)
    ensures AgreedByValue(item, tolerance)
  {
    if item in Paired(items, Partners(Slots(items, tolerance)), n - 1) {
      PairedAgree(items, tolerance, n - 1, item);
    } else {
      PairAgrees(items, tolerance, n - 1);
    }
  }

  lemma {:induction false} KeptAreItems(items: seq<CrossItem>, used: set<nat>, n: nat, item: CrossItem)
    requires n <= |items| && item in Without(items, used, n)
    ensures item in items
  {
    if item in Without(items, used, n - 1) {
      KeptAreItems(items, used, n - 1, item);
    }
  }

  lemma PairsByValueAgree(items: seq<CrossItem>, tolerance: real, item: CrossItem)
    requires tolerance > 0.0 && AllOneSided(items) && item in PairedByValue(items, tolerance)
    ensures AgreedByValue(item, tolerance)
  {
    var partners := Partners(Slots(items, tolerance));
    if item in Paired(items, partners, |items|) {
      PairedAgree(items, tolerance, |items|, item);
    } else {
      KeptAreItems(items, Used(partners, |items|), |items|, item);
      assert OneSided(item);
    }
  }

  // ---------------------------------------------------------------- the whole check

  lemma {:induction false} AloneOneSided(side: Side, name: string, cells: seq<Cell>, verdict: Verdict)
    requires verdict.OnlyEarlier? || verdict.OnlyLater? || verdict.Ambiguous?
    ensures AllOneSided(AllAlone(side, name, cells, verdict))
  {
    if cells != [] {
      AloneOneSided(side, name, cells[..|cells| - 1], verdict);
    }
  }

  lemma JudgedIsNotLeftOver(a: real, b: real, tolerance: real)
    ensures var v := Judge(a, b, tolerance); !v.OnlyEarlier? && !v.OnlyLater? && !v.Ambiguous?
  {
  }

  lemma {:induction false} TogetherOneSided(name: string, mine: seq<Cell>, other: seq<Cell>, tolerance: real)
    requires |mine| == |other|
    ensures AllOneSided(AllTogether(name, mine, other, tolerance))
  {
    if mine != [] {
      var k := |mine| - 1;
      TogetherOneSided(name, mine[..k], other[..k], tolerance);
      JudgedIsNotLeftOver(mine[k].value, other[k].value, tolerance);
    }
  }

  lemma LabelOneSided(name: string, mine: seq<Cell>, other: seq<Cell>, tolerance: real)
    ensures AllOneSided(ForLabel(name, mine, other, tolerance))
  {
    AloneOneSided(Earlier, name, mine, Ambiguous);
    AloneOneSided(Later, name, other, Ambiguous);
    AloneOneSided(Earlier, name, mine, OnlyEarlier);
    AloneOneSided(Later, name, other, OnlyLater);
    if |mine| == |other| {
      TogetherOneSided(name, mine, other, tolerance);
    }
  }

  lemma {:induction false} LabelsOneSided(names: seq<string>, ours: map<string, seq<Cell>>,
      theirs: map<string, seq<Cell>>, tolerance: real)
    ensures AllOneSided(ForLabels(names, ours, theirs, tolerance))
  {
    if names != [] {
      var name := names[|names| - 1];
      LabelsOneSided(names[..|names| - 1], ours, theirs, tolerance);
      LabelOneSided(name, CellsOf(ours, name), CellsOf(theirs, name), tolerance);
    }
  }

  // The coarser of the two units.
  function Tolerance(earlier: ExtractedStatement, later: ExtractedStatement): (t: real)
    ensures t >= 1.0
  {
    MaxReal(FactorOf(earlier.unit), FactorOf(later.unit))
  }

  function ByLabels(lex: Lexicon, earlier: ExtractedStatement, later: ExtractedStatement,
      names: seq<string>): seq<CrossItem> {
    ForLabels(names, Labelled(lex, earlier, Current, |earlier.rows|), Labelled(lex, later, Prior, |later.rows|),
              Tolerance(earlier, later))
  }

  predicate Names(lex: Lexicon, earlier: ExtractedStatement, later: ExtractedStatement, names: seq<string>) {
    && Ascending(names)
    && (forall name :: name in Labelled(lex, earlier, Current, |earlier.rows|) ==> name in names)
    && (forall name :: name in Labelled(lex, later, Prior, |later.rows|) ==> name in names)
  }

  method CrossCheck(lex: Lexicon, earlier: ExtractedStatement, later: ExtractedStatement)
      returns (r: Result<seq<CrossItem>, CrossYearError>, ghost names: seq<string>)
    ensures r.Err? <==> earlier.table != later.table
    ensures r.Ok? ==> Names(lex, earlier, later, names)
                      && r.value == PairedByValue(ByLabels(lex, earlier, later, names), Tolerance(earlier, later))
  {
    names := [];
    if earlier.table != later.table {
      return Err(DifferentStatements), names;
    }
    var tolerance := Tolerance(earlier, later);
    var ours := ByLabel(lex, earlier, Current);
    var theirs := ByLabel(lex, later, Prior);
    var sorted := SortedNames(ours.Keys + theirs.Keys);
    var items: seq<CrossItem> := [];
    for k := 0 to |sorted|
      invariant items == ForLabels(sorted[..k], ours, theirs, tolerance)
    {
      assert sorted[..k + 1][..k] == sorted[..k];
      var more := ItemsOf(sorted[k], CellsOf(ours, sorted[k]), CellsOf(theirs, sorted[k]), tolerance);
      items := items + more;
    }
    assert sorted[..|sorted|] == sorted;
    names := sorted;
    var result := PairByValue(items, tolerance);
    r := Ok(result);
  }

  // Every valued row of either report appears exactly once among the items, before pairing by amount
  // and after it: for every entry there are as many items standing for it as rows giving it.
  lemma NothingIsLost(lex: Lexicon, earlier: ExtractedStatement, later: ExtractedStatement, names: seq<string>,
      e: Entry)
    requires Names(lex, earlier, later, names)
    ensures var before := ByLabels(lex, earlier, later, names);
            var after := PairedByValue(before, Tolerance(earlier, later));
            && Standing(Earlier, before, e) == Standing(Earlier, after, e) ==
               ValuedRows(lex, earlier, Current, |earlier.rows|, e)
            && Standing(Later, before, e) == Standing(Later, after, e) == ValuedRows(lex, later, Prior, |later.rows|, e)
  {
    var ours, theirs := Labelled(lex, earlier, Current, |earlier.rows|), Labelled(lex, later, Prior, |later.rows|);
    var before := ByLabels(lex, earlier, later, names);
    LabelsEntries(names, ours, theirs, Tolerance(earlier, later), e);
    LabelledIsComplete(lex, earlier, Current, |earlier.rows|, names, e);
    LabelledIsComplete(lex, later, Prior, |later.rows|, names, e);
    LabelsOneSided(names, ours, theirs, Tolerance(earlier, later));
    PairingLosesNothing(Earlier, before, Tolerance(earlier, later), e);
    PairingLosesNothing(Later, before, Tolerance(earlier, later), e);
  }

  // Every pair made by amount is within the tolerance for which judge says equal.
  lemma ValuePairsAgree(lex: Lexicon, earlier: ExtractedStatement, later: ExtractedStatement, names: seq<string>,
      item: CrossItem)
    requires item in PairedByValue(ByLabels(lex, earlier, later, names), Tolerance(earlier, later))
    ensures AgreedByValue(item, Tolerance(earlier, later))
  {
    LabelsOneSided(names, Labelled(lex, earlier, Current, |earlier.rows|), Labelled(lex, later, Prior, |later.rows|),
                   Tolerance(earlier, later));
    PairsByValueAgree(ByLabels(lex, earlier, later, names), Tolerance(earlier, later), item);
  }
}
