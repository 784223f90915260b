// Where the columns of a page lie: near the amounts they are the columns of, at the largest heaps of
// right edges, and with enough amounts beside them.

module ColumnPlaces {
  import opened Common
  import opened Layout

  // ---------------------------------------------------------------- heaps

  // What is heaped together lies within four points of the bin's middle.
  lemma {:induction false} BinMembers(edges: seq<real>, bin: int, n: nat, e: real)
    requires n <= |edges| && e in Bin(edges, bin, n)
    ensures e in edges && 8.0 * bin as real - 4.0 <= e <= 8.0 * bin as real + 4.0
  {
    if e == edges[n - 1] && Rounded(edges[n - 1] / BIN) == bin {
      RoundedIsNear(e / BIN);
      assert e / 8.0 * 8.0 == e;
    } else {
      BinMembers(edges, bin, n - 1, e);
    }
  }

  lemma {:induction false} BinIsUsed(edges: seq<real>, bin: int, n: nat)
    requires n <= |edges| && bin in BinsUsed(edges, n)
    ensures Bin(edges, bin, n) != []
  {
    var last := Rounded(edges[n - 1] / BIN);
    BinsAscend(edges, n - 1);
    WithBandAscends(BinsUsed(edges, n - 1), last);
    if last != bin {
      BinIsUsed(edges, bin, n - 1);
    }
  }

  lemma {:induction false} BinsAscend(edges: seq<real>, n: nat)
    requires n <= |edges|
    ensures Ascending(BinsUsed(edges, n))
  {
    if n > 0 {
      BinsAscend(edges, n - 1);
      WithBandAscends(BinsUsed(edges, n - 1), Rounded(edges[n - 1] / BIN));
    }
  }

  predicate Around(xs: seq<real>, low: real, high: real) {
    forall k :: 0 <= k < |xs| ==> low <= xs[k] <= high
  }

  lemma {:induction false} TotalBetween(xs: seq<real>, low: real, high: real)
    requires Around(xs, low, high)
    ensures |xs| as real * low <= Total(xs) <= |xs| as real * high
  {
    if xs != [] {
      var rest, last := xs[..|xs| - 1], xs[|xs| - 1];
      TotalBetween(rest, low, high);
      OneMore(|rest| as real, low, Total(rest), last, high);
      assert |xs| as real == |rest| as real + 1.0;
    }
  }

  lemma OneMore(n: real, low: real, sum: real, x: real, high: real)
    requires n * low <= sum <= n * high && low <= x <= high
    ensures (n + 1.0) * low <= sum + x <= (n + 1.0) * high
  {
  }

  // The mean of a heap lies where the heap does.
  lemma MeanBetween(xs: seq<real>, low: real, high: real)
    requires xs != [] && Around(xs, low, high)
    ensures low <= Total(xs) / |xs| as real <= high
  {
    TotalBetween(xs, low, high);
    QuotientBetween(Total(xs), |xs| as real, low, high);
  }

  lemma QuotientBetween(sum: real, n: real, low: real, high: real)
    requires n > 0.0 && n * low <= sum <= n * high
    ensures low <= sum / n <= high
  {
    assert sum / n * n == sum;
  }

  // A heap of these edges: all that round to one multiple of eight points, and their mean.
  predicate IsHeap(edges: seq<real>, bin: int, h: Heap) {
    var members := Bin(edges, bin, |edges|);
    members != [] && h.size == |members| && h.centre == Total(members) / |members| as real
  }

  lemma {:induction false} RankedHas(heaps: seq<Heap>, h: Heap, x: Heap)
    ensures x in Ranked(heaps, h) <==> x == h || x in heaps
  {
    if heaps != [] && !AtLeast(heaps[|heaps| - 1], h) {
      RankedHas(heaps[..|heaps| - 1], h, x);
      assert heaps == heaps[..|heaps| - 1] + [heaps[|heaps| - 1]];
    }
  }

  // The largest first.
  predicate InRank(heaps: seq<Heap>) {
    forall i, j :: 0 <= i < j < |heaps| ==> AtLeast(heaps[i], heaps[j])
  }

  lemma {:induction false} RankedInRank(heaps: seq<Heap>, h: Heap)
    requires InRank(heaps)
    ensures InRank(Ranked(heaps, h))
  {
    if heaps != [] && !AtLeast(heaps[|heaps| - 1], h) {
      var rest, last := heaps[..|heaps| - 1], heaps[|heaps| - 1];
      RankedInRank(rest, h);
      forall i | 0 <= i < |Ranked(rest, h)|
        ensures AtLeast(Ranked(rest, h)[i], last)
      {
        RankedHas(rest, h, Ranked(rest, h)[i]);
      }
    }
  }

  // The heaps are those of the bins, the largest first.
  lemma {:induction false} HeapsMean(edges: seq<real>, bins: seq<int>)
    requires forall bin :: bin in bins ==> Bin(edges, bin, |edges|) != []
    ensures InRank(Heaps(edges, bins))
    ensures forall h :: h in Heaps(edges, bins) ==> exists bin :: bin in bins && IsHeap(edges, bin, h)
    ensures forall bin :: bin in bins ==> exists h :: h in Heaps(edges, bins) && IsHeap(edges, bin, h)
  {
    if bins != [] {
      var rest, last := bins[..|bins| - 1], bins[|bins| - 1];
      var members := Bin(edges, last, |edges|);
      var heap := Heap(|members|, Total(members) / |members| as real);
      HeapsMean(edges, rest);
      RankedInRank(Heaps(edges, rest), heap);
      assert bins == rest + [last];
      forall h
        ensures h in Heaps(edges, bins) <==> h == heap || h in Heaps(edges, rest)
      {
        RankedHas(Heaps(edges, rest), heap, h);
      }
      assert IsHeap(edges, last, heap) && heap in Heaps(edges, bins);
      forall h | h in Heaps(edges, rest)
        ensures exists bin :: bin in bins && IsHeap(edges, bin, h)
      {
        var bin :| bin in rest && IsHeap(edges, bin, h);
        assert bin in bins;
      }
      forall bin | bin in rest
        ensures exists h :: h in Heaps(edges, bins) && IsHeap(edges, bin, h)
      {
        var h :| h in Heaps(edges, rest) && IsHeap(edges, bin, h);
        assert h in Heaps(edges, bins);
      }
    }
  }

  // ---------------------------------------------------------------- places

  predicate IsCentre(heaps: seq<Heap>, place: real) {
    exists k :: 0 <= k < |heaps| && heaps[k].centre == place
  }

  predicate Near(places: seq<real>, centre: real) {
    exists k :: 0 <= k < |places| && -30.0 <= centre - places[k] <= 30.0
  }

  // Places are centres of heaps.
  lemma {:induction false} PlacesAreCentres(heaps: seq<Heap>, k: nat)
    requires k < |Places(heaps)|
    ensures IsCentre(heaps, Places(heaps)[k])
  {
    var rest, last := heaps[..|heaps| - 1], heaps[|heaps| - 1];
    if k < |Places(rest)| {
      PlacesAreCentres(rest, k);
      var j :| 0 <= j < |rest| && rest[j].centre == Places(heaps)[k];
      assert heaps[j].centre == Places(heaps)[k];
    } else {
      assert last.centre == Places(heaps)[k];
    }
  }

  // Every heap is within 30 points of a place.
  lemma {:induction false} HeapsAreNear(heaps: seq<Heap>, k: nat)
    requires k < |heaps|
    ensures Near(Places(heaps), heaps[k].centre)
  {
    var rest, last := heaps[..|heaps| - 1], heaps[|heaps| - 1];
    var before, places := Places(rest), Places(heaps);
    if k < |rest| {
      HeapsAreNear(rest, k);
      var j :| 0 <= j < |before| && -30.0 <= heaps[k].centre - before[j] <= 30.0;
      assert places[j] == before[j];
    } else if FarFromAll(last.centre, before) {
      assert places[|before|] == last.centre;
    } else {
      var j :| 0 <= j < |before| && Abs(last.centre - before[j]) <= APART;
      assert places[j] == before[j];
    }
  }

  // The first place is that of the largest heap.
  lemma {:induction false} FirstPlace(heaps: seq<Heap>)
    requires heaps != []
    ensures Places(heaps) != [] && Places(heaps)[0] == heaps[0].centre
  {
    if |heaps| > 1 {
      FirstPlace(heaps[..|heaps| - 1]);
    } else {
      assert Places(heaps[..0]) == [];
    }
  }

  // How many amounts end within twelve points.
  function Beside(edges: seq<real>, place: real): set<nat> {
    set k | 0 <= k < |edges| && place - 12.0 <= edges[k] <= place + 12.0
  }

  lemma {:induction false} CountsBeside(edges: seq<real>, place: real, n: nat)
    requires n <= |edges|
    ensures NearCount(edges, place, n) == |Beside(edges[..n], place)|
  {
    if n > 0 {
      CountsBeside(edges, place, n - 1);
      var before, after := Beside(edges[..n - 1], place), Beside(edges[..n], place);
      assert after == before + if place - 12.0 <= edges[n - 1] <= place + 12.0 then {n - 1} else {};
    } else {
      assert Beside(edges[..0], place) == {};
    }
  }

  // The places of a page's edges.
  function PlacesOf(edges: seq<real>): seq<real> {
    Places(Heaps(edges, BinsUsed(edges, |edges|)))
  }

  predicate NearSome(edges: seq<real>, place: real) {
    exists k :: 0 <= k < |edges| && edges[k] - 8.0 <= place <= edges[k] + 8.0
  }

  lemma PlacesNearEdges(edges: seq<real>)
    ensures forall k :: 0 <= k < |PlacesOf(edges)| ==> NearSome(edges, PlacesOf(edges)[k])
  {
    hide Heaps, Places, BinsUsed, NearSome, IsHeap, Bin;
    var bins := BinsUsed(edges, |edges|);
    var heaps := Heaps(edges, bins);
    forall bin | bin in bins
      ensures Bin(edges, bin, |edges|) != []
    {
      BinIsUsed(edges, bin, |edges|);
    }
    HeapsMean(edges, bins);
    forall k | 0 <= k < |Places(heaps)|
      ensures NearSome(edges, Places(heaps)[k])
    {
      PlacesAreCentres(heaps, k);
      var j :| 0 <= j < |heaps| && heaps[j].centre == Places(heaps)[k];
      assert heaps[j] in heaps;
      var bin :| bin in bins && IsHeap(edges, bin, heaps[j]);
      HeapNearEdges(edges, bin, heaps[j]);
    }
  }

  lemma HeapNearEdges(edges: seq<real>, bin: int, h: Heap)
    requires IsHeap(edges, bin, h)
    ensures NearSome(edges, h.centre)
  {
    var members, middle := Bin(edges, bin, |edges|), 8.0 * bin as real;
    forall i | 0 <= i < |members|
      ensures members[i] in edges && middle - 4.0 <= members[i] <= middle + 4.0
    {
      BinMembers(edges, bin, |edges|, members[i]);
    }
    MeanBetween(members, middle - 4.0, middle + 4.0);
    var k :| 0 <= k < |edges| && edges[k] == members[0];
  }

  // ---------------------------------------------------------------- the columns

  // The lowest, the second lowest, and no lower one besides.
  lemma TwoLowestAre(xs: seq<real>) returns (i: nat, j: nat)
    requires |xs| >= 2
    ensures i < |xs| && j < |xs| && i != j && TwoLowest(xs) == (xs[i], xs[j])
    ensures forall k :: 0 <= k < |xs| && k != i ==> xs[i] <= xs[k] && xs[j] <= xs[k]
  {
    i := Lowest(xs);
    var rest := xs[..i] + xs[i + 1..];
    var r := Lowest(rest);
    j := if r < i then r else r + 1;
    assert xs[j] == rest[r];
    forall k | 0 <= k < |xs| && k != i
      ensures xs[j] <= xs[k]
    {
      assert xs[k] == rest[if k < i then k else k - 1];
    }
  }

  lemma {:induction false} DenseMeans(edges: seq<real>, places: seq<real>, n: nat, place: real)
    requires n <= |places|
    ensures place in Dense(edges, places, n) <==>
            exists k :: 0 <= k < n && places[k] == place
                        && 10 * |Beside(edges, place)| >= 3 * |Beside(edges, places[0])|
  {
    if n > 0 {
      DenseMeans(edges, places, n - 1, place);
      CountsBeside(edges, places[n - 1], |edges|);
      CountsBeside(edges, places[0], |edges|);
      assert edges[..|edges|] == edges;
    }
  }

  // Two columns, the left one first, at the two places of the largest heaps; refused without a second
  // place, or when the third has two fifths as many amounts beside it as the first.
  lemma TwoColumnsMean(edges: seq<real>)
    ensures var r, places := Columns(edges, false), PlacesOf(edges);
            && (r == Err(OneColumn) <==> |places| < 2)
            && (r == Err(MoreThanTwoColumns) <==>
                |places| >= 3 && 10 * |Beside(edges, places[2])| >= 4 * |Beside(edges, places[0])|)
            && (r.Err? ==> r == Err(OneColumn) || r == Err(MoreThanTwoColumns))
            && (r.Ok? ==>
                  && {r.value.0, r.value.1} == {places[0], places[1]} && r.value.0 < r.value.1
                  && NearSome(edges, r.value.0) && NearSome(edges, r.value.1))
  {
    var places := PlacesOf(edges);
    PlacesNearEdges(edges);
    assert edges[..|edges|] == edges;
    if |places| >= 3 {
      CountsBeside(edges, places[0], |edges|);
      CountsBeside(edges, places[2], |edges|);
    }
    if Columns(edges, false).Ok? {
      ColumnsAreApart(edges, false);
      var i, j := TwoLowestAre(places[..2]);
    }
  }

  // Of four columns side by side, the two leftmost of the places with enough amounts beside them.
  lemma FourColumnsMean(edges: seq<real>)
    ensures var r, places := Columns(edges, true), PlacesOf(edges);
            && (r.Ok? ==>
                  && r.value.0 < r.value.1 && r.value.0 in places && r.value.1 in places
                  && NearSome(edges, r.value.0) && NearSome(edges, r.value.1)
                  && (forall k :: 0 <= k < |places|
                                  && 10 * |Beside(edges, places[k])| >= 3 * |Beside(edges, places[0])| ==>
                        places[k] == r.value.0 || places[k] >= r.value.1))
            && (r.Err? ==> r.error == ExpectedFourColumns(|Dense(edges, places, |places|)|)
                           && |Dense(edges, places, |places|)| != 4)
  {
    var places := PlacesOf(edges);
    PlacesNearEdges(edges);
    if Columns(edges, true).Ok? {
      var dense := Dense(edges, places, |places|);
      ColumnsAreApart(edges, true);
      var i, j := TwoLowestAre(dense);
      forall place | place in places
        ensures 10 * |Beside(edges, place)| >= 3 * |Beside(edges, places[0])| ==> place in dense
      {
        DenseMeans(edges, places, |places|, place);
      }
      forall d | d in dense
        ensures d in places
      {
        DenseMeans(edges, places, |places|, d);
      }
    }
  }
}
