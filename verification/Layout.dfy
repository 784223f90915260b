// Page layout: words into lines, split numbers joined again, and the places of the amount columns.

module Layout {
  import opened Common
  import opened Statements

  // ---------------------------------------------------------------- left to right

  predicate LeftToRight(line: seq<Word>) {
    forall i, j :: 0 <= i < j < |line| ==> line[i].x0 <= line[j].x0
  }

  // Stable insertion: after every word that does not start further right.
  function Inserted(line: seq<Word>, w: Word): seq<Word> {
    if line == [] || line[|line| - 1].x0 <= w.x0 then line + [w]
    else Inserted(line[..|line| - 1], w) + [line[|line| - 1]]
  }

  function SortedByX(words: seq<Word>): seq<Word> {
    if words == [] then [] else Inserted(SortedByX(words[..|words| - 1]), words[|words| - 1])
  }

  function Count(words: seq<Word>, w: Word): nat {
    if words == [] then 0 else Count(words[..|words| - 1], w) + if words[|words| - 1] == w then 1 else 0
  }

  lemma {:induction false} CountConcat(a: seq<Word>, b: seq<Word>, w: Word)
    ensures Count(a + b, w) == Count(a, w) + Count(b, w)
  {
    if b == [] {
      assert a + b == a;
    } else {
      assert (a + b)[..|a + b| - 1] == a + b[..|b| - 1];
      CountConcat(a, b[..|b| - 1], w);
    }
  }

  lemma {:induction false} InsertedKeeps(line: seq<Word>, x: Word, w: Word)
    ensures Count(Inserted(line, x), w) == Count(line, w) + if x == w then 1 else 0
    ensures Inserted(line, x) != []
  {
    if line == [] || line[|line| - 1].x0 <= x.x0 {
      CountConcat(line, [x], w);
    } else {
      InsertedKeeps(line[..|line| - 1], x, w);
      CountConcat(Inserted(line[..|line| - 1], x), [line[|line| - 1]], w);
    }
  }

  lemma {:induction false} InsertedInOrder(line: seq<Word>, x: Word)
    requires LeftToRight(line)
    ensures LeftToRight(Inserted(line, x))
    ensures forall i :: 0 <= i < |Inserted(line, x)| ==> Inserted(line, x)[i] == x || Inserted(line, x)[i] in line
  {
    if line != [] && line[|line| - 1].x0 > x.x0 {
      InsertedInOrder(line[..|line| - 1], x);
    }
  }

  lemma {:induction false} SortingKeeps(words: seq<Word>, w: Word)
    ensures Count(SortedByX(words), w) == Count(words, w)
    ensures words != [] ==> SortedByX(words) != []
  {
    if words != [] {
      SortingKeeps(words[..|words| - 1], w);
      InsertedKeeps(SortedByX(words[..|words| - 1]), words[|words| - 1], w);
    }
  }

  lemma {:induction false} SortingOrders(words: seq<Word>)
    ensures LeftToRight(SortedByX(words))
  {
    if words != [] {
      SortingOrders(words[..|words| - 1]);
      InsertedInOrder(SortedByX(words[..|words| - 1]), words[|words| - 1]);
    }
  }

  // ---------------------------------------------------------------- lines

  function Band(w: Word): int {
    Rounded(w.top / 3.0)
  }

  function InBand(rows: map<int, seq<Word>>, band: int): seq<Word> {
    if band in rows then rows[band] else []
  }

  function Bands(words: seq<Word>, n: nat): (rows: map<int, seq<Word>>)
    requires n <= |words|
    ensures forall band :: band in rows ==> rows[band] != []
  {
    if n == 0 then map[]
    else
      var rows := Bands(words, n - 1);
      rows[Band(words[n - 1]) := InBand(rows, Band(words[n - 1])) + [words[n - 1]]]
  }

  // The next band, sorted, joins the line above it when their first words are less than 3 apart.
  function Joined(merged: seq<seq<Word>>, line: seq<Word>): seq<seq<Word>> {
    if merged != [] && line != [] && merged[|merged| - 1] != [] && Abs(line[0].top - merged[|merged| - 1][0].top) < 3.0
    then merged[..|merged| - 1] + [SortedByX(merged[|merged| - 1] + line)]
    else merged + [line]
  }

  function Merged(rows: map<int, seq<Word>>, bands: seq<int>): seq<seq<Word>> {
    if bands == [] then []
    else Joined(Merged(rows, bands[..|bands| - 1]), SortedByX(InBand(rows, bands[|bands| - 1])))
  }

  predicate Ascending(bands: seq<int>) {
    forall i, j :: 0 <= i < j < |bands| ==> bands[i] < bands[j]
  }

  // Adding a number to an ascending list that may already have it.
  function WithBand(bands: seq<int>, band: int): seq<int> {
    if bands == [] || bands[|bands| - 1] < band then bands + [band]
    else if bands[|bands| - 1] == band then bands
    else WithBand(bands[..|bands| - 1], band) + [bands[|bands| - 1]]
  }

  lemma {:induction false} WithBandAscends(bands: seq<int>, band: int)
    requires Ascending(bands)
    ensures Ascending(WithBand(bands, band))
    ensures forall x :: x in WithBand(bands, band) <==> x == band || x in bands
  {
    if bands != [] && bands[|bands| - 1] > band {
      var rest, last := bands[..|bands| - 1], bands[|bands| - 1];
      WithBandAscends(rest, band);
      assert bands == rest + [last];
      forall i | 0 <= i < |WithBand(rest, band)|
        ensures WithBand(rest, band)[i] < last
      {
        assert WithBand(rest, band)[i] in WithBand(rest, band);
      }
    }
  }

  // The bands in use, ascending.
  function Order(words: seq<Word>, n: nat): seq<int>
    requires n <= |words|
  {
    if n == 0 then [] else WithBand(Order(words, n - 1), Band(words[n - 1]))
  }

  lemma {:induction false} OrderListsBands(words: seq<Word>, n: nat)
    requires n <= |words|
    ensures Ascending(Order(words, n))
    ensures forall band :: band in Order(words, n) <==> band in Bands(words, n)
  {
    if n > 0 {
      OrderListsBands(words, n - 1);
      WithBandAscends(Order(words, n - 1), Band(words[n - 1]));
    }
  }

  function Lines(words: seq<Word>): seq<seq<Word>> {
    Merged(Bands(words, |words|), Order(words, |words|))
  }

  method LinesOf(words: seq<Word>) returns (lines: seq<seq<Word>>)
    ensures lines == Lines(words)
  {
    var rows: map<int, seq<Word>> := map[];
    var order: seq<int> := [];
    for n := 0 to |words|
      invariant rows == Bands(words, n) && order == Order(words, n)
    {
      var band := Band(words[n]);
      order := WithBand(order, band);
      rows := rows[band := InBand(rows, band) + [words[n]]];
    }
    lines := [];
    for k := 0 to |order|
      invariant lines == Merged(rows, order[..k])
    {
      assert order[..k + 1][..k] == order[..k];
      lines := Joined(lines, SortedByX(InBand(rows, order[k])));
    }
    assert order[..|order|] == order;
  }

  // ---------------------------------------------------------------- no word is lost

  function CountAll(lines: seq<seq<Word>>, w: Word): nat {
    if lines == [] then 0 else CountAll(lines[..|lines| - 1], w) + Count(lines[|lines| - 1], w)
  }

  lemma CountAllSnoc(lines: seq<seq<Word>>, line: seq<Word>, w: Word)
    ensures CountAll(lines + [line], w) == CountAll(lines, w) + Count(line, w)
  {}

  lemma JoinedKeeps(merged: seq<seq<Word>>, line: seq<Word>, w: Word)
    ensures CountAll(Joined(merged, line), w) == CountAll(merged, w) + Count(line, w)
  {
    if Joined(merged, line) == merged + [line] {
      CountAllSnoc(merged, line, w);
    } else {
      var rest, last := merged[..|merged| - 1], merged[|merged| - 1];
      assert merged == rest + [last];
      CountAllSnoc(rest, last, w);
      CountAllSnoc(rest, SortedByX(last + line), w);
      SortingKeeps(last + line, w);
      CountConcat(last, line, w);
    }
  }

  function CountBands(rows: map<int, seq<Word>>, bands: seq<int>, w: Word): nat {
    if bands == [] then 0 else CountBands(rows, bands[..|bands| - 1], w) + Count(InBand(rows, bands[|bands| - 1]), w)
  }

  lemma {:induction false} MergedKeeps(rows: map<int, seq<Word>>, bands: seq<int>, w: Word)
    ensures CountAll(Merged(rows, bands), w) == CountBands(rows, bands, w)
  {
    if bands != [] {
      MergedKeeps(rows, bands[..|bands| - 1], w);
      SortingKeeps(InBand(rows, bands[|bands| - 1]), w);
      JoinedKeeps(Merged(rows, bands[..|bands| - 1]), SortedByX(InBand(rows, bands[|bands| - 1])), w);
    }
  }

  lemma NotBefore(bands: seq<int>)
    requires Ascending(bands) && bands != []
    ensures bands[|bands| - 1] !in bands[..|bands| - 1]
    ensures forall band :: band in bands <==> band in bands[..|bands| - 1] || band == bands[|bands| - 1]
  {}

  lemma InBandUpdated(rows: map<int, seq<Word>>, band: int, x: Word, other: int)
    ensures InBand(rows[band := InBand(rows, band) + [x]], other) ==
            if other == band then InBand(rows, band) + [x] else InBand(rows, other)
  {
  }

  lemma CountSnoc(words: seq<Word>, x: Word, w: Word)
    ensures Count(words + [x], w) == Count(words, w) + if x == w then 1 else 0
  {}

  lemma {:induction false} OneMoreInBand(rows: map<int, seq<Word>>, bands: seq<int>, band: int, x: Word, w: Word)
    requires Ascending(bands)
    ensures CountBands(rows[band := InBand(rows, band) + [x]], bands, w) ==
            CountBands(rows, bands, w) + if band in bands && x == w then 1 else 0
  {
    hide Count, InBand;
    if bands != [] {
      var last, rest := bands[|bands| - 1], bands[..|bands| - 1];
      OneMoreInBand(rows, rest, band, x, w);
      NotBefore(bands);
      InBandUpdated(rows, band, x, last);
      CountSnoc(InBand(rows, band), x, w);
    }
  }

  lemma {:induction false} BandsKeep(words: seq<Word>, n: nat, bands: seq<int>, w: Word)
    requires n <= |words| && Ascending(bands) && forall band :: band in Bands(words, n) ==> band in bands
    ensures CountBands(Bands(words, n), bands, w) == Count(words[..n], w)
  {
    if n == 0 {
      NothingInBands(bands, w);
    } else {
      var before, x := Bands(words, n - 1), words[n - 1];
      assert forall band :: band in before ==> band in Bands(words, n);
      BandsKeep(words, n - 1, bands, w);
      OneMoreInBand(before, bands, Band(x), x, w);
      assert words[..n] == words[..n - 1] + [x];
      CountConcat(words[..n - 1], [x], w);
    }
  }

  lemma {:induction false} NothingInBands(bands: seq<int>, w: Word)
    ensures CountBands(map[], bands, w) == 0
  {
    if bands != [] {
      NothingInBands(bands[..|bands| - 1], w);
    }
  }

  // Every word of the page is in the lines as often as on the page.
  lemma EveryWordInOneLine(words: seq<Word>, w: Word)
    ensures CountAll(Lines(words), w) == Count(words, w)
  {
    OrderListsBands(words, |words|);
    MergedKeeps(Bands(words, |words|), Order(words, |words|), w);
    BandsKeep(words, |words|, Order(words, |words|), w);
    assert words[..|words|] == words;
  }

  lemma {:induction false} LinesReadLeftToRight(rows: map<int, seq<Word>>, bands: seq<int>, k: nat)
    requires k < |Merged(rows, bands)|
    ensures LeftToRight(Merged(rows, bands)[k])
  {
    var before, line := Merged(rows, bands[..|bands| - 1]), SortedByX(InBand(rows, bands[|bands| - 1]));
    SortingOrders(InBand(rows, bands[|bands| - 1]));
    if before != [] {
      SortingOrders(before[|before| - 1] + line);
    }
    if k < |before| {
      LinesReadLeftToRight(rows, bands[..|bands| - 1], k);
    }
  }

  // ---------------------------------------------------------------- split numbers

  const TOUCHING := 1.0

  // numeric: looks like a number or a piece of one.
  predicate Touch(numeric: string -> bool, last: Word, w: Word) {
    numeric(last.text) && numeric(w.text) && w.x0 - last.x1 <= TOUCHING
  }

  function WithNumbersJoined(numeric: string -> bool, line: seq<Word>): seq<Word> {
    if line == [] then []
    else
      var before, w := WithNumbersJoined(numeric, line[..|line| - 1]), line[|line| - 1];
      if before != [] && Touch(numeric, before[|before| - 1], w) then
        var last := before[|before| - 1];
        before[..|before| - 1] + [Word(last.text + w.text, last.x0, w.x1, last.top)]
      else before + [w]
  }

  method JoinSplitNumbers(numeric: string -> bool, line: seq<Word>) returns (joined: seq<Word>)
    ensures joined == WithNumbersJoined(numeric, line)
  {
    joined := [];
    for n := 0 to |line|
      invariant joined == WithNumbersJoined(numeric, line[..n])
    {
      assert line[..n + 1][..n] == line[..n];
      var w := line[n];
      if joined != [] && Touch(numeric, joined[|joined| - 1], w) {
        var last := joined[|joined| - 1];
        joined := joined[..|joined| - 1] + [Word(last.text + w.text, last.x0, w.x1, last.top)];
      } else {
        joined := joined + [w];
      }
    }
    assert line[..|line|] == line;
  }

  function TextOf(line: seq<Word>): string {
    if line == [] then "" else TextOf(line[..|line| - 1]) + line[|line| - 1].text
  }

  lemma TextSnoc(line: seq<Word>, w: Word)
    ensures TextOf(line + [w]) == TextOf(line) + w.text
  {}

  lemma TextOfJoined(rest: seq<Word>, last: Word, w: Word)
    ensures TextOf(rest + [Word(last.text + w.text, last.x0, w.x1, last.top)]) == TextOf(rest + [last]) + w.text
  {}

  // Joining loses no text and moves none.
  lemma {:induction false} JoiningKeepsText(numeric: string -> bool, line: seq<Word>)
    ensures TextOf(WithNumbersJoined(numeric, line)) == TextOf(line)
  {
    if line != [] {
      var before, w := WithNumbersJoined(numeric, line[..|line| - 1]), line[|line| - 1];
      JoiningKeepsText(numeric, line[..|line| - 1]);
      if before != [] && Touch(numeric, before[|before| - 1], w) {
        assert before == before[..|before| - 1] + [before[|before| - 1]];
        TextOfJoined(before[..|before| - 1], before[|before| - 1], w);
      } else {
        TextSnoc(before, w);
      }
    }
  }

  // Nothing is left to join.
  lemma {:induction false} NothingLeftToJoin(numeric: string -> bool, line: seq<Word>, k: nat)
    requires k + 1 < |WithNumbersJoined(numeric, line)|
    ensures !Touch(numeric, WithNumbersJoined(numeric, line)[k], WithNumbersJoined(numeric, line)[k + 1])
  {
    var before := WithNumbersJoined(numeric, line[..|line| - 1]);
    if k + 1 < |before| {
      NothingLeftToJoin(numeric, line[..|line| - 1], k);
    }
  }

  // ---------------------------------------------------------------- columns

  const BIN := 8.0
  const APART := 30.0
  const NEAR_COLUMN := 12.0

  datatype ColumnProblem = OneColumn | MoreThanTwoColumns | ExpectedFourColumns(found: nat)

  // A heap of right edges: how many, and where on average.
  datatype Heap = Heap(size: nat, centre: real)

  function Total(xs: seq<real>): real {
    if xs == [] then 0.0 else Total(xs[..|xs| - 1]) + xs[|xs| - 1]
  }

  function Bin(edges: seq<real>, bin: int, n: nat): seq<real>
    requires n <= |edges|
  {
    if n == 0 then [] else if Rounded(edges[n - 1] / BIN) == bin then Bin(edges, bin, n - 1) + [edges[n - 1]]
    else Bin(edges, bin, n - 1)
  }

  function BinsUsed(edges: seq<real>, n: nat): seq<int>
    requires n <= |edges|
  {
    if n == 0 then [] else WithBand(BinsUsed(edges, n - 1), Rounded(edges[n - 1] / BIN))
  }

  predicate AtLeast(a: Heap, b: Heap) {
    a.size > b.size || (a.size == b.size && a.centre >= b.centre)
  }

  // Largest first.
  function Ranked(heaps: seq<Heap>, h: Heap): seq<Heap> {
    if heaps == [] || AtLeast(heaps[|heaps| - 1], h) then heaps + [h]
    else Ranked(heaps[..|heaps| - 1], h) + [heaps[|heaps| - 1]]
  }

  function Heaps(edges: seq<real>, bins: seq<int>): seq<Heap> {
    if bins == [] then []
    else
      var members := Bin(edges, bins[|bins| - 1], |edges|);
      Ranked(Heaps(edges, bins[..|bins| - 1]),
             Heap(|members|, if members == [] then 0.0 else Total(members) / |members| as real))
  }

  predicate FarFromAll(centre: real, places: seq<real>) {
    forall p :: 0 <= p < |places| ==> Abs(centre - places[p]) > APART
  }

  // The centres far enough from every larger one.
  function Places(heaps: seq<Heap>): seq<real> {
    if heaps == [] then []
    else
      var before, centre := Places(heaps[..|heaps| - 1]), heaps[|heaps| - 1].centre;
      if FarFromAll(centre, before) then before + [centre] else before
  }

  function NearCount(edges: seq<real>, centre: real, n: nat): nat
    requires n <= |edges|
  {
    if n == 0 then 0 else NearCount(edges, centre, n - 1) + if Abs(edges[n - 1] - centre) <= NEAR_COLUMN then 1 else 0
  }

  function Dense(edges: seq<real>, places: seq<real>, n: nat): seq<real>
    requires n <= |places|
  {
    if n == 0 then []
    else if NearCount(edges, places[n - 1], |edges|) as real >= 0.3 * NearCount(edges, places[0], |edges|) as real
         then Dense(edges, places, n - 1) + [places[n - 1]]
    else Dense(edges, places, n - 1)
  }

  function Lowest(xs: seq<real>): (i: nat)
    requires xs != []
    ensures i < |xs| && forall k :: 0 <= k < |xs| ==> xs[i] <= xs[k]
  {
    if |xs| == 1 then 0
    else
      var before := Lowest(xs[..|xs| - 1]);
      if xs[|xs| - 1] < xs[before] then |xs| - 1 else before
  }

  function TwoLowest(xs: seq<real>): (real, real)
    requires |xs| >= 2
  {
    var i := Lowest(xs);
    var rest := xs[..i] + xs[i + 1..];
    (xs[i], rest[Lowest(rest)])
  }

  // Four columns side by side: the left two are the group's own figures.
  function LeftOfFour(edges: seq<real>, places: seq<real>): Result<(real, real), ColumnProblem> {
    var dense := Dense(edges, places, |places|);
    if |dense| != 4 then Err(ExpectedFourColumns(|dense|)) else Ok(TwoLowest(dense))
  }

  function BothOfTwo(edges: seq<real>, places: seq<real>): Result<(real, real), ColumnProblem> {
    if |places| < 2 then Err(OneColumn)
    else if |places| >= 3
            && NearCount(edges, places[2], |edges|) as real >= 0.4 * NearCount(edges, places[0], |edges|) as real
    then Err(MoreThanTwoColumns)
    else Ok(TwoLowest(places[..2]))
  }

  function Columns(edges: seq<real>, sideBySide: bool): Result<(real, real), ColumnProblem> {
    var places := Places(Heaps(edges, BinsUsed(edges, |edges|)));
    if sideBySide then LeftOfFour(edges, places) else BothOfTwo(edges, places)
  }

  method FindColumns(edges: seq<real>, sideBySide: bool) returns (r: Result<(real, real), ColumnProblem>)
    ensures r == Columns(edges, sideBySide)
  {
    hide Places, Heaps, BinsUsed, LeftOfFour, BothOfTwo, NearCount;
    var heaps := HeapUp(edges);
    var places := KeepApart(heaps);
    var near := CountAllNear(edges, places);
    if sideBySide {
      r := PickOfFour(edges, places, near);
    } else {
      r := PickOfTwo(edges, places, near);
    }
  }

  method KeepApart(heaps: seq<Heap>) returns (places: seq<real>)
    ensures places == Places(heaps)
  {
    places := [];
    for k := 0 to |heaps|
      invariant places == Places(heaps[..k])
    {
      assert heaps[..k + 1][..k] == heaps[..k];
      if FarFromAll(heaps[k].centre, places) {
        places := places + [heaps[k].centre];
      }
    }
    assert heaps[..|heaps|] == heaps;
  }

  method CountAllNear(edges: seq<real>, places: seq<real>) returns (near: seq<nat>)
    ensures |near| == |places| && forall k :: 0 <= k < |places| ==> near[k] == NearCount(edges, places[k], |edges|)
  {
    near := [];
    for k := 0 to |places|
      invariant |near| == k && forall i :: 0 <= i < k ==> near[i] == NearCount(edges, places[i], |edges|)
    {
      var n := CountNear(edges, places[k]);
      near := near + [n];
    }
  }

  method PickOfFour(edges: seq<real>, places: seq<real>, near: seq<nat>)
      returns (r: Result<(real, real), ColumnProblem>)
    requires |near| == |places| && forall k :: 0 <= k < |places| ==> near[k] == NearCount(edges, places[k], |edges|)
    ensures r == LeftOfFour(edges, places)
  {
    hide NearCount, TwoLowest;
    var dense: seq<real> := [];
    for k := 0 to |places|
      invariant dense == Dense(edges, places, k)
    {
      if near[k] as real >= 0.3 * near[0] as real {
        dense := dense + [places[k]];
      }
    }
    r := if |dense| != 4 then Err(ExpectedFourColumns(|dense|)) else Ok(TwoLowest(dense));
  }

  method PickOfTwo(edges: seq<real>, places: seq<real>, near: seq<nat>) returns (r: Result<(real, real), ColumnProblem>)
    requires |near| == |places| && forall k :: 0 <= k < |places| ==> near[k] == NearCount(edges, places[k], |edges|)
    ensures r == BothOfTwo(edges, places)
  {
    hide NearCount, TwoLowest;
    if |places| < 2 {
      return Err(OneColumn);
    }
    if |places| >= 3 && near[2] as real >= 0.4 * near[0] as real {
      return Err(MoreThanTwoColumns);
    }
    r := Ok(TwoLowest(places[..2]));
  }

  method CountNear(edges: seq<real>, centre: real) returns (near: nat)
    ensures near == NearCount(edges, centre, |edges|)
  {
    near := 0;
    for n := 0 to |edges|
      invariant near == NearCount(edges, centre, n)
    {
      if Abs(edges[n] - centre) <= NEAR_COLUMN {
        near := near + 1;
      }
    }
  }

  // Equal heaps rank alike, so the order in which the bins were met does not show.
  method HeapUp(edges: seq<real>) returns (heaps: seq<Heap>)
    ensures heaps == Heaps(edges, BinsUsed(edges, |edges|))
  {
    hide WithBand, Ranked, Total, Rounded;
    var bins: map<int, seq<real>> := map[];
    var order: seq<int> := [];
    for n := 0 to |edges|
      invariant order == BinsUsed(edges, n)
      invariant forall bin :: (if bin in bins then bins[bin] else []) == Bin(edges, bin, n)
    {
      var bin := Rounded(edges[n] / BIN);
      order := WithBand(order, bin);
      bins := bins[bin := (if bin in bins then bins[bin] else []) + [edges[n]]];
    }
    heaps := [];
    for k := 0 to |order|
      invariant heaps == Heaps(edges, order[..k])
    {
      assert order[..k + 1][..k] == order[..k];
      var members := if order[k] in bins then bins[order[k]] else [];
      assert members == Bin(edges, order[k], |edges|);
      heaps := Ranked(heaps, Heap(|members|, if members == [] then 0.0 else Total(members) / |members| as real));
    }
    assert order[..|order|] == order;
  }

  predicate Spread(places: seq<real>) {
    forall i, j :: 0 <= i < j < |places| ==> Abs(places[i] - places[j]) > APART
  }

  lemma {:induction false} PlacesSpread(heaps: seq<Heap>)
    ensures Spread(Places(heaps))
  {
    if heaps != [] {
      PlacesSpread(heaps[..|heaps| - 1]);
    }
  }

  lemma {:induction false} DenseSpread(edges: seq<real>, places: seq<real>, n: nat)
    requires n <= |places| && Spread(places)
    ensures Spread(Dense(edges, places, n))
    ensures forall i :: 0 <= i < |Dense(edges, places, n)| ==> exists k :: 0 <= k < n && places[k] == Dense(edges,
        places, n)[i]
  {
    if n > 0 {
      DenseSpread(edges, places, n - 1);
    }
  }

  lemma TwoLowestSpread(xs: seq<real>)
    requires |xs| >= 2 && Spread(xs)
    ensures TwoLowest(xs).1 - TwoLowest(xs).0 > APART
  {}

  // The two columns, the left one first, are more than 30 points apart.
  lemma ColumnsAreApart(edges: seq<real>, sideBySide: bool)
    requires Columns(edges, sideBySide).Ok?
    ensures Columns(edges, sideBySide).value.1 - Columns(edges, sideBySide).value.0 > APART
  {
    var heaps := Heaps(edges, BinsUsed(edges, |edges|));
    var places := Places(heaps);
    PlacesSpread(heaps);
    DenseSpread(edges, places, |places|);
    if sideBySide {
      TwoLowestSpread(Dense(edges, places, |places|));
    } else {
      TwoLowestSpread(places[..2]);
    }
  }
}
