// Which words make a line: words of one height stay together, lines are apart, and pieces of a number
// are joined exactly when they touch.

module LineShapes {
  import opened Common
  import opened Statements
  import opened Layout

  // ---------------------------------------------------------------- lines

  // Words of one band are at most three points apart in height.
  lemma BandIsLevel(a: Word, b: Word)
    requires Band(a) == Band(b)
    ensures -3.0 <= a.top - b.top <= 3.0
  {
    RoundedIsNear(a.top / 3.0);
    RoundedIsNear(b.top / 3.0);
    assert a.top == a.top / 3.0 * 3.0 && b.top == b.top / 3.0 * 3.0;
  }

  lemma {:induction false} InsertedHas(line: seq<Word>, x: Word, w: Word)
    ensures w in Inserted(line, x) <==> w == x || w in line
  {
    if line != [] && line[|line| - 1].x0 > x.x0 {
      InsertedHas(line[..|line| - 1], x, w);
      assert line == line[..|line| - 1] + [line[|line| - 1]];
    }
  }

  lemma {:induction false} SortedHas(words: seq<Word>, w: Word)
    ensures w in SortedByX(words) <==> w in words
  {
    if words != [] {
      SortedHas(words[..|words| - 1], w);
      InsertedHas(SortedByX(words[..|words| - 1]), words[|words| - 1], w);
      assert words == words[..|words| - 1] + [words[|words| - 1]];
    }
  }

  lemma {:induction false} BandHas(words: seq<Word>, n: nat, band: int, w: Word)
    requires n <= |words|
    ensures w in InBand(Bands(words, n), band) <==> w in words[..n] && Band(w) == band
  {
    if n > 0 {
      BandHas(words, n - 1, band, w);
      InBandUpdated(Bands(words, n - 1), Band(words[n - 1]), words[n - 1], band);
      assert words[..n] == words[..n - 1] + [words[n - 1]];
    }
  }

  // Some line has all words of the band.
  predicate HasBand(rows: map<int, seq<Word>>, lines: seq<seq<Word>>, band: int) {
    exists k :: 0 <= k < |lines| && AllIn(rows, band, lines[k])
  }

  predicate AllIn(rows: map<int, seq<Word>>, band: int, line: seq<Word>) {
    forall w :: w in InBand(rows, band) ==> w in line
  }

  lemma {:induction false} BandsStayTogether(rows: map<int, seq<Word>>, bands: seq<int>, band: int)
    requires band in bands
    ensures HasBand(rows, Merged(rows, bands), band)
  {
    var rest, last := bands[..|bands| - 1], bands[|bands| - 1];
    var before, line := Merged(rows, rest), SortedByX(InBand(rows, last));
    var after := Merged(rows, bands);
    forall w
      ensures w in line <==> w in InBand(rows, last)
    {
      SortedHas(InBand(rows, last), w);
    }
    if last == band {
      JoinedHas(before, line);
      var k := |after| - 1;
      assert AllIn(rows, band, after[k]);
    } else {
      assert bands == rest + [last];
      BandsStayTogether(rows, rest, band);
      var k :| 0 <= k < |before| && AllIn(rows, band, before[k]);
      JoinedGrows(before, line, k);
      assert AllIn(rows, band, after[k]);
    }
  }

  lemma JoinedHas(merged: seq<seq<Word>>, line: seq<Word>)
    ensures Joined(merged, line) != []
    ensures forall w :: w in line ==> w in Joined(merged, line)[|Joined(merged, line)| - 1]
  {
    if Joined(merged, line) != merged + [line] {
      forall w | w in line
        ensures w in SortedByX(merged[|merged| - 1] + line)
      {
        SortedHas(merged[|merged| - 1] + line, w);
      }
    }
  }

  lemma JoinedGrows(merged: seq<seq<Word>>, line: seq<Word>, k: nat)
    requires k < |merged|
    ensures k < |Joined(merged, line)| && forall w :: w in merged[k] ==> w in Joined(merged, line)[k]
  {
    if Joined(merged, line) != merged + [line] && k == |merged| - 1 {
      forall w | w in merged[k]
        ensures w in SortedByX(merged[k] + line)
      {
        SortedHas(merged[k] + line, w);
      }
    }
  }

  // Words of one band are in one line.
  lemma SameBandSameLine(words: seq<Word>, a: Word, b: Word)
    requires a in words && b in words && Band(a) == Band(b)
    ensures exists k :: 0 <= k < |Lines(words)| && a in Lines(words)[k] && b in Lines(words)[k]
  {
    var rows, bands := Bands(words, |words|), Order(words, |words|);
    OrderListsBands(words, |words|);
    assert words[..|words|] == words;
    BandHas(words, |words|, Band(a), a);
    BandHas(words, |words|, Band(a), b);
    assert Band(a) in rows;
    BandsStayTogether(rows, bands, Band(a));
    var k :| 0 <= k < |Lines(words)| && AllIn(rows, Band(a), Lines(words)[k]);
    assert a in Lines(words)[k] && b in Lines(words)[k];
  }

  // The next line begins with a band whose leftmost word is three points or more from this line's.
  predicate StartsApart(line: seq<Word>, next: seq<Word>) {
    line == [] || next == [] || exists w :: w in next && (w.top - line[0].top >= 3.0 || line[0].top - w.top >= 3.0)
  }

  lemma {:induction false} LinesAreApart(rows: map<int, seq<Word>>, bands: seq<int>, k: nat)
    requires k + 1 < |Merged(rows, bands)|
    ensures StartsApart(Merged(rows, bands)[k], Merged(rows, bands)[k + 1])
  {
    var before, line := Merged(rows, bands[..|bands| - 1]), SortedByX(InBand(rows, bands[|bands| - 1]));
    var after := Merged(rows, bands);
    hide SortedByX, InBand;
    if k + 1 < |before| {
      LinesAreApart(rows, bands[..|bands| - 1], k);
      JoinedGrows(before, line, k + 1);
      assert after[k] == before[k];
      if before[k] != [] && before[k + 1] != [] {
        var w: Word :| w in before[k + 1] && (w.top - before[k][0].top >= 3.0 || before[k][0].top - w.top >= 3.0);
        assert w in after[k + 1];
      } else {
        assert after[k + 1] == before[k + 1] || before[k] == [];
      }
    } else if line != [] {
      assert line[0] in line;
    }
  }

  // ---------------------------------------------------------------- numbers in pieces

  // Two neighbours are joined when both look like numbers and at most one point lies between them.
  predicate Touching(numeric: string -> bool, a: Word, b: Word) {
    numeric(a.text) && numeric(b.text) && b.x0 <= a.x1 + 1.0
  }

  lemma NoneTouchAfterwards(numeric: string -> bool, line: seq<Word>, k: nat)
    requires k + 1 < |WithNumbersJoined(numeric, line)|
    ensures !Touching(numeric, WithNumbersJoined(numeric, line)[k], WithNumbersJoined(numeric, line)[k + 1])
  {
    NothingLeftToJoin(numeric, line, k);
  }

  // A line without touching pieces stays as it is.
  lemma {:induction false} UntouchedStays(numeric: string -> bool, line: seq<Word>)
    requires forall k :: 0 <= k && k + 1 < |line| ==> !Touching(numeric, line[k], line[k + 1])
    ensures WithNumbersJoined(numeric, line) == line
  {
    if line != [] {
      var rest := line[..|line| - 1];
      UntouchedStays(numeric, rest);
      assert line == rest + [line[|line| - 1]];
      if |line| > 1 {
        assert !Touching(numeric, line[|line| - 2], line[|line| - 1]);
      }
    }
  }

  // A joined word reaches from the first piece's left edge to the last one's right edge.
  lemma TwoPieces(numeric: string -> bool, a: Word, b: Word)
    requires Touching(numeric, a, b)
    ensures WithNumbersJoined(numeric, [a, b]) == [Word(a.text + b.text, a.x0, b.x1, a.top)]
  {
    assert [a, b][..1] == [a] && [a][..0] == [];
    assert WithNumbersJoined(numeric, [a]) == [a];
  }
}
