// Recognizing items: numbered rows are matched to fields by their labels. A label broken over lines may
// borrow the text rows next to it; nothing is guessed, and a field matched twice is used by no one.

module Labels {
  import opened Common
  import opened Statements

  // Labels in one form, the note number cut off, and the catalogue's names in that form with their fields.
  datatype Lexicon = Lexicon(normalize: string -> string, stripNote: string -> string, names: map<string, string>)

  datatype ResolvedLine = ResolvedLine(field: string, row: ExtractedRow, labelLines: nat)

  datatype Resolution = Resolution(lines: map<string, ResolvedLine>, ambiguous: seq<string>, unmatched: seq<string>)

  const MIN_PREFIX_MATCH := 10

  function PrefixHits(names: map<string, string>, key: string): set<string> {
    set name | name in names && key <= name :: names[name]
  }

  function Match(lex: Lexicon, text: string): Option<string> {
    var key := lex.normalize(text);
    if key in lex.names then Some(lex.names[key])
    else if |key| >= MIN_PREFIX_MATCH && |PrefixHits(lex.names, key)| == 1 then
      assert PrefixHits(lex.names, key) != {};
      Only(PrefixHits(lex.names, key))
    else None
  }

  function Only(hits: set<string>): (only: Option<string>)
    requires |hits| == 1
    ensures only.Some? && hits == {only.value}
  {
    assert hits != {};
    var field :| field in hits;
    assert hits - {field} == {} by {
      assert |hits - {field}| == 0;
    }
    assert forall f, g :: f in hits && g in hits ==> f == g;
    Some(field)
  }

  // ---------------------------------------------------------------- one row

  // The label at a position, if it is text only and not yet lent.
  function TextAt(rows: seq<ExtractedRow>, used: set<nat>, k: int): string {
    if k < 0 || k >= |rows| || k in used then "" else if TextOnly(rows[k]) then rows[k].name else ""
  }

  datatype Candidate = Candidate(text: string, taken: seq<nat>)

  // What to try, in order: with the line before, with the line after, with both, alone.
  function Candidates(lex: Lexicon, rows: seq<ExtractedRow>, used: set<nat>, i: nat): (options: seq<Candidate>)
    requires i < |rows|
    ensures |options| >= 1 && options[|options| - 1] == Candidate(lex.stripNote(rows[i].name), [])
    ensures forall o, k :: 0 <= o < |options| && k in options[o].taken ==> Lendable(rows, used, i, k)
  {
    var before, after, own := TextAt(rows, used, i - 1), TextAt(rows, used, i + 1), lex.stripNote(rows[i].name);
    (if before != "" then [Candidate(before + own, [i - 1])] else [])
    + (if after != "" then [Candidate(own + after, [i + 1])] else [])
    + (if before != "" && after != "" then [Candidate(before + own + after, [i - 1, i + 1])] else [])
    + [Candidate(own, [])]
  }

  predicate Lendable(rows: seq<ExtractedRow>, used: set<nat>, i: nat, k: nat) {
    k < |rows| && k !in used && TextOnly(rows[k]) && (k + 1 == i || k == i + 1)
  }

  datatype Choice = Choice(field: Option<string>, taken: seq<nat>)

  // The field the row's own label names exactly.
  function Exact(lex: Lexicon, own: string): Option<string> {
    if own != "" && lex.normalize(own) in lex.names then Some(lex.names[lex.normalize(own)]) else None
  }

  predicate Accepts(lex: Lexicon, own: string, o: Candidate) {
    o.text != "" && Match(lex, o.text).Some? && !(o.taken != [] && Match(lex, o.text) == Exact(lex, own))
  }

  function FirstAccepted(lex: Lexicon, own: string, options: seq<Candidate>, from: nat): Choice
    requires from <= |options|
    decreases |options| - from
  {
    if from == |options| then Choice(None, [])
    else if Accepts(lex, own, options[from]) then Choice(Match(lex, options[from].text), options[from].taken)
    else FirstAccepted(lex, own, options, from + 1)
  }

  function Choose(lex: Lexicon, rows: seq<ExtractedRow>, used: set<nat>, i: nat): Choice
    requires i < |rows|
  {
    FirstAccepted(lex, lex.stripNote(rows[i].name), Candidates(lex, rows, used, i), 0)
  }

  method ChooseLoop(lex: Lexicon, rows: seq<ExtractedRow>, used: set<nat>, i: nat) returns (c: Choice)
    requires i < |rows|
    ensures c == Choose(lex, rows, used, i)
  {
    var own := lex.stripNote(rows[i].name);
    var options := Candidates(lex, rows, used, i);
    var exact := Exact(lex, own);
    for o := 0 to |options|
      invariant FirstAccepted(lex, own, options, o) == FirstAccepted(lex, own, options, 0)
    {
      var matched := if options[o].text != "" then Match(lex, options[o].text) else None;
      if matched.None? {
        continue;
      }
      if options[o].taken != [] && matched == exact {
        continue;  // the row's own label is complete: the line beside it is not its own
      }
      return Choice(matched, options[o].taken);
    }
    c := Choice(None, []);
  }

  // ---------------------------------------------------------------- all rows

  // found maps a field to its line, or to nothing once two rows matched it.
  datatype State = State(found: map<string, Option<ResolvedLine>>, order: seq<string>, unmatched: seq<string>,
      used: set<nat>)

  function Unnamed(lex: Lexicon, row: ExtractedRow): string {
    var own := lex.normalize(lex.stripNote(row.name));
    if own == "" then UNLABELLED else own
  }

  function Taken(c: Choice): set<nat> {
    set k | k in c.taken
  }

  function After(lex: Lexicon, rows: seq<ExtractedRow>, n: nat): State
    requires n <= |rows|
  {
    if n == 0 then State(map[], [], [], {})
    else
      var s := After(lex, rows, n - 1);
      if TextOnly(rows[n - 1]) then s
      else Recorded(lex, s, rows[n - 1], Choose(lex, rows, s.used, n - 1))
  }

  function Recorded(lex: Lexicon, s: State, row: ExtractedRow, c: Choice): State {
    var used := s.used + Taken(c);
    if c.field.None? then s.(unmatched := s.unmatched + [Unnamed(lex, row)], used := used)
    else
      var field := c.field.value;
      s.(found := s.found[field := if field in s.found then None else Some(ResolvedLine(field, row, 1 + |c.taken|))],
         order := if field in s.found then s.order else s.order + [field],
         used := used)
  }

  // What becomes of row i.
  function ChoiceAt(lex: Lexicon, rows: seq<ExtractedRow>, i: nat): Choice
    requires i < |rows|
  {
    if TextOnly(rows[i]) then Choice(None, []) else Choose(lex, rows, After(lex, rows, i).used, i)
  }

  function Ambiguous(found: map<string, Option<ResolvedLine>>, order: seq<string>): (a: seq<string>)
    ensures forall f :: f in a <==> f in order && f in found && found[f].None?
  {
    if order == [] then []
    else
      var last := order[|order| - 1];
      Ambiguous(found, order[..|order| - 1]) + if last in found && found[last].None? then [last] else []
  }

  function Concluded(s: State): Resolution {
    Resolution(map f | f in s.found && s.found[f].Some? :: s.found[f].value, Ambiguous(s.found, s.order), s.unmatched)
  }

  method Resolve(lex: Lexicon, rows: seq<ExtractedRow>) returns (r: Resolution)
    ensures r == Concluded(After(lex, rows, |rows|))
  {
    var found: map<string, Option<ResolvedLine>> := map[];
    var order: seq<string> := [];
    var unmatched: seq<string> := [];
    var used: set<nat> := {};
    for i := 0 to |rows|
      invariant After(lex, rows, i) == State(found, order, unmatched, used)
    {
      if TextOnly(rows[i]) {
        continue;
      }
      var c := ChooseLoop(lex, rows, used, i);
      used := used + Taken(c);
      if c.field.None? {
        unmatched := unmatched + [Unnamed(lex, rows[i])];
        continue;
      }
      var field := c.field.value;
      if field in found {
        found := found[field := None];
      } else {
        order := order + [field];
        found := found[field := Some(ResolvedLine(field, rows[i], 1 + |c.taken|))];
      }
    }
    r := Concluded(State(found, order, unmatched, used));
  }

  // ---------------------------------------------------------------- resolution is a partition

  // How many of the first n rows chose a field.
  function Claims(lex: Lexicon, rows: seq<ExtractedRow>, n: nat, field: string): nat
    requires n <= |rows|
  {
    if n == 0 then 0
    else Claims(lex, rows, n - 1, field) + if ChoiceAt(lex, rows, n - 1).field == Some(field) then 1 else 0
  }

  lemma {:induction false} ClaimedBy(lex: Lexicon, rows: seq<ExtractedRow>, n: nat, i: nat, field: string)
    requires i < n <= |rows| && ChoiceAt(lex, rows, i).field == Some(field)
    ensures Claims(lex, rows, n, field) >= 1
    ensures Claims(lex, rows, n, field) == 1 ==>
              forall k :: 0 <= k < n && k != i ==> ChoiceAt(lex, rows, k).field != Some(field)
  {
    hide ChoiceAt;
    if n - 1 > i {
      ClaimedBy(lex, rows, n - 1, i, field);
    } else {
      NoneBefore(lex, rows, i, field);
    }
  }

  lemma {:induction false} NoneBefore(lex: Lexicon, rows: seq<ExtractedRow>, n: nat, field: string)
    requires n <= |rows|
    ensures Claims(lex, rows, n, field) == 0 <==> forall k :: 0 <= k < n ==> ChoiceAt(lex, rows, k).field != Some(field)
  {
    if n > 0 {
      NoneBefore(lex, rows, n - 1, field);
    }
  }

  // A field is found once it is claimed; its line is kept while one row claims it.
  lemma {:induction false} FoundIsClaimed(lex: Lexicon, rows: seq<ExtractedRow>, n: nat, field: string)
    requires n <= |rows|
    ensures var s := After(lex, rows, n);
            && (field in s.found <==> Claims(lex, rows, n, field) >= 1)
            && (field in s.found ==> (s.found[field].None? <==> Claims(lex, rows, n, field) >= 2))
            && (field in s.order <==> field in s.found)
  {
    if n > 0 {
      FoundIsClaimed(lex, rows, n - 1, field);
    }
  }

  lemma {:induction false} LineOf(lex: Lexicon, rows: seq<ExtractedRow>, n: nat, i: nat, field: string)
    requires i < n <= |rows| && ChoiceAt(lex, rows, i).field == Some(field) && Claims(lex, rows, n, field) == 1
    ensures field in After(lex, rows, n).found
    ensures After(lex, rows, n).found[field] == Some(ResolvedLine(field, rows[i], 1 + |ChoiceAt(lex, rows, i).taken|))
  {
    hide Choose;
    if n - 1 > i {
      ClaimedBy(lex, rows, n - 1, i, field);
      LineOf(lex, rows, n - 1, i, field);
    } else {
      FoundIsClaimed(lex, rows, i, field);
    }
  }

  // The labels of the numbered rows among the first n that matched nothing, in order.
  function Unmatched(lex: Lexicon, rows: seq<ExtractedRow>, n: nat): seq<string>
    requires n <= |rows|
  {
    if n == 0 then []
    else Unmatched(lex, rows, n - 1) + if !TextOnly(rows[n - 1]) && ChoiceAt(lex, rows, n - 1).field.None?
                                       then [Unnamed(lex, rows[n - 1])] else []
  }

  lemma {:induction false} UnmatchedIsListed(lex: Lexicon, rows: seq<ExtractedRow>, n: nat)
    requires n <= |rows|
    ensures After(lex, rows, n).unmatched == Unmatched(lex, rows, n)
  {
    if n > 0 {
      UnmatchedIsListed(lex, rows, n - 1);
    }
  }

  lemma {:induction false} UnmatchedHas(lex: Lexicon, rows: seq<ExtractedRow>, n: nat, i: nat)
    requires i < n <= |rows| && !TextOnly(rows[i]) && ChoiceAt(lex, rows, i).field.None?
    ensures Unnamed(lex, rows[i]) in Unmatched(lex, rows, n)
  {
    if n - 1 > i {
      UnmatchedHas(lex, rows, n - 1, i);
    }
  }

  // Each numbered row is the only match of one field, or one of several matches of a field declared
  // ambiguous, or unmatched.
  lemma Partition(lex: Lexicon, rows: seq<ExtractedRow>, i: nat)
    requires i < |rows| && !TextOnly(rows[i])
    ensures var r, c := Concluded(After(lex, rows, |rows|)), ChoiceAt(lex, rows, i);
            match c.field
            case None => Unnamed(lex, rows[i]) in r.unmatched
            case Some(field) =>
              if Claims(lex, rows, |rows|, field) == 1
              then field in r.lines && r.lines[field] == ResolvedLine(field, rows[i], 1 + |c.taken|)
                   && field !in r.ambiguous
              else field !in r.lines && field in r.ambiguous
  {
    var c := ChoiceAt(lex, rows, i);
    if c.field.None? {
      UnmatchedIsListed(lex, rows, |rows|);
      UnmatchedHas(lex, rows, |rows|, i);
    } else {
      ClaimedBy(lex, rows, |rows|, i, c.field.value);
      FoundIsClaimed(lex, rows, |rows|, c.field.value);
      if Claims(lex, rows, |rows|, c.field.value) == 1 {
        LineOf(lex, rows, |rows|, i, c.field.value);
      }
    }
  }

  // And nothing else is reported: a line comes from the one row that chose its field, an ambiguous
  // field from two or more rows.
  lemma OnlyRowsAreReported(lex: Lexicon, rows: seq<ExtractedRow>, field: string)
    ensures var r := Concluded(After(lex, rows, |rows|));
            && (field in r.lines <==> Claims(lex, rows, |rows|, field) == 1)
            && (field in r.ambiguous <==> Claims(lex, rows, |rows|, field) >= 2)
            && r.unmatched == Unmatched(lex, rows, |rows|)
            && (field in r.lines ==> exists i :: 0 <= i < |rows| && ChoiceAt(lex, rows, i).field == Some(field)
                                                 && r.lines[field].row == rows[i])
  {
    FoundIsClaimed(lex, rows, |rows|, field);
    UnmatchedIsListed(lex, rows, |rows|);
    if Claims(lex, rows, |rows|, field) == 1 {
      NoneBefore(lex, rows, |rows|, field);
      var i :| 0 <= i < |rows| && ChoiceAt(lex, rows, i).field == Some(field);
      LineOf(lex, rows, |rows|, i, field);
    }
  }

  // ---------------------------------------------------------------- borrowed lines

  lemma {:induction false} AcceptedIsCandidate(lex: Lexicon, own: string, options: seq<Candidate>, from: nat)
    requires from <= |options|
    ensures var c := FirstAccepted(lex, own, options, from);
            c == Choice(None, [])
            || exists o :: from <= o < |options| && Accepts(lex, own, options[o])
                           && c == Choice(Match(lex, options[o].text), options[o].taken)
    decreases |options| - from
  {
    if from < |options| && !Accepts(lex, own, options[from]) {
      AcceptedIsCandidate(lex, own, options, from + 1);
    }
  }

  // A row borrows only text lines right beside it that nobody has, and only when together they name
  // something other than what its own label names.
  lemma {:induction false} BorrowsBeside(lex: Lexicon, rows: seq<ExtractedRow>, i: nat, k: nat)
    requires i < |rows| && k in ChoiceAt(lex, rows, i).taken
    ensures Lendable(rows, After(lex, rows, i).used, i, k)
    ensures ChoiceAt(lex, rows, i).field.Some?
            && ChoiceAt(lex, rows, i).field != Exact(lex, lex.stripNote(rows[i].name))
  {
    var used, own := After(lex, rows, i).used, lex.stripNote(rows[i].name);
    AcceptedIsCandidate(lex, own, Candidates(lex, rows, used, i), 0);
  }

  lemma {:induction false} UsedStays(lex: Lexicon, rows: seq<ExtractedRow>, i: nat, n: nat, k: nat)
    requires i < n <= |rows| && k in ChoiceAt(lex, rows, i).taken
    ensures k in After(lex, rows, n).used
  {
    if n - 1 > i {
      UsedStays(lex, rows, i, n - 1, k);
    }
  }

  // No text line is lent to two rows.
  lemma LentOnce(lex: Lexicon, rows: seq<ExtractedRow>, i: nat, j: nat, k: nat)
    requires i < |rows| && j < |rows| && k in ChoiceAt(lex, rows, i).taken && k in ChoiceAt(lex, rows, j).taken
    ensures i == j
  {
    BorrowsBeside(lex, rows, i, k);
    BorrowsBeside(lex, rows, j, k);
    if i < j {
      UsedStays(lex, rows, i, j, k);
    } else if j < i {
      UsedStays(lex, rows, j, i, k);
    }
  }

  // A row whose own label can be matched never ends unmatched.
  lemma {:induction false} OwnLabelSuffices(lex: Lexicon, own: string, options: seq<Candidate>, from: nat)
    requires from < |options| && options[|options| - 1] == Candidate(own, []) && own != "" && Match(lex, own).Some?
    ensures FirstAccepted(lex, own, options, from).field.Some?
    decreases |options| - from
  {
    if from < |options| - 1 && !Accepts(lex, own, options[from]) {
      OwnLabelSuffices(lex, own, options, from + 1);
    }
  }

  lemma NamedRowsMatch(lex: Lexicon, rows: seq<ExtractedRow>, i: nat)
    requires i < |rows| && !TextOnly(rows[i])
    requires lex.stripNote(rows[i].name) != "" && Match(lex, lex.stripNote(rows[i].name)).Some?
    ensures ChoiceAt(lex, rows, i).field.Some?
  {
    OwnLabelSuffices(lex, lex.stripNote(rows[i].name), Candidates(lex, rows, After(lex, rows, i).used, i), 0);
  }
}
