// Which field a row of a statement is matched to, told in its label and the text lines beside it.

module LabelChoices {
  import opened Common
  import opened Statements
  import opened Labels

  // A label names the field of its own form, or else the only field some names beginning with it stand for,
  // if it is ten characters or longer.
  lemma MatchMeans(lex: Lexicon, text: string, field: string)
    ensures var key := lex.normalize(text);
            Match(lex, text) == Some(field) <==>
            || (key in lex.names && lex.names[key] == field)
            || (&& key !in lex.names && |key| >= 10
                && (exists name :: name in lex.names && key <= name)
                && (forall name :: name in lex.names && key <= name ==> lex.names[name] == field))
  {
    var key := lex.normalize(text);
    var hits := PrefixHits(lex.names, key);
    if Match(lex, text) == Some(field) && key !in lex.names {
      assert hits == {field};
      forall name | name in lex.names && key <= name
        ensures lex.names[name] == field
      {
        assert lex.names[name] in hits;
      }
    }
    if (exists name :: name in lex.names && key <= name)
       && forall name :: name in lex.names && key <= name ==> lex.names[name] == field {
      var name :| name in lex.names && key <= name;
      assert lex.names[name] in hits;
      assert hits == {field};
    }
  }

  // The text-only line at this place, if nobody has it.
  function Beside(rows: seq<ExtractedRow>, used: set<nat>, k: int): string {
    if 0 <= k < |rows| && k !in used && rows[k].current == None && rows[k].prior == None then rows[k].name else ""
  }

  // A text with borrowed lines names a field, and another one than the row's own label names exactly.
  predicate NamesAnother(lex: Lexicon, own: string, text: string) {
    Match(lex, text) != None
    && !(own != "" && lex.normalize(own) in lex.names && Match(lex, text) == Some(lex.names[lex.normalize(own)]))
  }

  // With the line before, with the line after, with both, alone: the first that names a field is chosen.
  lemma ChoiceMeans(lex: Lexicon, rows: seq<ExtractedRow>, used: set<nat>, i: nat)
    requires i < |rows|
    ensures var own, before, after := lex.stripNote(rows[i].name), Beside(rows, used, i - 1), Beside(rows, used, i + 1);
            Choose(lex, rows, used, i) ==
            if before != "" && NamesAnother(lex, own, before + own) then Choice(Match(lex, before + own), [i - 1])
            else if after != "" && NamesAnother(lex, own, own + after) then Choice(Match(lex, own + after), [i + 1])
            else if before != "" && after != "" && NamesAnother(lex, own, before + own + after)
            then Choice(Match(lex, before + own + after), [i - 1, i + 1])
            else if own != "" && Match(lex, own) != None then Choice(Match(lex, own), [])
            else Choice(None, [])
  {
    hide Match, Exact, Candidates;
    var own, before, after := lex.stripNote(rows[i].name), TextAt(rows, used, i - 1), TextAt(rows, used, i + 1);
    var first := if before != "" then [Candidate(before + own, [i - 1])] else [];
    var second := if after != "" then [Candidate(own + after, [i + 1])] else [];
    var third := if before != "" && after != "" then [Candidate(before + own + after, [i - 1, i + 1])] else [];
    CandidatesAre(lex, rows, used, i);
    var options := Candidates(lex, rows, used, i);
    assert options == first + second + third + [Candidate(own, [])];
    AcceptedMeans(lex, own);
    TakeFirst(lex, own, first, second + third + [Candidate(own, [])]);
    TakeFirst(lex, own, second, third + [Candidate(own, [])]);
    TakeFirst(lex, own, third, [Candidate(own, [])]);
    assert options == first + (second + third + [Candidate(own, [])]);
    assert second + third + [Candidate(own, [])] == second + (third + [Candidate(own, [])]);
    TakeLast(lex, own);
  }

  lemma CandidatesAre(lex: Lexicon, rows: seq<ExtractedRow>, used: set<nat>, i: nat)
    requires i < |rows|
    ensures var own, before, after := lex.stripNote(rows[i].name), TextAt(rows, used, i - 1), TextAt(rows, used, i + 1);
            Candidates(lex, rows, used, i) ==
            (if before != "" then [Candidate(before + own, [i - 1])] else [])
            + (if after != "" then [Candidate(own + after, [i + 1])] else [])
            + (if before != "" && after != "" then [Candidate(before + own + after, [i - 1, i + 1])] else [])
            + [Candidate(own, [])]
  {
  }

  lemma AcceptedMeans(lex: Lexicon, own: string)
    ensures forall text, taken :: text != "" && taken != [] ==>
              (Accepts(lex, own, Candidate(text, taken)) <==> NamesAnother(lex, own, text))
    ensures Accepts(lex, own, Candidate(own, [])) <==> own != "" && Match(lex, own) != None
  {
  }

  // At most one option before the others.
  lemma TakeFirst(lex: Lexicon, own: string, option: seq<Candidate>, rest: seq<Candidate>)
    requires |option| <= 1
    ensures FirstAccepted(lex, own, option + rest, 0) ==
            if option != [] && Accepts(lex, own, option[0]) then Choice(Match(lex, option[0].text), option[0].taken)
            else FirstAccepted(lex, own, rest, 0)
  {
    if option == [] {
      assert option + rest == rest;
    } else {
      assert (option + rest)[0] == option[0];
      if !Accepts(lex, own, option[0]) {
        Skipped(lex, own, option, rest, 0);
      }
    }
  }

  lemma {:induction false} Skipped(lex: Lexicon, own: string, option: seq<Candidate>, rest: seq<Candidate>, from: nat)
    requires from <= |rest|
    ensures FirstAccepted(lex, own, option + rest, |option| + from) == FirstAccepted(lex, own, rest, from)
    decreases |rest| - from
  {
    if from < |rest| {
      assert (option + rest)[|option| + from] == rest[from];
      Skipped(lex, own, option, rest, from + 1);
    }
  }

  lemma TakeLast(lex: Lexicon, own: string)
    ensures FirstAccepted(lex, own, [Candidate(own, [])], 0) ==
            if Accepts(lex, own, Candidate(own, [])) then Choice(Match(lex, own), []) else Choice(None, [])
  {
    assert FirstAccepted(lex, own, [Candidate(own, [])], 1) == Choice(None, []);
  }

  // A row without a match is listed under its label in one form, or as having none.
  lemma ListedUnder(lex: Lexicon, row: ExtractedRow)
    ensures var own := lex.normalize(lex.stripNote(row.name));
            (own != "" ==> Unnamed(lex, row) == own) && (own == "" ==> Unnamed(lex, row) == "（无标签）")
  {
  }
}
