// What views and decisions of collection requests do, told in the columns of the tables alone: which
// progress is shown, when a view closes a request, and what each operation records.

module RequestFields {
  import opened Common
  import opened Requests
  import opened RequestService

  // ---------------------------------------------------------------- progress

  // How far collecting has come, as the ingestion table says.
  predicate At(w: World, r: Request, stage: Stage) {
    r.ingestion != None && r.ingestion.value in w.ingestions && w.ingestions[r.ingestion.value].stage == stage
  }

  predicate Built(w: World, r: Request) {
    At(w, r, Succeeded) && r.ingestion.value in w.datasets
  }

  predicate BuildFailed(w: World, r: Request) {
    At(w, r, Succeeded) && r.ingestion.value !in w.datasets
    && w.ingestions[r.ingestion.value].buildError != None && w.ingestions[r.ingestion.value].buildError.value != ""
  }

  predicate Published(w: World, r: Request) {
    Built(w, r) && w.datasets[r.ingestion.value].published
  }

  predicate Registered(w: World, r: Request) {
    Built(w, r) && w.datasets[r.ingestion.value].registered
  }

  predicate RegistrationError(w: World, r: Request) {
    Built(w, r) && w.datasets[r.ingestion.value].registrationError != None
    && w.datasets[r.ingestion.value].registrationError.value != ""
  }

  // After approval each progress is shown exactly in its own case.
  lemma ProgressShown(w: World, r: Request, registration: bool)
    requires r.open && r.status == Approved && r.outcome == None
    ensures var g := Shown(w, r, registration);
            && (g == Collecting <==> At(w, r, Running))
            && (g == Failed <==> At(w, r, Broken) || BuildFailed(w, r))
            && (g == Building <==> At(w, r, Succeeded) && !Built(w, r) && !BuildFailed(w, r))
            && (g == QualityFailed <==> Built(w, r) && !Published(w, r))
            && (g == Available <==> Published(w, r) && (registration ==> Registered(w, r)))
            && (g == RegistrationFailed <==>
                Published(w, r) && registration && !Registered(w, r) && RegistrationError(w, r))
            && (g == Registering <==>
                Published(w, r) && registration && !Registered(w, r) && !RegistrationError(w, r))
            && (g == Queued <==> !At(w, r, Running) && !At(w, r, Broken) && !At(w, r, Succeeded))
  {
  }

  // Before approval and after the end nothing of that matters.
  lemma OtherwiseShown(w: World, r: Request, registration: bool)
    ensures r.open && r.outcome == None && r.status == Pending ==> Shown(w, r, registration) == InReview
    ensures r.outcome != None ==> Shown(w, r, registration) == r.outcome.value
    ensures !r.open && r.outcome == None ==>
              Shown(w, r, registration) == (match r.status
                                            case Rejected => Declined
                                            case Withdrawn => Retracted
                                            case _ => Failed)
  {
  }

  // A view closes a request exactly when its collection failed, its data did not pass, could not be
  // registered, or is available; and it records which.
  lemma ViewCloses(w: World, i: Id, registration: bool, at: int)
    requires Sound(w) && i in w.requests
    ensures var r := w.requests[i]; var after := Viewed(w, {i}, registration, at).requests;
            && after.Keys == w.requests.Keys && (forall k :: k in after && k != i ==> after[k] == w.requests[k])
            && (after[i] != r <==>
                && r.open && r.status == Approved
                && (|| At(w, r, Broken) || BuildFailed(w, r)
                    || (Built(w, r) && !Published(w, r))
                    || (Published(w, r) && (!registration || Registered(w, r) || RegistrationError(w, r)))))
            && (after[i] != r ==>
                  && after[i] == r.(open := false, closedAt := Some(at), outcome := after[i].outcome)
                  && (after[i].outcome == Some(Failed) <==> At(w, r, Broken) || BuildFailed(w, r))
                  && (after[i].outcome == Some(QualityFailed) <==> Built(w, r) && !Published(w, r))
                  && (after[i].outcome == Some(Available) <==> Published(w, r) && (registration ==> Registered(w, r)))
                  && (after[i].outcome == Some(RegistrationFailed) <==>
                      Published(w, r) && registration && !Registered(w, r)))
  {
    assert Shape(w.requests[i]);
    if w.requests[i].open && w.requests[i].status == Approved {
      ProgressShown(w, w.requests[i], registration);
    }
  }

  // The tables after View are those after viewing that request.
  lemma ViewedOne(w: World, i: Id, registration: bool, at: int)
    requires Sound(w) && i in w.requests
    ensures Viewed(w, {i}, registration, at) ==
            if Finishing(w, w.requests[i], registration) then Closed(w, i, Shown(w, w.requests[i], registration), at)
            else w
  {
    if w.requests[i].open {
      ViewedNothing(w, registration, at);
      ViewOneMore(w, {}, registration, i, at);
      assert {} + {i} == {i};
    } else {
      assert EndsOf(w, {i}, registration) == map[];
      assert Viewed(w, {i}, registration, at).requests == w.requests;
    }
  }

  // ---------------------------------------------------------------- what is recorded

  // The column holds 64 characters.
  function Cut(who: string): string {
    if |who| > 64 then who[..64] else who
  }

  // A request is created open and pending, as a refresh exactly if the company's data is published.
  lemma CreatingWrites(w: World, i: Id, code: string, actor: Actor, at: int)
    requires i !in w.requests
    ensures var after := Created(w, i, code, actor, at);
            && after == w.(requests := w.requests[i := after.requests[i]])
            && var r := after.requests[i];
               && r.code == code && r.status == Pending && r.open && r.requesters == map[actor := Requester(at, None)]
               && (r.kind == Refresh <==> code in w.published) && (r.kind == Initial <==> code !in w.published)
               && r.ingestion == None && r.decidedBy == None && r.decidedAt == None && r.note == None
               && r.outcome == None && r.closedAt == None
  {
  }

  // Joining adds the requester, or revives one who had withdrawn.
  lemma JoiningWrites(w: World, i: Id, actor: Actor, at: int)
    requires i in w.requests
    ensures Joined(w, i, actor, at) ==
            w.(requests := w.requests[i := w.requests[i].(
                 requesters := w.requests[i].requesters[actor := Requester(at, None)])])
  {
  }

  // Only an open, pending request can be withdrawn from, by somebody who still waits for it.
  lemma WithdrawingWrites(w: World, i: Id, actor: Actor, at: int)
    requires Sound(w) && i in w.requests
    ensures CanWithdraw(w.requests[i], actor) <==>
            && w.requests[i].open && w.requests[i].status == Pending
            && actor in w.requests[i].requesters && w.requests[i].requesters[actor].withdrawnAt == None
    ensures CanWithdraw(w.requests[i], actor) ==>
              var r := w.requests[i];
              var requesters := r.requesters[actor := Requester(r.requesters[actor].requestedAt, Some(at))];
              var last := forall other :: other in r.requesters && other != actor ==>
                                            r.requesters[other].withdrawnAt != None;
              WithdrawnBy(w, i, actor, at) == w.(requests := w.requests[i :=
                if last then r.(requesters := requesters, status := Withdrawn, decidedBy := Some(Cut(actor)),
                                decidedAt := Some(at), note := None, open := false, outcome := Some(Retracted),
                                closedAt := Some(at))
                else r.(requesters := requesters)])
  {
    if CanWithdraw(w.requests[i], actor) {
      var r := w.requests[i];
      assert Shape(r);
      WithdrawnRow(w, i, actor, at);
      LastActive(r, actor);
    }
  }

  lemma LastActive(r: Request, actor: Actor)
    requires actor in r.requesters && r.requesters[actor].withdrawnAt == None
    ensures |ActiveOnes(r)| <= 1 <==>
            forall other :: other in r.requesters && other != actor ==> r.requesters[other].withdrawnAt != None
  {
    assert actor in ActiveOnes(r);
    var others := ActiveOnes(r) - {actor};
    assert |others| == |ActiveOnes(r)| - 1;
    forall other | other in r.requesters && other != actor
      ensures other in others <==> r.requesters[other].withdrawnAt == None
    {
    }
    if forall other :: other in r.requesters && other != actor ==> r.requesters[other].withdrawnAt != None {
      assert others == {};
    }
    if |others| == 0 {
      assert others == {};
    }
  }

  lemma ApprovingWrites(w: World, i: Id, g: Id, who: string, at: int)
    requires i in w.requests
    ensures ApprovedBy(w, i, g, who, at) ==
            w.(ingestions := w.ingestions[g := Ingestion(Waiting, None)],
               requests := w.requests[i := w.requests[i].(
                 status := Approved, decidedBy := Some(Cut(who)), decidedAt := Some(at), note := None,
                 ingestion := Some(g))])
  {
  }

  lemma RejectingWrites(w: World, i: Id, who: string, at: int, note: string)
    requires i in w.requests && w.requests[i].open
    ensures RejectedBy(w, i, who, at, note) ==
            w.(requests := w.requests[i := w.requests[i].(
                 status := Rejected, decidedBy := Some(Cut(who)), decidedAt := Some(at), note := Some(note),
                 open := false, outcome := Some(Declined), closedAt := Some(at))])
  {
  }

  // A decision needs a request that is there, open and pending.
  lemma DecidableMeans(w: World, i: Id, shown: Progress)
    ensures var r := NotReviewable(w, i, shown);
            && (r == Err(RequestNotFound) <==> i !in w.requests)
            && (r == Err(RequestNotPending) <==>
                i in w.requests && !(w.requests[i].open && w.requests[i].status == Pending))
            && (r == Ok(shown) <==> i in w.requests && w.requests[i].open && w.requests[i].status == Pending)
  {
  }

  // ---------------------------------------------------------------- submit

  // An open request that no view would close.
  predicate Live(w: World, i: Id, registration: bool) {
    i in w.requests && w.requests[i].open && !Final(Shown(w, w.requests[i], registration))
  }

  predicate WaitsFor(w: World, i: Id, actor: Actor, registration: bool) {
    Live(w, i, registration) && actor in w.requests[i].requesters
    && w.requests[i].requesters[actor].withdrawnAt == None
  }

  // A submit answers the company's live request or a new one; it is refused exactly when the requester
  // waits for neither that one nor fewer live requests than the maximum; and a repeated one changes nothing.
  lemma SubmitAnswers(w: World, max: nat, registration: bool, code: string, actor: Actor, at: int, id: Id,
      ingestion: Id)
    requires Sound(w) && id !in w.requests && ingestion !in w.ingestions
    ensures var s := Submitted(w, max, registration, code, actor, at, id, ingestion);
            var waiting := set i | i in w.requests && WaitsFor(w, i, actor, registration);
            && (forall i :: Live(w, i, registration) && w.requests[i].code == code ==>
                  && (WaitsFor(w, i, actor, registration) ==> s.answer == Ok(i) && s.after == w)
                  && (!WaitsFor(w, i, actor, registration) && |waiting| < max ==> s.answer == Ok(i)))
            && ((forall i :: Live(w, i, registration) ==> w.requests[i].code != code) && |waiting| < max ==>
                  s.answer == Ok(id))
            && (s.answer.Err? <==>
                && |waiting| >= max
                && forall i :: WaitsFor(w, i, actor, registration) ==> w.requests[i].code != code)
  {
    hide Counted, Opened, Joined, Shape;
    FoundLive(w, registration, code);
    WaitingIsLive(w, registration, actor);
    RepeatedChangesNothing(w, registration, code, at);
    CurrentStays(w, registration, code, actor, at);
  }

  lemma FoundLive(w: World, registration: bool, code: string)
    requires Sound(w)
    ensures forall i :: Live(w, i, registration) && w.requests[i].code == code <==>
                        Current(w, registration, code) == Some(i)
  {
    forall i | i in w.requests
      ensures Live(w, i, registration) <==> w.requests[i].open && !Finishing(w, w.requests[i], registration)
      ensures w.requests[i].open && w.requests[i].code == code ==> IsOpenFor(w, i, code)
    {
      assert Shape(w.requests[i]);
    }
  }

  lemma WaitingIsLive(w: World, registration: bool, actor: Actor)
    requires Sound(w)
    ensures (set i | i in w.requests && WaitsFor(w, i, actor, registration)) == LiveOf(w, actor, registration)
  {
    forall i | i in w.requests
      ensures Live(w, i, registration) <==> w.requests[i].open && !Finishing(w, w.requests[i], registration)
    {
      assert Shape(w.requests[i]);
    }
  }

  lemma RepeatedChangesNothing(w: World, registration: bool, code: string, at: int)
    ensures Current(w, registration, code) != None ==> Looked(w, registration, code, at) == w
  {
    if Current(w, registration, code) != None {
      assert EndsOf(w, Seen(w, code), registration) == map[];
      assert Looked(w, registration, code, at).requests == w.requests;
    }
  }
}
