// Document versions under concurrent uploads and crawls. A writer finds or creates the document and
// holds its row until it commits the version, the current pointer and the index message together.

module Versions {
  import opened Common
  import opened Outbox

  type Address = string    // the document's canonical identity
  type VersionId = string
  type Pid = nat

  datatype Version = Version(doc: Address, no: nat, hash: string)

  datatype Document = Document(hash: string, current: Option<VersionId>)

  // An upload always adds a version; a crawl only if the content changed; a failed crawl records the
  // raw page as one.
  datatype Kind = Upload | Crawl | FailedCrawl

  datatype Step = Started | Holding | Numbered(no: nat)

  datatype Writer = Writer(kind: Kind, doc: Address, hash: string, step: Step)

  datatype State = State(
    documents: map<Address, Document>, versions: map<VersionId, Version>, intents: Intents,
    writers: map<Pid, Writer>)

  datatype Action =
    | Begin(pid: Pid, kind: Kind, doc: Address, hash: string)
    | Hold(pid: Pid)                    // find or create the document, FOR UPDATE
    | Fail(pid: Pid, raw: string)       // a crawl fails after the page was stored
    | Allocate(pid: Pid, highest: nat)  // the highest number so far, as the query finds it
    | Commit(pid: Pid, id: VersionId)
    | Rollback(pid: Pid)                // crash, lost lease, conflict

  const EMPTY: State := State(map[], map[], map[], map[])

  function IndexKey(id: VersionId): string {
    "info.index:" + id + ":v1"
  }

  function IndexIntent(id: VersionId): Intent {
    Intent("knowfeed.index.v1", id, id, map[], None)
  }

  predicate Holds(w: Writer, doc: Address) {
    w.doc == doc && !w.step.Started?
  }

  predicate RowFree(s: State, doc: Address) {
    forall pid :: pid in s.writers ==> !Holds(s.writers[pid], doc)
  }

  predicate NumberedAs(versions: map<VersionId, Version>, id: VersionId, doc: Address, no: nat) {
    id in versions && versions[id].doc == doc && versions[id].no == no
  }

  // What select max(version_no) yields, an empty result being nothing: no version of this number or more.
  ghost predicate IsHighest(versions: map<VersionId, Version>, doc: Address, highest: nat) {
    && (forall id :: id in versions && versions[id].doc == doc ==> versions[id].no <= highest)
    && (highest == 0 || Taken(versions, doc, highest))
  }

  ghost predicate Taken(versions: map<VersionId, Version>, doc: Address, no: nat) {
    exists id :: NumberedAs(versions, id, doc, no)
  }

  function With(s: State, pid: Pid, w: Writer): State {
    s.(writers := s.writers[pid := w])
  }

  function Without(s: State, pid: Pid): State {
    s.(writers := s.writers - {pid})
  }

  // The document as this transaction sees it: a row it inserted itself is not yet committed.
  function Seen(s: State, w: Writer): Document {
    if w.doc in s.documents then s.documents[w.doc] else Document(w.hash, None)
  }

  predicate Unchanged(s: State, w: Writer) {
    w.kind.Crawl? && Seen(s, w).hash == w.hash && Seen(s, w).current.Some?
  }

  function Beginning(s: State, pid: Pid, kind: Kind, doc: Address, hash: string): State {
    if pid in s.writers || kind.FailedCrawl? then s else With(s, pid, Writer(kind, doc, hash, Started))
  }

  function Taking(s: State, pid: Pid): State {
    if pid !in s.writers || !s.writers[pid].step.Started? || !RowFree(s, s.writers[pid].doc) then s
    else With(s, pid, s.writers[pid].(step := Holding))
  }

  function Failing(s: State, pid: Pid, raw: string): State {
    if pid !in s.writers || !s.writers[pid].kind.Crawl? then s
    else
      var w := s.writers[pid];
      With(s, pid, Writer(FailedCrawl, w.doc, raw, if w.step.Started? then Started else Holding))
  }

  ghost function Allocating(s: State, pid: Pid, highest: nat): State {
    if pid !in s.writers || !s.writers[pid].step.Holding? || !IsHighest(s.versions, s.writers[pid].doc, highest) then s
    else With(s, pid, s.writers[pid].(step := Numbered(highest + 1)))
  }

  // With its number: a crawl that found the current content commits nothing new.
  function Committing(s: State, pid: Pid, id: VersionId): State {
    if pid !in s.writers || !s.writers[pid].step.Numbered? then s
    else
      var w := s.writers[pid];
      if Unchanged(s, w) then Without(s, pid)
      else if id in s.versions || Noted(s.intents, IndexKey(id), IndexIntent(id)).None? then s
      else
        State(s.documents[w.doc := Document(w.hash, Some(id))],
              s.versions[id := Version(w.doc, w.step.no, w.hash)],
              Noted(s.intents, IndexKey(id), IndexIntent(id)).value,
              s.writers - {pid})
  }

  ghost function Next(s: State, a: Action): State {
    match a
    case Begin(pid, kind, doc, hash) => Beginning(s, pid, kind, doc, hash)
    case Hold(pid) => Taking(s, pid)
    case Fail(pid, raw) => Failing(s, pid, raw)
    case Allocate(pid, highest) => Allocating(s, pid, highest)
    case Commit(pid, id) => Committing(s, pid, id)
    case Rollback(pid) => Without(s, pid)
  }

  ghost function Run(s: State, actions: seq<Action>): State
    decreases |actions|
  {
    if actions == [] then s else Run(Next(s, actions[0]), actions[1..])
  }

  // ---------------------------------------------------------------- invariants

  ghost predicate Follows(versions: map<VersionId, Version>, doc: Address, no: nat) {
    no <= 1 || Taken(versions, doc, no - 1)
  }

  // A document's numbers have no repetition and no gap, and start at one.
  ghost predicate Gapless(versions: map<VersionId, Version>) {
    && (forall i, j, doc, no :: NumberedAs(versions, i, doc, no) && NumberedAs(versions, j, doc, no) ==> i == j)
    && (forall i, doc, no :: NumberedAs(versions, i, doc, no) ==> no >= 1 && Follows(versions, doc, no))
  }

  // The current pointer and the hash are those of the highest version.
  ghost predicate PointsTop(d: Document, doc: Address, versions: map<VersionId, Version>) {
    && d.current.Some? && d.current.value in versions
    && var v := versions[d.current.value];
       v.doc == doc && v.hash == d.hash && IsHighest(versions, doc, v.no)
  }

  ghost predicate Pointed(documents: map<Address, Document>, versions: map<VersionId, Version>) {
    && (forall doc {:trigger PointsTop(documents[doc], doc, versions)} :: doc in documents ==>
       PointsTop(documents[doc], doc, versions))
    && (forall id :: id in versions ==> versions[id].doc in documents)
  }

  predicate Indexed(versions: map<VersionId, Version>, intents: Intents) {
    forall id :: id in versions ==> IndexKey(id) in intents && intents[IndexKey(id)] == IndexIntent(id)
  }

  predicate Apart(w: Writer, u: Writer) {
    w.doc != u.doc || w.step.Started? || u.step.Started?
  }

  ghost predicate AloneOn(writers: map<Pid, Writer>, pid: Pid, w: Writer) {
    forall q {:trigger Apart(writers[q], w)} :: q in writers && q != pid ==> Apart(writers[q], w)
  }

  // No two writers hold one document.
  ghost predicate Exclusive(writers: map<Pid, Writer>) {
    forall p {:trigger writers[p]} :: p in writers ==> AloneOn(writers, p, writers[p])
  }

  // A number once allocated stays the next one while the row is held.
  ghost predicate StillNext(w: Writer, versions: map<VersionId, Version>) {
    w.step.Numbered? ==> w.step.no >= 1 && IsHighest(versions, w.doc, w.step.no - 1)
  }

  ghost predicate AllStillNext(writers: map<Pid, Writer>, versions: map<VersionId, Version>) {
    forall p {:trigger StillNext(writers[p], versions)} :: p in writers ==> StillNext(writers[p], versions)
  }

  ghost predicate Inv(s: State) {
    Gapless(s.versions) && Pointed(s.documents, s.versions) && Indexed(s.versions, s.intents) && Exclusive(s.writers)
    && AllStillNext(s.writers, s.versions)
  }

  // The highest number is held by a version, so the next one is free and follows it.
  lemma NextIsGapless(versions: map<VersionId, Version>, doc: Address, highest: nat, id: VersionId, hash: string)
    requires Gapless(versions) && IsHighest(versions, doc, highest) && id !in versions
    ensures Gapless(versions[id := Version(doc, highest + 1, hash)])
    ensures IsHighest(versions[id := Version(doc, highest + 1, hash)], doc, highest + 1)
  {
    var after := versions[id := Version(doc, highest + 1, hash)];
    assert NumberedAs(after, id, doc, highest + 1);
    forall i, d, no | NumberedAs(versions, i, d, no)
      ensures NumberedAs(after, i, d, no)
    {
    }
    forall i, j, d, no | NumberedAs(after, i, d, no) && NumberedAs(after, j, d, no)
      ensures i == j
    {
      assert i != id ==> NumberedAs(versions, i, d, no);
      assert j != id ==> NumberedAs(versions, j, d, no);
    }
    forall i, d, no | NumberedAs(after, i, d, no)
      ensures no >= 1 && Follows(after, d, no)
    {
      if i != id {
        assert NumberedAs(versions, i, d, no) && Follows(versions, d, no);
      } else if highest > 0 {
        var top :| NumberedAs(versions, top, doc, highest);
        assert NumberedAs(after, top, doc, highest);
      }
    }
  }

  lemma HighestElsewhere(versions: map<VersionId, Version>, id: VersionId, v: Version, other: Address, no: nat)
    requires id !in versions && v.doc != other && IsHighest(versions, other, no)
    ensures IsHighest(versions[id := v], other, no)
  {
    if no > 0 {
      var top :| NumberedAs(versions, top, other, no);
      assert NumberedAs(versions[id := v], top, other, no);
    }
  }

  lemma WriterKeeps(s: State, pid: Pid, w: Writer)
    requires Inv(s) && AloneOn(s.writers, pid, w) && StillNext(w, s.versions)
    ensures Inv(With(s, pid, w))
  {
    var after := s.writers[pid := w];
    forall p | p in after
      ensures StillNext(after[p], s.versions)
    {
      assert p != pid ==> StillNext(s.writers[p], s.versions);
    }
    forall p | p in after
      ensures AloneOn(after, p, after[p])
    {
      forall q | q in after && q != p
        ensures Apart(after[q], after[p])
      {
        if p == pid {
          assert Apart(s.writers[q], w);
        } else if q == pid {
          assert Apart(s.writers[p], w);
        } else {
          assert AloneOn(s.writers, p, s.writers[p]) && Apart(s.writers[q], s.writers[p]);
        }
      }
    }
  }

  // Fewer writers, with the versions as they see them.
  lemma FewerWriters(s: State, pid: Pid)
    requires Inv(s)
    ensures Exclusive(s.writers - {pid}) && AllStillNext(s.writers - {pid}, s.versions)
  {}

  lemma EndKeeps(s: State, pid: Pid)
    requires Inv(s)
    ensures Inv(Without(s, pid))
  {
    FewerWriters(s, pid);
  }

  lemma TakingKeeps(s: State, pid: Pid)
    requires Inv(s)
    ensures Inv(Taking(s, pid))
  {}

  // The same document held as before.
  lemma StaysAlone(s: State, pid: Pid, w: Writer)
    requires Inv(s) && pid in s.writers && w.doc == s.writers[pid].doc
             && w.step.Started? == s.writers[pid].step.Started?
    ensures AloneOn(s.writers, pid, w)
  {
    assert AloneOn(s.writers, pid, s.writers[pid]);
    forall q | q in s.writers && q != pid
      ensures Apart(s.writers[q], w)
    {
      assert Apart(s.writers[q], s.writers[pid]);
    }
  }

  lemma FailingKeeps(s: State, pid: Pid, raw: string)
    requires Inv(s)
    ensures Inv(Failing(s, pid, raw))
  {
    if pid in s.writers && s.writers[pid].kind.Crawl? {
      var w := s.writers[pid];
      var after := Writer(FailedCrawl, w.doc, raw, if w.step.Started? then Started else Holding);
      StaysAlone(s, pid, after);
      WriterKeeps(s, pid, after);
    }
  }

  lemma AllocatingKeeps(s: State, pid: Pid, highest: nat)
    requires Inv(s)
    ensures Inv(Allocating(s, pid, highest))
  {
    if pid in s.writers && s.writers[pid].step.Holding? && IsHighest(s.versions, s.writers[pid].doc, highest) {
      var after := s.writers[pid].(step := Numbered(highest + 1));
      StaysAlone(s, pid, after);
      WriterKeeps(s, pid, after);
    }
  }

  lemma CommittingPoints(s: State, id: VersionId, doc: Address, no: nat, hash: string)
    requires Inv(s) && id !in s.versions && no >= 1 && IsHighest(s.versions, doc, no - 1)
    ensures Pointed(s.documents[doc := Document(hash, Some(id))], s.versions[id := Version(doc, no, hash)])
  {
    hide Gapless, Indexed, Exclusive, AllStillNext;
    var documents, versions := s.documents[doc := Document(hash, Some(id))], s.versions[id := Version(doc, no, hash)];
    NextIsGapless(s.versions, doc, no - 1, id, hash);
    forall d | d in documents
      ensures PointsTop(documents[d], d, versions)
    {
      if d != doc {
        assert PointsTop(s.documents[d], d, s.versions);
        HighestElsewhere(s.versions, id, Version(doc, no, hash), d, s.versions[s.documents[d].current.value].no);
      }
    }
  }

  lemma OthersStillNext(s: State, pid: Pid, id: VersionId)
    requires Inv(s) && pid in s.writers && s.writers[pid].step.Numbered? && id !in s.versions
    ensures var w := s.writers[pid];
            AllStillNext(s.writers - {pid}, s.versions[id := Version(w.doc, w.step.no, w.hash)])
  {
    var w := s.writers[pid];
    var versions := s.versions[id := Version(w.doc, w.step.no, w.hash)];
    assert AloneOn(s.writers, pid, w);
    forall p | p in s.writers - {pid}
      ensures StillNext(s.writers[p], versions)
    {
      assert StillNext(s.writers[p], s.versions) && Apart(s.writers[p], w);
      if s.writers[p].step.Numbered? {
        HighestElsewhere(s.versions, id, Version(w.doc, w.step.no, w.hash), s.writers[p].doc, s.writers[p].step.no - 1);
      }
    }
  }

  lemma CommittingKeeps(s: State, pid: Pid, id: VersionId)
    requires Inv(s)
    ensures Inv(Committing(s, pid, id))
  {
    if pid in s.writers && s.writers[pid].step.Numbered? {
      if Unchanged(s, s.writers[pid]) {
        EndKeeps(s, pid);
      } else if id !in s.versions && Noted(s.intents, IndexKey(id), IndexIntent(id)).Some? {
        NewVersionKeeps(s, pid, id);
      }
    }
  }

  lemma NewVersionKeeps(s: State, pid: Pid, id: VersionId)
    requires Inv(s) && pid in s.writers && s.writers[pid].step.Numbered? && id !in s.versions
    requires !Unchanged(s, s.writers[pid]) && Noted(s.intents, IndexKey(id), IndexIntent(id)).Some?
    ensures Inv(Committing(s, pid, id))
  {
    hide Gapless, Pointed, Indexed, Exclusive, AllStillNext, IsHighest, IndexKey, IndexIntent, Noted, Unchanged;
    var w := s.writers[pid];
    NumberIsNext(s, pid);
    FewerWriters(s, pid);
    OneMoreIndexed(s, id, Version(w.doc, w.step.no, w.hash));
    NextIsGapless(s.versions, w.doc, w.step.no - 1, id, w.hash);
    CommittingPoints(s, id, w.doc, w.step.no, w.hash);
    OthersStillNext(s, pid, id);
  }

  lemma NumberIsNext(s: State, pid: Pid)
    requires Inv(s) && pid in s.writers && s.writers[pid].step.Numbered?
    ensures s.writers[pid].step.no >= 1 && IsHighest(s.versions, s.writers[pid].doc, s.writers[pid].step.no - 1)
  {
    assert StillNext(s.writers[pid], s.versions);
  }

  lemma OneMoreIndexed(s: State, id: VersionId, v: Version)
    requires Inv(s) && Noted(s.intents, IndexKey(id), IndexIntent(id)).Some?
    ensures Indexed(s.versions[id := v], Noted(s.intents, IndexKey(id), IndexIntent(id)).value)
  {
  }

  lemma NextKeeps(s: State, a: Action)
    requires Inv(s)
    ensures Inv(Next(s, a))
  {
    match a
    case Begin(pid, kind, doc, hash) =>
      if pid !in s.writers && !kind.FailedCrawl? {
        assert StillNext(Writer(kind, doc, hash, Started), s.versions);
        WriterKeeps(s, pid, Writer(kind, doc, hash, Started));
      }
    case Hold(pid) => TakingKeeps(s, pid);
    case Fail(pid, raw) => FailingKeeps(s, pid, raw);
    case Allocate(pid, highest) => AllocatingKeeps(s, pid, highest);
    case Commit(pid, id) => CommittingKeeps(s, pid, id);
    case Rollback(pid) => EndKeeps(s, pid);
  }

  lemma {:induction false} RunKeeps(s: State, actions: seq<Action>)
    requires Inv(s)
    ensures Inv(Run(s, actions))
    decreases |actions|
  {
    if actions != [] {
      NextKeeps(s, actions[0]);
      RunKeeps(Next(s, actions[0]), actions[1..]);
    }
  }

  // ---------------------------------------------------------------- theorems

  lemma {:induction false} DownToOne(versions: map<VersionId, Version>, doc: Address, no: nat, k: nat)
    requires Gapless(versions) && 1 <= k <= no && Taken(versions, doc, no)
    ensures Taken(versions, doc, k)
    decreases no
  {
    if k < no {
      var id :| NumberedAs(versions, id, doc, no);
      assert Follows(versions, doc, no);
      DownToOne(versions, doc, no - 1, k);
    }
  }

  ghost predicate ExactlyOneTo(versions: map<VersionId, Version>, doc: Address, n: nat) {
    && (forall k: nat :: Taken(versions, doc, k) <==> 1 <= k <= n)
    && (forall i, j, k :: NumberedAs(versions, i, doc, k) && NumberedAs(versions, j, doc, k) ==> i == j)
  }

  lemma GaplessIsExact(versions: map<VersionId, Version>, doc: Address, n: nat)
    requires Gapless(versions) && IsHighest(versions, doc, n)
    ensures ExactlyOneTo(versions, doc, n)
  {
    forall k: nat
      ensures Taken(versions, doc, k) <==> 1 <= k <= n
    {
      if 1 <= k <= n {
        DownToOne(versions, doc, n, k);
      }
      if Taken(versions, doc, k) {
        TakenInRange(versions, doc, n, k);
      }
    }
  }

  lemma TakenInRange(versions: map<VersionId, Version>, doc: Address, n: nat, k: nat)
    requires Gapless(versions) && IsHighest(versions, doc, n) && Taken(versions, doc, k)
    ensures 1 <= k <= n
  {}

  // In every reachable state a document's version numbers are exactly 1..n, each once, its current
  // pointer and hash are those of version n, and every version has its index message.
  lemma VersionsAreNumbered(actions: seq<Action>, doc: Address)
    requires doc in Run(EMPTY, actions).documents
    ensures var s := Run(EMPTY, actions);
            && s.documents[doc].current.Some? && s.documents[doc].current.value in s.versions
            && var top := s.versions[s.documents[doc].current.value];
               top.doc == doc && top.hash == s.documents[doc].hash && ExactlyOneTo(s.versions, doc, top.no)
  {
    RunKeeps(EMPTY, actions);
    var s := Run(EMPTY, actions);
    assert PointsTop(s.documents[doc], doc, s.versions);
    GaplessIsExact(s.versions, doc, s.versions[s.documents[doc].current.value].no);
  }

  lemma VersionsAreIndexed(actions: seq<Action>, id: VersionId)
    requires id in Run(EMPTY, actions).versions
    ensures var s := Run(EMPTY, actions); var key := "info.index:" + id + ":v1";
            && s.versions[id].doc in s.documents
            && key in s.intents && s.intents[key] == Intent("knowfeed.index.v1", id, id, map[], None)
  {
    RunKeeps(EMPTY, actions);
  }

  // A step adds versions only by committing one, and a crawl commits one only if the content differs
  // from the document's current content.
  lemma RecrawlAddsNothing(actions: seq<Action>, a: Action)
    ensures var s := Run(EMPTY, actions); var after := Next(s, a);
            after.versions != s.versions ==>
              a.Commit? && a.pid in s.writers && var w := s.writers[a.pid];
              && after.versions == s.versions[a.id := Version(w.doc, w.step.no, w.hash)] && a.id !in s.versions
              && (w.kind.Crawl? && w.doc in s.documents ==> s.documents[w.doc].hash != w.hash)
  {
    RunKeeps(EMPTY, actions);
    var s := Run(EMPTY, actions);
    if a.Commit? && a.pid in s.writers && s.writers[a.pid].doc in s.documents {
      assert PointsTop(s.documents[s.writers[a.pid].doc], s.writers[a.pid].doc, s.versions);
    }
  }

  // Exactly when a commit adds a version: an upload and a failed crawl always, a crawl unless the document
  // has just this content. It then becomes the document's current version, with its index message.
  lemma CommitWrites(actions: seq<Action>, pid: Pid, id: VersionId)
    requires var s := Run(EMPTY, actions);
             && pid in s.writers && s.writers[pid].step.Numbered? && id !in s.versions
             && "info.index:" + id + ":v1" !in s.intents
    ensures var s := Run(EMPTY, actions); var after := Next(s, Commit(pid, id)); var w := s.writers[pid];
            var known := w.doc in s.documents && s.documents[w.doc].hash == w.hash;
            && (id in after.versions <==> w.kind != Crawl || !known)
            && after.writers == s.writers - {pid}
            && (id in after.versions ==>
                  && after.versions == s.versions[id := Version(w.doc, w.step.no, w.hash)]
                  && after.documents == s.documents[w.doc := Document(w.hash, Some(id))]
                  && after.intents == s.intents["info.index:" + id + ":v1" :=
                                                  Intent("knowfeed.index.v1", id, id, map[], None)])
            && (id !in after.versions ==>
                  after.versions == s.versions && after.documents == s.documents && after.intents == s.intents)
  {
    RunKeeps(EMPTY, actions);
    var s := Run(EMPTY, actions);
    var doc := s.writers[pid].doc;
    if doc in s.documents {
      assert PointsTop(s.documents[doc], doc, s.versions);
    }
  }

  // A crawl that fails goes on as a failed one with the raw page's content, whatever it had found.
  lemma FailureWrites(s: State, pid: Pid, raw: string)
    requires pid in s.writers && s.writers[pid].kind == Crawl
    ensures var w := Next(s, Fail(pid, raw)).writers[pid];
            && w.kind == FailedCrawl && w.hash == raw && w.doc == s.writers[pid].doc && !w.step.Numbered?
            && (w.step.Started? <==> s.writers[pid].step.Started?)
  {
  }

  // And it commits nothing else either: a crawl of unchanged content only ends.
  lemma UnchangedCrawlEnds(actions: seq<Action>, pid: Pid, id: VersionId)
    requires var s := Run(EMPTY, actions);
             pid in s.writers && s.writers[pid].step.Numbered? && s.writers[pid].kind.Crawl?
    requires var s := Run(EMPTY, actions);
             s.writers[pid].doc in s.documents && s.documents[s.writers[pid].doc].hash == s.writers[pid].hash
    ensures Next(Run(EMPTY, actions), Commit(pid, id)) == Without(Run(EMPTY, actions), pid)
  {
    RunKeeps(EMPTY, actions);
    var s := Run(EMPTY, actions);
    assert PointsTop(s.documents[s.writers[pid].doc], s.writers[pid].doc, s.versions);
  }

  // The row lock keeps a writer's number good until it commits: nobody else takes it.
  lemma NumberStaysFree(actions: seq<Action>, pid: Pid)
    requires pid in Run(EMPTY, actions).writers && Run(EMPTY, actions).writers[pid].step.Numbered?
    ensures var s := Run(EMPTY, actions);
            forall id :: id in s.versions && s.versions[id].doc == s.writers[pid].doc ==>
                s.versions[id].no < s.writers[pid].step.no
  {
    RunKeeps(EMPTY, actions);
    assert StillNext(Run(EMPTY, actions).writers[pid], Run(EMPTY, actions).versions);
  }

  // The query for the highest number always has an answer, and only one.
  lemma {:induction false} HighestExists(versions: map<VersionId, Version>, doc: Address)
    ensures exists n :: IsHighest(versions, doc, n)
    decreases |versions|
  {
    if id :| id in versions {
      var rest := versions - {id};
      assert versions.Keys == rest.Keys + {id};
      assert |rest.Keys| < |versions.Keys|;
      HighestExists(rest, doc);
      var n :| IsHighest(rest, doc, n);
      var v := versions[id];
      var m := if v.doc == doc && v.no > n then v.no else n;
      assert v.doc == doc && v.no > n ==> NumberedAs(versions, id, doc, m);
      if m == n && n > 0 {
        var top :| NumberedAs(rest, top, doc, n);
        assert NumberedAs(versions, top, doc, n);
      }
      assert IsHighest(versions, doc, m);
    } else {
      assert IsHighest(versions, doc, 0);
    }
  }

  // A writer takes the row exactly when no other writer holds the document.
  lemma HoldMeans(s: State, pid: Pid)
    requires pid in s.writers && s.writers[pid].step == Started
    ensures var after := Next(s, Hold(pid)); var doc := s.writers[pid].doc;
            if exists q :: q in s.writers && s.writers[q].doc == doc && s.writers[q].step != Started then after == s
            else after == s.(writers := s.writers[pid := s.writers[pid].(step := Holding)])
  {
    if exists q :: q in s.writers && s.writers[q].doc == s.writers[pid].doc && s.writers[q].step != Started {
      var q :| q in s.writers && s.writers[q].doc == s.writers[pid].doc && s.writers[q].step != Started;
      assert Holds(s.writers[q], s.writers[pid].doc);
    }
  }

  // With nobody else at work, a writer's steps come to its commit; a failed crawl starts as a crawl.
  lemma WriteIsARun(s: State, kind: Kind, doc: Address, hash: string, highest: nat, id: VersionId)
    requires s.writers == map[] && kind != FailedCrawl && IsHighest(s.versions, doc, highest)
    ensures Run(s, [Begin(0, kind, doc, hash), Hold(0), Allocate(0, highest), Commit(0, id)]) ==
            Committing(With(s, 0, Writer(kind, doc, hash, Numbered(highest + 1))), 0, id)
  {
    hide IsHighest, Committing, Run;
    var started := Writer(kind, doc, hash, Started);
    assert Next(s, Begin(0, kind, doc, hash)) == With(s, 0, started);
    HoldAllocate(s, started, highest);
    RunFour(s, Begin(0, kind, doc, hash), Hold(0), Allocate(0, highest), Commit(0, id));
  }

  lemma FailedWriteIsARun(s: State, doc: Address, hash: string, raw: string, highest: nat, id: VersionId)
    requires s.writers == map[] && IsHighest(s.versions, doc, highest)
    ensures Run(s, [Begin(0, Crawl, doc, hash), Fail(0, raw), Hold(0), Allocate(0, highest), Commit(0, id)]) ==
            Committing(With(s, 0, Writer(FailedCrawl, doc, raw, Numbered(highest + 1))), 0, id)
  {
    hide IsHighest, Committing;
    var crawl, failed := With(s, 0, Writer(Crawl, doc, hash, Started)), Writer(FailedCrawl, doc, raw, Started);
    var rest := [Fail(0, raw), Hold(0), Allocate(0, highest), Commit(0, id)];
    assert [Begin(0, Crawl, doc, hash), Fail(0, raw), Hold(0), Allocate(0, highest), Commit(0, id)][1..] == rest;
    assert Next(s, Begin(0, Crawl, doc, hash)) == crawl && Next(crawl, Fail(0, raw)) == With(s, 0, failed);
    HoldAllocate(s, failed, highest);
    RunFour(crawl, Fail(0, raw), Hold(0), Allocate(0, highest), Commit(0, id));
  }

  lemma HoldAllocate(s: State, w: Writer, highest: nat)
    requires s.writers == map[] && w.step == Started && IsHighest(s.versions, w.doc, highest)
    ensures Next(Next(With(s, 0, w), Hold(0)), Allocate(0, highest)) == With(s, 0, w.(step := Numbered(highest + 1)))
  {
    hide IsHighest;
    assert Next(With(s, 0, w), Hold(0)) == With(s, 0, w.(step := Holding));
  }

  lemma RunFour(s: State, a: Action, b: Action, c: Action, d: Action)
    ensures Run(s, [a, b, c, d]) == Next(Next(Next(Next(s, a), b), c), d)
  {
    assert [a, b, c, d][1..] == [b, c, d];
    assert [b, c, d][1..] == [c, d];
    assert [c, d][1..] == [d];
    assert [d][1..] == [];
    var third := Next(Next(Next(s, a), b), c);
    assert Run(third, [d]) == Run(Next(third, d), []);
    assert Run(Next(Next(s, a), b), [c, d]) == Run(third, [d]);
  }

  // ---------------------------------------------------------------- one writer's transaction

  class DocumentStore {
    var documents: map<Address, Document>
    var versions: map<VersionId, Version>
    var intents: Intents

    constructor ()
      ensures Snapshot() == EMPTY
    {
      documents, versions, intents := map[], map[], map[];
    }

    // What is committed, with nobody writing.
    function Snapshot(): State
      reads this
    {
      State(documents, versions, intents, map[])
    }

    // _next_version_no
    method NextVersionNo(doc: Address) returns (no: nat)
      ensures no >= 1 && IsHighest(versions, doc, no - 1)
    {
      var highest := 0;
      var left := versions.Keys;
      while left != {}
        invariant left <= versions.Keys
        invariant IsHighest(map id | id in versions && id !in left :: versions[id], doc, highest)
        decreases left
      {
        var id :| id in left;
        ghost var before, after := map i | i in versions
                                   && i !in left :: versions[i], map i | i in versions
                                                    && i !in left - {id} :: versions[i];
        OneMoreSeen(before, after, id, versions[id], doc, highest);
        if versions[id].doc == doc && versions[id].no > highest {
          highest := versions[id].no;
        }
        left := left - {id};
      }
      assert (map id | id in versions && id !in left :: versions[id]) == versions;
      no := highest + 1;
    }

    // An upload, a crawl or a failed crawl: find or create the document, take the next number, and
    // commit version, pointer, hash and index message together; a crawl of the current content only
    // reports the current version. Nothing is answered when the index key is taken by another intent.
    method Write(kind: Kind, doc: Address, hash: string, id: VersionId) returns (written: Option<VersionId>)
      requires id !in versions && Pointed(documents, versions)
      modifies this
      ensures exists no: nat :: no >= 1 && IsHighest(old(versions), doc, no - 1) &&
                var begun := With(old(Snapshot()), 0, Writer(kind, doc, hash, Numbered(no)));
                if written.Some? then Snapshot() == Committing(begun, 0, id) else Snapshot() == old(Snapshot())
      ensures written.None? ==> Noted(old(intents), IndexKey(id), IndexIntent(id)).None?
      ensures written.Some? ==> doc in documents && documents[doc].current == written && documents[doc].hash == hash
    {
      var no := NextVersionNo(doc);
      ghost var begun := With(Snapshot(), 0, Writer(kind, doc, hash, Numbered(no)));
      if kind.Crawl? && doc in documents && documents[doc].hash == hash && documents[doc].current.Some? {
        assert Committing(begun, 0, id) == Snapshot();
        return documents[doc].current;
      }
      var noted := Noted(intents, IndexKey(id), IndexIntent(id));
      if noted.None? {
        return None;
      }
      versions := versions[id := Version(doc, no, hash)];
      documents := documents[doc := Document(hash, Some(id))];
      intents := noted.value;
      written := Some(id);
      assert Committing(begun, 0, id) == Snapshot();
    }
  }

  lemma OneMoreSeen(before: map<VersionId, Version>, after: map<VersionId, Version>, id: VersionId, v: Version,
      doc: Address, highest: nat)
    requires id !in before && after == before[id := v] && IsHighest(before, doc, highest)
    ensures IsHighest(after, doc, if v.doc == doc && v.no > highest then v.no else highest)
  {
    if v.doc == doc && v.no > highest {
      assert NumberedAs(after, id, doc, v.no);
    } else if highest > 0 {
      var top :| NumberedAs(before, top, doc, highest);
      assert NumberedAs(after, top, doc, highest);
    }
  }
}
