/** Workers, uploads, deletions and the clock, interleaved over one database.

    `Next` is total: an event that cannot happen leaves the state as it is. */
module Protocol {
  import opened Schema
  import opened Tasks
  import opened Documents
  import opened Embeddings
  import opened Pipeline

  /** A run is named by its task and the attempt number its claim wrote. */
  type RunId = (TaskId, nat)

  /** The last chunk rows written for a document version; row k has the key `first + k`. */
  datatype Written = Written(first: ChunkId, rows: seq<ChunkRow>)

  datatype Usage = Usage(count: int, tokens: int, cost: real)

  /** What happened, for stating properties; no step reads it. */
  datatype History = History(written: map<(Option<DocId>, int), Written>,
                             committed: map<Option<DocId>, set<TaskId>>,
                             committer: map<Option<DocId>, string>,
                             content: map<Option<DocId>, string>,
                             ledger: map<TaskId, seq<Usage>>)

  /** `uploads` holds the requests between their document write and their enqueue. */
  datatype State = State(db: Db, runs: map<RunId, Run>, uploads: map<nat, Spec>, hist: History)

  datatype Event =
    | Seed(modelId: string)
    | Upload(found: Option<DocId>, addressId: string, uploadId: string, hash: string, modelId: string)
    | Enqueue(u: nat)
    | Abandon(u: nat)
    | Skip(d: DocId, hash: string, version: int, modelId: string)
    | RequestRebuild(modelId: string, scope: string)
    | Delete(d: DocId)
    | Claim(t: TaskId, seconds: int)
    | ClaimById(t: TaskId, seconds: int)
    | Go(r: RunId, a: Answer)
    | Fail(r: RunId, e: Exc)
    | Crash(r: RunId)
    | Tick(dt: nat)

  const INIT := State(EMPTY_DB, map[], map[], History(map[], map[], map[], map[], map[]))

  function Committed(h: History, d: Option<DocId>): set<TaskId> {
    if d in h.committed then h.committed[d] else {}
  }

  function Ledger(h: History, t: TaskId): seq<Usage> {
    if t in h.ledger then h.ledger[t] else []
  }

  /** The entry a run's step leaves in the history. */
  function Remember(h: History, db: Db, run: Run, next: Pc): History {
    var spec := run.job.spec;
    var t := run.job.taskId;
    match run.pc
    case AtWrite(rows) =>
      if next.AtCount? then h.(written := h.written[(spec.documentId, spec.docVersion) := Written(db.next, rows)])
          else h
    case AtCommit =>
      h.(committed := h.committed[spec.documentId := Committed(h, spec.documentId) + {t}],
         committer := h.committer[spec.documentId := spec.modelId],
         content := h.content[spec.documentId := spec.contentHash])
    case AtRecord(_, _, done, tokens, cost) => h.(ledger := h.ledger[t := Ledger(h, t) + [Usage(done, tokens, cost)]])
    case AtRecordFill(_, _, done, tokens, cost, _) =>
      h.(ledger := h.ledger[t := Ledger(h, t) + [Usage(done, tokens, cost)]])
    case _ => h
  }

  function Lend(s: State, t: TaskId, seconds: int): State
    requires t in s.db.jobs
  {
    var job := Claimed(s.db, t);
    s.(db := Lease(s.db, t, seconds), runs := s.runs[(t, job.attempts) := Start(job)])
  }

  function StepRun(s: State, r: RunId, a: Answer): State
    requires r in s.runs
  {
    var run := s.runs[r];
    var (db, pc) := Proceed(s.db, run, a);
    s.(db := db,
       runs := if pc == Finished then s.runs - {r} else s.runs[r := run.(pc := pc)],
       hist := Remember(s.hist, s.db, run, pc))
  }

  /** A call raises. A failure of `mark_failed` itself ends the run. */
  function FailRun(s: State, r: RunId, e: Exc): State
    requires r in s.runs
  {
    var run := s.runs[r];
    s.(runs := if run.pc.AtFailing? then s.runs - {r} else s.runs[r := run.(pc := Raise(run.job, run.pc, e))])
  }

  function UploadSpec(db: Db, e: Event): Spec
    requires e.Upload? && LookedUp(db, e.addressId, e.uploadId, e.found)
  {
    Spec(Some(UpsertedId(db, e.found)), e.addressId, e.uploadId, e.hash, e.modelId, NextVersion(db, e.found), Ingest)
  }

  function RebuildSpec(modelId: string, scope: string): Spec {
    Spec(None, scope, "-", "", modelId, 0, Rebuild)
  }

  function Next(s: State, e: Event): State {
    match e
    case Seed(m) =>
      if s.db.active.None? then s.(db := EnsureTable(s.db, m).(active := Some(m))) else s
    case Upload(found, a, u, hash, _) =>
      if LookedUp(s.db, a, u, found) then
        var db := Upsert(s.db, found, a, u, hash);
        s.(db := db.(next := db.next + 1), uploads := s.uploads[db.next := UploadSpec(s.db, e)])
      else s
    case Enqueue(u) =>
      if u !in s.uploads then s
      else if DocumentExists(s.db, s.uploads[u].documentId)
      then s.(db := InsertJob(s.db, s.uploads[u], Pending), uploads := s.uploads - {u})
      else s.(uploads := s.uploads - {u})
    case Abandon(u) => s.(uploads := s.uploads - {u})
    case Skip(d, hash, v, m) =>
      if d in s.db.documents then
        var doc := s.db.documents[d];
        s.(db := InsertJob(s.db, Spec(Some(d), doc.addressId, doc.uploadId, hash, m, v, Ingest), Skipped))
      else s
    case RequestRebuild(m, scope) => s.(db := InsertJob(s.db, RebuildSpec(m, scope), Pending))
    case Delete(d) => s.(db := DeleteDocument(s.db, d))
    case Claim(t, seconds) => if Oldest(s.db, t) then Lend(s, t, seconds) else s
    case ClaimById(t, seconds) => if t in s.db.jobs && !Terminal(s.db.jobs[t].state) then Lend(s, t, seconds) else s
    case Go(r, a) => if r in s.runs then StepRun(s, r, a) else s
    case Fail(r, x) => if r in s.runs then FailRun(s, r, x) else s
    case Crash(r) => s.(runs := s.runs - {r})
    case Tick(dt) => s.(db := s.db.(now := s.db.now + dt))
  }

  function Exec(s: State, es: seq<Event>): State {
    if es == [] then s else Next(Exec(s, es[..|es| - 1]), es[|es| - 1])
  }

  /** Every event of the trace respects the guard in the state it meets. */
  ghost predicate Guarded(guard: (State, Event) -> bool, s: State, es: seq<Event>) {
    forall i | 0 <= i < |es| :: guard(Exec(s, es[..i]), es[i])
  }

  lemma ExecLast(s: State, es: seq<Event>, e: Event)
    ensures Exec(s, es + [e]) == Next(Exec(s, es), e)
  {
    assert (es + [e])[..|es|] == es;
  }

  lemma ExecSplit(s: State, es: seq<Event>)
    requires es != []
    ensures Exec(s, es) == Next(Exec(s, es[..|es| - 1]), es[|es| - 1])
  {
    hide Next;
  }

  lemma {:induction false} ExecConcat(s: State, es: seq<Event>, es': seq<Event>)
    ensures Exec(s, es + es') == Exec(Exec(s, es), es')
  {
    hide Next;
    if es' == [] {
      assert es + es' == es;
    } else {
      var front, e := es'[..|es'| - 1], es'[|es'| - 1];
      ExecConcat(s, es, front);
      assert (es + es')[..|es + es'| - 1] == es + front && (es + es')[|es + es'| - 1] == e;
    }
  }

  lemma GuardedFront(guard: (State, Event) -> bool, s: State, es: seq<Event>)
    requires es != [] && Guarded(guard, s, es)
    ensures Guarded(guard, s, es[..|es| - 1])
    ensures guard(Exec(s, es[..|es| - 1]), es[|es| - 1])
  {
    var front := es[..|es| - 1];
    forall i | 0 <= i < |front| ensures guard(Exec(s, front[..i]), front[i]) {
      assert front[..i] == es[..i];
    }
  }

  /** From a good reachable state an event leads to a good one exactly if it respects the guard. */
  ghost predicate StepLaw(good: State -> bool, guard: (State, Event) -> bool) {
    forall es, e :: good(Exec(INIT, es)) ==> (good(Next(Exec(INIT, es), e)) <==> guard(Exec(INIT, es), e))
  }

  /** Every state along the trace is good. */
  ghost predicate Always(good: State -> bool, es: seq<Event>) {
    forall i | 0 <= i <= |es| :: good(Exec(INIT, es[..i]))
  }

  /** All prefixes of a sequence are those of its front, and itself. */
  lemma PrefixesSplit<T>(p: seq<T> -> bool, es: seq<T>)
    requires es != []
    ensures
      var front := es[..|es| - 1];
      (forall i | 0 <= i <= |es| :: p(es[..i])) <==> (forall i | 0 <= i <= |front| :: p(front[..i])) && p(es)
  {
    var front := es[..|es| - 1];
    assert es[..|es|] == es;
    forall i | 0 <= i <= |front| ensures es[..i] == front[..i] {}
  }

  lemma AlwaysSplit(good: State -> bool, es: seq<Event>)
    requires es != []
    ensures Always(good, es) <==> Always(good, es[..|es| - 1]) && good(Exec(INIT, es))
  {
    hide Exec;
    PrefixesSplit((some: seq<Event>) => good(Exec(INIT, some)), es);
  }

  lemma GuardedSplit(guard: (State, Event) -> bool, es: seq<Event>)
    requires es != []
    ensures
      var front, e := es[..|es| - 1], es[|es| - 1];
      Guarded(guard, INIT, es) <==> Guarded(guard, INIT, front) && guard(Exec(INIT, front), e)
  {
    hide Exec;
    var front := es[..|es| - 1];
    assert forall i | 0 <= i < |front| :: es[..i] == front[..i] && es[i] == front[i];
  }

  lemma AlwaysLast(good: State -> bool, es: seq<Event>)
    requires Always(good, es)
    ensures good(Exec(INIT, es))
  {
    hide Exec;
    assert es[..|es|] == es;
  }

  /** Then a trace stays good at every point exactly if it respects the guard at every event. */
  lemma {:induction false} AlwaysIff(good: State -> bool, guard: (State, Event) -> bool, es: seq<Event>)
    requires good(INIT) && StepLaw(good, guard)
    ensures Always(good, es) <==> Guarded(guard, INIT, es)
  {
    if es == [] {
      hide Next;
      assert es[..0] == [] && Exec(INIT, []) == INIT;
    } else {
      hide Exec, Next, Always, Guarded;
      var front, e := es[..|es| - 1], es[|es| - 1];
      AlwaysIff(good, guard, front);
      ExecSplit(INIT, es);
      AlwaysSplit(good, es);
      GuardedSplit(guard, es);
      if Always(good, front) { AlwaysLast(good, front); }
    }
  }
}
