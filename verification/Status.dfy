/** The status a consumer reads for an address, and what `fully_indexed` guarantees (F12). */
module Status {
  import opened Schema
  import opened Tasks
  import opened Documents
  import opened Embeddings
  import opened Pipeline
  import opened Protocol
  import opened Integrity
  import opened Frames

  datatype AddressStatus = AddressStatus(documentCount: nat, inFlight: nat, failed: nat, missing: nat,
      fullyIndexed: bool)

  function ActiveModel(db: Db, fallback: string): string {
    if db.active.Some? then db.active.value else fallback
  }

  function JobsIn(db: Db, address: string, states: set<JobState>): set<TaskId> {
    set t | t in db.jobs && db.jobs[t].spec.addressId == address && db.jobs[t].state in states
  }

  function MissingAt(db: Db, m: string, address: string): set<ChunkId>
    requires m in db.tables
  {
    set c | c in LiveAt(db, address) && c !in db.tables[m]
  }

  /** Live chunks of the address without an embedding; all of them when the model has no table. */
  function MissingCount(db: Db, m: string, address: string): nat {
    if m in db.tables then |MissingAt(db, m, address)| else |LiveAt(db, address)|
  }

  function ReadStatus(db: Db, address: string, fallback: string): AddressStatus {
    var inFlight := |JobsIn(db, address, {Pending, Extracting, Chunking, Embedding})|;
    var failed := |JobsIn(db, address, {Failed})|;
    var missing := MissingCount(db, ActiveModel(db, fallback), address);
    AddressStatus(|set d | d in db.documents && db.documents[d].addressId == address|, inFlight, failed, missing,
                  inFlight == 0 && failed == 0 && missing == 0)
  }

  /** `t` is a job row queued for document `d`, as opposed to a record of a skipped upload. */
  predicate WorkRow(db: Db, d: DocId, t: TaskId) {
    t in db.jobs && db.jobs[t].spec.documentId == Some(d) && db.jobs[t].state != Skipped
  }

  ghost predicate HasWork(db: Db, d: DocId) {
    exists t :: WorkRow(db, d, t)
  }

  predicate Published(db: Db, d: DocId) {
    d in db.documents && db.documents[d].liveVersion >= 1
  }

  // ---- what keeps the status honest ---------------------------------------------------

  /** A job row is Done only once its document is live, Skipped only if it was never claimed. */
  predicate RowHonest(db: Db, j: Job) {
    j.spec.documentId.Some? ==>
      && (j.state == Done ==> Published(db, j.spec.documentId.value))
      && (j.attempts >= 1 ==> j.state != Skipped)
  }

  predicate RunHonest(db: Db, run: Run) {
    run.job.spec.documentId.Some? ==>
      var d := run.job.spec.documentId.value;
      && (run.pc.AtSkip? ==> d !in db.documents)
      && (run.pc.AtDone? && d in db.documents ==> Published(db, d))
  }

  predicate CommitRow(db: Db, d: DocId, t: TaskId) {
    t in db.jobs && db.jobs[t].spec.documentId == Some(d) && db.jobs[t].attempts >= 1
  }

  /** A live document was committed, by jobs whose rows are still there. */
  ghost predicate CommitsKnown(db: Db, h: History) {
    && (forall k | k in h.committed :: k.Some? && k.value < db.next)
    && (forall d | Published(db, d) :: Committed(h, Some(d)) != {})
    && (forall d, t | d in db.documents && t in Committed(h, Some(d)) :: CommitRow(db, d, t))
  }

  ghost predicate Honest(s: State) {
    && (forall t | t in s.db.jobs :: RowHonest(s.db, s.db.jobs[t]))
    && (forall r | r in s.runs :: RunHonest(s.db, s.runs[r]))
    && CommitsKnown(s.db, s.hist)
  }

  /** A document that is live stays live while it exists. */
  ghost predicate StaysPublished(a: Db, b: Db) {
    forall d | d in b.documents && d < a.next :: d in a.documents && (Published(a, d) ==> Published(b, d))
  }

  lemma CommitPublishes(db: Db, r: RunId, run: Run, a: Answer)
    requires RunSound(db, r, run)
    ensures StaysPublished(db, Proceed(db, run, a).0)
    ensures run.pc.AtCommit? && run.job.spec.documentId.value in db.documents ==>
              Published(Proceed(db, run, a).0, run.job.spec.documentId.value)
    ensures forall d: DocId | Published(Proceed(db, run, a).0, d) ::
              Published(db, d) || (run.pc.AtCommit? && run.job.spec.documentId == Some(d))
  {
    ProceedFrame(db, run, a);
    if run.pc.AtCommit? {
      var d := run.job.spec.documentId.value;
      assert IngestStep(db, run, a).0.documents ==
        if d in db.documents then db.documents[d := db.documents[d].(liveVersion := run.job.spec.docVersion)]
            else db.documents;
    } else {
      hide Proceed;
    }
  }

  lemma OwnRunHonest(db: Db, r: RunId, run: Run, a: Answer)
    requires RunSound(db, r, run) && RunHonest(db, run)
    ensures var (db', pc) := Proceed(db, run, a); RunHonest(db', run.(pc := pc))
  {
    ProceedFrame(db, run, a);
    CommitPublishes(db, r, run, a);
    ProceedKeepsProgram(db, r, run, a);
    if IsIngestPc(run.pc) {
      hide RebuildStep, Lists, ItemsOf, CanEmbed, CanInsert, Numbered, ByOrdinal, VersionChunks, RunSound;
    } else {
      hide RebuildStep;
    }
  }

  lemma RowsHonest(db: Db, r: RunId, run: Run, a: Answer)
    requires DbSound(db) && RunSound(db, r, run) && RunHonest(db, run)
    requires forall t | t in db.jobs :: RowHonest(db, db.jobs[t])
    ensures var db' := Proceed(db, run, a).0; forall t | t in db'.jobs :: RowHonest(db', db'.jobs[t])
  {
    ProceedFrame(db, run, a);
    ProceedJobs(db, run, a);
    CommitPublishes(db, r, run, a);
    assert forall t | t in db.jobs :: JobSound(db, db.jobs[t]);
    assert r.0 in db.jobs ==> db.jobs[r.0].spec == run.job.spec && db.jobs[r.0].attempts >= 1;
    hide Proceed, DbSound, RunSound;
  }

  /** Commits are recorded by the commit step alone. */
  lemma RememberCommitted(h: History, db: Db, run: Run, next: Pc)
    ensures
      var h' := Remember(h, db, run, next);
      var key := run.job.spec.documentId;
      && (!run.pc.AtCommit? ==> h'.committed == h.committed && h'.committer == h.committer)
      && (run.pc.AtCommit? ==>
           && h'.committed == h.committed[key := Committed(h, key) + {run.job.taskId}]
           && h'.committer == h.committer[key := run.job.spec.modelId])
  {
  }

  lemma CommitsStayKnown(db: Db, h: History, r: RunId, run: Run, a: Answer)
    requires RunSound(db, r, run) && CommitsKnown(db, h)
    ensures var (db', pc) := Proceed(db, run, a); CommitsKnown(db', Remember(h, db, run, pc))
  {
    var (db', pc) := Proceed(db, run, a);
    var h' := Remember(h, db, run, pc);
    ProceedFrame(db, run, a);
    CommitPublishes(db, r, run, a);
    OwnRow(db, r, run);
    RememberCommitted(h, db, run, pc);
    forall d, t | d in db.documents && t in Committed(h', Some(d)) ensures CommitRow(db', d, t) {
      hide Proceed, Remember, RunSound;
      ProceedJobs(db, run, a);
      assert t in Committed(h, Some(d)) ==> CommitRow(db, d, t);
    }
    hide Proceed, Remember, RunSound, CommitRow, RunHonest;
  }

  lemma OwnRow(db: Db, r: RunId, run: Run)
    requires RunSound(db, r, run)
    ensures run.job.taskId == r.0
    ensures r.0 in db.jobs ==> db.jobs[r.0].spec == run.job.spec && 1 <= r.1 <= db.jobs[r.0].attempts
    ensures run.job.spec.documentId.Some? ==> run.job.spec.documentId.value < db.next
    ensures run.job.spec.documentId.Some? && run.job.spec.documentId.value in db.documents ==> r.0 in db.jobs
  {
  }

  lemma GoHonest(s: State, r: RunId, a: Answer)
    requires Sound(s) && Honest(s) && r in s.runs
    ensures Honest(StepRun(s, r, a))
  {
    hide Proceed, RunHonest, RowHonest, CommitsKnown, Sound, DbSound, RunSound;
    var run := s.runs[r];
    SoundDb(s);
    RowsHonest(s.db, r, run, a);
    OwnRunHonest(s.db, r, run, a);
    CommitsStayKnown(s.db, s.hist, r, run, a);
    forall q | q in s.runs ensures RunHonest(Proceed(s.db, run, a).0, s.runs[q]) {
      OtherRunHonest(s, r, a, q);
    }
  }

  lemma OtherRunHonest(s: State, r: RunId, a: Answer, q: RunId)
    requires Sound(s) && r in s.runs && q in s.runs && RunHonest(s.db, s.runs[q])
    ensures RunHonest(Proceed(s.db, s.runs[r], a).0, s.runs[q])
  {
    SoundDb(s);
    ProceedFrame(s.db, s.runs[r], a);
    CommitPublishes(s.db, r, s.runs[r], a);
    assert RunSound(s.db, q, s.runs[q]);
    hide Proceed, Sound, DbSound;
  }

  lemma LendHonest(s: State, t: TaskId, seconds: int)
    requires Sound(s) && Honest(s) && t in s.db.jobs && !Terminal(s.db.jobs[t].state)
    ensures Honest(Lend(s, t, seconds))
  {
    hide Sound;
  }

  lemma DeleteHonest(s: State, d: DocId)
    requires Honest(s)
    ensures Honest(Next(s, Delete(d)))
  {
    hide KeepChunks;
    var db, db' := s.db, DeleteDocument(s.db, d);
    assert forall t | t in db'.jobs ::
            && t in db.jobs && db'.jobs[t] == db.jobs[t]
            && db.jobs[t].spec.documentId != Some(d);
    assert forall t | t in db.jobs && db.jobs[t].spec.documentId != Some(d) :: t in db'.jobs;
    assert db'.documents == db.documents - {d};
    assert db'.next == db.next by { DeleteFrame(db, d); }
    hide DeleteDocument;
    assert CommitsKnown(db', s.hist);
    assert forall r | r in s.runs :: RunHonest(db', s.runs[r]);
  }

  lemma DeleteFrame(db: Db, d: DocId)
    ensures DeleteDocument(db, d).next == db.next && DeleteDocument(db, d).now == db.now
  {
    hide Cascade;
  }

  lemma UploadHonest(s: State, e: Event)
    requires Sound(s) && Honest(s) && e.Upload?
    ensures Honest(Next(s, e))
  {
    hide Sound, UploadSpec;
    SoundIssued(s);
    if LookedUp(s.db, e.addressId, e.uploadId, e.found) {
      var db := Upsert(s.db, e.found, e.addressId, e.uploadId, e.hash);
      UploadDb(s, e);
      UpsertRows(s, e, db.(next := db.next + 1));
    }
  }

  lemma UploadDb(s: State, e: Event)
    requires e.Upload? && LookedUp(s.db, e.addressId, e.uploadId, e.found)
    ensures
      var db := Upsert(s.db, e.found, e.addressId, e.uploadId, e.hash);
      Next(s, e).db == db.(next := db.next + 1) && Next(s, e).runs == s.runs && Next(s, e).hist == s.hist
  {
    hide LookedUp, Upsert, UploadSpec;
  }

  lemma UpsertRows(s: State, e: Event, db: Db)
    requires Issued(s) && Honest(s) && e.Upload? && LookedUp(s.db, e.addressId, e.uploadId, e.found)
    requires var mid := Upsert(s.db, e.found, e.addressId, e.uploadId, e.hash); db == mid.(next := mid.next + 1)
    ensures forall t | t in db.jobs :: RowHonest(db, db.jobs[t])
    ensures forall r | r in s.runs :: RunHonest(db, s.runs[r])
    ensures CommitsKnown(db, s.hist)
  {
    assert CommitsKnown(db, s.hist) by { hide RowHonest, RunHonest; }
    hide CommitsKnown;
  }

  lemma InsertJobHonest(s: State, spec: Spec, state: JobState)
    requires Issued(s) && Honest(s) && DocumentExists(s.db, spec.documentId) && state in {Pending, Skipped}
    ensures Honest(s.(db := InsertJob(s.db, spec, state)))
  {
    var db := InsertJob(s.db, spec, state);
    assert CommitsKnown(db, s.hist) by {
      assert forall d, t | CommitRow(s.db, d, t) :: CommitRow(db, d, t);
      assert forall d: DocId :: Published(db, d) <==> Published(s.db, d);
      hide InsertJob, RowHonest, RunHonest, CommitRow, Published;
    }
    hide CommitsKnown;
  }

  lemma SameRowsHonest(s: State, s': State)
    requires Honest(s)
    requires s'.db.jobs == s.db.jobs && s'.db.documents == s.db.documents && s'.db.next == s.db.next
    requires s'.runs == s.runs && s'.hist == s.hist
    ensures Honest(s')
  {
    assert forall d, t | CommitRow(s.db, d, t) :: CommitRow(s'.db, d, t);
    assert forall d: DocId :: Published(s'.db, d) <==> Published(s.db, d);
  }

  lemma InsertHonest(s: State, e: Event)
    requires Sound(s) && Honest(s) && (e.Seed? || e.Enqueue? || e.Skip? || e.RequestRebuild? || e.Tick?)
    ensures Honest(Next(s, e))
  {
    hide Sound, Honest;
    SoundIssued(s);
    match e
    case Enqueue(u) =>
      if u in s.uploads && DocumentExists(s.db, s.uploads[u].documentId) {
        var mid := s.(db := InsertJob(s.db, s.uploads[u], Pending));
        InsertJobHonest(s, s.uploads[u], Pending);
        SameRowsHonest(mid, Next(s, e));
      } else {
        SameRowsHonest(s, Next(s, e));
      }
    case Skip(d, hash, v, m) =>
      if d in s.db.documents {
        var doc := s.db.documents[d];
        InsertJobHonest(s, Spec(Some(d), doc.addressId, doc.uploadId, hash, m, v, Ingest), Skipped);
      }
    case RequestRebuild(m, scope) => InsertJobHonest(s, RebuildSpec(m, scope), Pending);
    case _ => SameRowsHonest(s, Next(s, e));
  }

  lemma NextHonest(s: State, e: Event)
    requires Sound(s) && Honest(s)
    ensures Honest(Next(s, e))
  {
    match e
    case Go(r, a) => if r in s.runs { hide Sound, Honest; GoHonest(s, r, a); }
    case Upload(_, _, _, _, _) => UploadHonest(s, e);
    case Delete(d) => DeleteHonest(s, d);
    case Claim(t, seconds) => if Oldest(s.db, t) { LendHonest(s, t, seconds); }
    case ClaimById(t, seconds) => if t in s.db.jobs && !Terminal(s.db.jobs[t].state) { LendHonest(s, t, seconds); }
    case Fail(_, _) =>
    case Crash(_) =>
    case Abandon(_) =>
    case _ => InsertHonest(s, e);
  }

  lemma {:induction false} ExecHonest(es: seq<Event>)
    ensures Honest(Exec(INIT, es))
  {
    if es != [] {
      hide Next, Honest, Sound;
      var front := es[..|es| - 1];
      ExecSplit(INIT, es);
      ExecSound(front);
      ExecHonest(front);
      NextHonest(Exec(INIT, front), es[|es| - 1]);
    }
  }

  // ---- what a consumer may conclude ----------------------------------------------------

  lemma FullyIndexedMeans(db: Db, a: string, fallback: string)
    requires ReadStatus(db, a, fallback).fullyIndexed
    ensures forall t | t in db.jobs && db.jobs[t].spec.addressId == a :: db.jobs[t].state in {Done, Skipped}
    ensures var m := ActiveModel(db, fallback); forall c | c in LiveAt(db, a) :: m in db.tables && c in db.tables[m]
  {
    var m := ActiveModel(db, fallback);
    assert JobsIn(db, a, {Pending, Extracting, Chunking, Embedding}) == {};
    assert JobsIn(db, a, {Failed}) == {};
    forall t | t in db.jobs && db.jobs[t].spec.addressId == a ensures db.jobs[t].state in {Done, Skipped} {
      assert t !in JobsIn(db, a, {Pending, Extracting, Chunking, Embedding});
      assert t !in JobsIn(db, a, {Failed});
      assert !db.jobs[t].state.Pending? && !InFlight(db.jobs[t].state) && !db.jobs[t].state.Failed?;
    }
    assert if m in db.tables then MissingAt(db, m, a) == {} else LiveAt(db, a) == {};
    forall c | c in LiveAt(db, a) ensures m in db.tables && c in db.tables[m] {
      assert m in db.tables;
      assert c !in MissingAt(db, m, a);
    }
  }

  /** With addresses in step, the vector branch sees exactly the live chunks that have a row. */
  lemma ExaminedIsEmbedded(db: Db, m: string, a: string)
    requires DbSound(db) && m in db.tables
    ensures Examined(db, m, a) == (set c | c in LiveAt(db, a) && c in db.tables[m])
  {
  }

  /** A fully indexed address, in any reachable state: a document is live exactly if it has
      a job row that is not a skipped upload; every live chunk has its vector under the active
      model; and the search examines every live chunk and nothing else. */
  lemma FullyIndexedIsSound(es: seq<Event>, a: string, fallback: string)
    requires ReadStatus(Exec(INIT, es).db, a, fallback).fullyIndexed
    ensures
      var db := Exec(INIT, es).db;
      var m := ActiveModel(db, fallback);
      && (forall d | d in db.documents && db.documents[d].addressId == a :: Published(db, d) <==> HasWork(db, d))
      && (forall c | c in LiveAt(db, a) ::
            && m in db.tables && c in db.tables[m]
            && db.tables[m][c] == EmbeddingRow(a, m, VectorOf(m, db.chunks[c].row.text)))
      && (m in db.tables ==> Examined(db, m, a) == LiveAt(db, a))
  {
    hide Exec, ReadStatus, Sound, Honest;
    var s := Exec(INIT, es);
    ExecSound(es);
    ExecHonest(es);
    FullyIndexedMeans(s.db, a, fallback);
    var m := ActiveModel(s.db, fallback);
    forall d | d in s.db.documents && s.db.documents[d].addressId == a
      ensures Published(s.db, d) <==> HasWork(s.db, d)
    {
      WorkIffPublished(s, d);
    }
    hide HasWork, Published, ActiveModel;
    SoundDb(s);
    LiveRows(s.db, m, a);
  }

  lemma LiveRows(db: Db, m: string, a: string)
    requires DbSound(db)
    requires forall c | c in LiveAt(db, a) :: m in db.tables && c in db.tables[m]
    ensures forall c | c in LiveAt(db, a) :: db.tables[m][c] == EmbeddingRow(a, m, VectorOf(m, db.chunks[c].row.text))
    ensures m in db.tables ==> Examined(db, m, a) == LiveAt(db, a)
  {
    if m in db.tables {
      ExaminedIsEmbedded(db, m, a);
    }
  }

  lemma WorkIffPublished(s: State, d: DocId)
    requires Sound(s) && Honest(s) && d in s.db.documents
    requires forall t | t in s.db.jobs && s.db.jobs[t].spec.addressId == s.db.documents[d].addressId ::
               s.db.jobs[t].state in {Done, Skipped}
    ensures Published(s.db, d) <==> HasWork(s.db, d)
  {
    SoundDb(s);
    assert forall t | t in s.db.jobs :: JobSound(s.db, s.db.jobs[t]) && RowHonest(s.db, s.db.jobs[t]);
    if HasWork(s.db, d) {
      var t :| WorkRow(s.db, d, t);
      assert s.db.jobs[t].state == Done;
    }
    if Published(s.db, d) {
      var t :| t in Committed(s.hist, Some(d));
      assert CommitRow(s.db, d, t);
      assert WorkRow(s.db, d, t);
    }
  }

  // ---- when every upload reaches its enqueue -------------------------------------------

  /** No upload to the address is given up between its two transactions. */
  ghost function NoAbandon(a: string): (State, Event) -> bool {
    (s: State, e: Event) => e.Abandon? && e.u in s.uploads ==> s.uploads[e.u].addressId != a
  }

  /** No upload to the address is between its two transactions. */
  predicate NoneHalfDone(s: State, a: string) {
    forall u | u in s.uploads :: s.uploads[u].addressId != a
  }

  /** Each document has a queued job row, or an upload that is about to queue one. */
  ghost predicate Backed(s: State, d: DocId) {
    HasWork(s.db, d) || exists u :: u in s.uploads && s.uploads[u].documentId == Some(d)
  }

  lemma WorkStays(s: State, e: Event, d: DocId)
    requires Sound(s) && Honest(s) && HasWork(s.db, d) && d in Next(s, e).db.documents
    ensures HasWork(Next(s, e).db, d)
  {
    hide Next, Sound, Honest;
    var t :| WorkRow(s.db, d, t);
    SoundIssued(s);
    NextSound(s, e);
    JobStays(s, e, t, d);
    JobChange(s, e, t);
    if e.Go? && e.r in s.runs {
      hide Evolves;
      SkipOnlyGone(s, e.r);
      DocumentsSame(s, e);
    }
    assert WorkRow(Next(s, e).db, d, t);
  }

  lemma JobStays(s: State, e: Event, t: TaskId, d: DocId)
    requires Evolves(s.db, Next(s, e).db) && t in s.db.jobs && s.db.jobs[t].spec.documentId == Some(d)
    requires d in Next(s, e).db.documents
    ensures t in Next(s, e).db.jobs
  {
    hide Next;
  }

  lemma DocumentsSame(s: State, e: Event)
    requires e.Go? && e.r in s.runs
    ensures Next(s, e).db.documents.Keys == s.db.documents.Keys
  {
    ProceedFrame(s.db, s.runs[e.r], e.a);
    hide Proceed;
  }

  lemma SkipOnlyGone(s: State, r: RunId)
    requires Sound(s) && Honest(s) && r in s.runs
    ensures s.runs[r].pc.AtSkip? && s.runs[r].job.spec.documentId.Some? ==>
              s.runs[r].job.spec.documentId.value !in s.db.documents
    ensures r.0 == s.runs[r].job.taskId
    ensures r.0 in s.db.jobs ==> s.db.jobs[r.0].spec == s.runs[r].job.spec
  {
    assert RunHonest(s.db, s.runs[r]) && RunSound(s.db, r, s.runs[r]);
  }

  lemma UploadStays(s: State, e: Event, d: DocId, u: nat)
    requires Sound(s) && !(e.Abandon? && e.u == u) && u in s.uploads && s.uploads[u].documentId == Some(d)
    requires d in Next(s, e).db.documents && d in s.db.documents
    ensures Backed(Next(s, e), d)
  {
    var s' := Next(s, e);
    if e.Enqueue? && e.u == u {
      assert WorkRow(s'.db, d, s.db.next);
    } else {
      if e.Upload? { UploadFresh(s, u); }
      hide Sound;
      assert u in s'.uploads && s'.uploads[u] == s.uploads[u];
    }
  }

  lemma UploadFresh(s: State, u: nat)
    requires Sound(s) && u in s.uploads
    ensures u < s.db.next
  {
    assert UploadSound(s.db, u, s.uploads[u]);
  }

  lemma BackedNext(s: State, e: Event, a: string, d: DocId)
    requires Sound(s) && Honest(s) && NoAbandon(a)(s, e)
    requires d in Next(s, e).db.documents && Next(s, e).db.documents[d].addressId == a
    requires d in s.db.documents ==> Backed(s, d)
    ensures Backed(Next(s, e), d)
  {
    if d in s.db.documents {
      hide Next, Sound, Honest;
      SameAddress(s, e, d);
      if HasWork(s.db, d) {
        WorkStays(s, e, d);
      } else {
        var u :| u in s.uploads && s.uploads[u].documentId == Some(d);
        UploadAddress(s, u);
        UploadStays(s, e, d, u);
      }
    } else {
      hide Sound, Honest;
      NewDocument(s, e, d);
    }
  }

  lemma SameAddress(s: State, e: Event, d: DocId)
    requires Sound(s) && d in s.db.documents && d in Next(s, e).db.documents
    ensures Next(s, e).db.documents[d].addressId == s.db.documents[d].addressId
  {
    hide Next, Sound;
    NextSound(s, e);
    SoundIssued(s);
  }

  lemma UploadAddress(s: State, u: nat)
    requires Sound(s) && u in s.uploads
    ensures var spec := s.uploads[u];
      spec.documentId.Some? && spec.documentId.value in s.db.documents ==>
        s.db.documents[spec.documentId.value].addressId == spec.addressId
  {
    assert UploadSound(s.db, u, s.uploads[u]);
  }

  /** Only an upload creates a document, and it is then about to queue a job for it. */
  lemma NewDocument(s: State, e: Event, d: DocId)
    requires d in Next(s, e).db.documents && d !in s.db.documents
    ensures Backed(Next(s, e), d)
  {
    if e.Go? && e.r in s.runs {
      DocumentsSame(s, e);
      assert false;
    }
    hide Proceed;
    assert e.Upload?;
    var u := Upsert(s.db, e.found, e.addressId, e.uploadId, e.hash).next;
    assert u in Next(s, e).uploads && Next(s, e).uploads[u].documentId == Some(d);
  }

  lemma {:induction false} ExecBacked(es: seq<Event>, a: string)
    requires Guarded(NoAbandon(a), INIT, es)
    ensures forall d | d in Exec(INIT, es).db.documents && Exec(INIT, es).db.documents[d].addressId == a ::
              Backed(Exec(INIT, es), d)
  {
    if es != [] {
      hide Next, Sound, Honest, Backed, Exec, NoAbandon;
      var front, e := es[..|es| - 1], es[|es| - 1];
      ExecSplit(INIT, es);
      GuardedFront(NoAbandon(a), INIT, es);
      ExecSound(front);
      ExecHonest(front);
      ExecBacked(front, a);
      var s := Exec(INIT, front);
      forall d | d in Next(s, e).db.documents && Next(s, e).db.documents[d].addressId == a
        ensures Backed(Next(s, e), d)
      {
        if d in s.db.documents { SameAddress(s, e, d); }
        BackedNext(s, e, a, d);
      }
    }
  }

  /** When no upload to the address stops between its two transactions and none is between them now,
      a fully indexed address has every one of its documents live. */
  lemma FullyIndexedMeansAllLive(es: seq<Event>, a: string, fallback: string)
    requires Guarded(NoAbandon(a), INIT, es) && NoneHalfDone(Exec(INIT, es), a)
    requires ReadStatus(Exec(INIT, es).db, a, fallback).fullyIndexed
    ensures var db := Exec(INIT, es).db;
      forall d | d in db.documents && db.documents[d].addressId == a :: Published(db, d)
  {
    hide Exec, ReadStatus, Published, HasWork, Guarded, NoAbandon, Sound;
    FullyIndexedIsSound(es, a, fallback);
    ExecBacked(es, a);
    ExecSound(es);
    var s := Exec(INIT, es);
    forall u | u in s.uploads
      ensures s.uploads[u].documentId.Some? && s.uploads[u].documentId.value in s.db.documents ==>
                s.db.documents[s.uploads[u].documentId.value].addressId != a
    {
      UploadAddress(s, u);
    }
  }
}
