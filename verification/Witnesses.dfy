/** Traces on which a property fails without its guard. */
module Witnesses {
  import opened Schema
  import opened Tasks
  import opened Documents
  import opened Embeddings
  import opened Pipeline
  import opened Protocol
  import opened Integrity
  import opened Status

  const FIRST := Event.Upload(None, "a", "u", "h1", "m")
  const CHANGED := Event.Upload(Some(0), "a", "u", "h2", "m")

  function Uploaded(hash: string, version: int): Spec {
    Spec(Some(0), "a", "u", hash, "m", version, Ingest)
  }

  lemma FirstUpload()
    ensures
      Next(INIT, FIRST) ==
        INIT.(db := EMPTY_DB.(documents := map[0 := Document("a", "u", "h1", 0)], next := 2),
              uploads := map[1 := Uploaded("h1", 1)])
  {
  }

  /** A request that dies between writing the document and enqueueing its job leaves an address that
      reads as fully indexed although its only document was never indexed; and the upload, sent
      again, is taken for unchanged. */
  lemma TornUpload()
    ensures
      var db := Exec(INIT, [FIRST, Abandon(1)]).db;
      && ReadStatus(db, "a", "m").fullyIndexed
      && 0 in db.documents && db.documents[0].addressId == "a" && db.documents[0].liveVersion == 0 && db.jobs == map[]
      && LookedUp(db, "a", "u", Some(0)) && db.documents[0].contentHash == "h1"
  {
    FirstUpload();
    var s := Next(INIT, FIRST);
    assert [FIRST, Abandon(1)] == [FIRST] + [Abandon(1)];
    ExecLast(INIT, [FIRST], Abandon(1));
    OneEvent(INIT, FIRST);
    var db := s.db;
    assert Exec(INIT, [FIRST, Abandon(1)]).db == db;
    assert JobsIn(db, "a", {Pending, Extracting, Chunking, Embedding}) == {};
    assert JobsIn(db, "a", {Failed}) == {};
    assert LiveAt(db, "a") == {};
  }

  lemma OneEvent(s: State, e: Event)
    ensures Exec(s, [e]) == Next(s, e)
  {
    assert [e][..0] == [];
  }

  // ---- a stranded job -------------------------------------------------------------------------

  const NO_HISTORY := History(map[], map[], map[], map[], map[])
  const ANY := Answer([], [], 0, 0.0)

  /** One document, its first job, and runs of that job. */
  function World(j: Job, now: int, runs: map<RunId, Run>): State {
    State(Db(map[0 := Document("a", "u", "h1", 0)], map[], map[], map[2 := j], None, now, 3), runs, map[], NO_HISTORY)
  }

  function FirstJob(state: JobState, attempts: nat, lease: Option<int>): Job {
    Job(Uploaded("h1", 1), state, 0, 0, attempts, 0, 0.0, lease, 0, None, None)
  }

  function Copy(attempts: nat): ClaimedJob {
    ClaimedJob(2, Uploaded("h1", 1), attempts, Extracting)
  }

  lemma Enqueued()
    ensures Exec(INIT, [FIRST, Enqueue(1)]) == World(FirstJob(Pending, 0, None), 0, map[])
  {
    FirstUpload();
    OneEvent(INIT, FIRST);
    ExecLast(INIT, [FIRST], Enqueue(1));
    assert [FIRST, Enqueue(1)] == [FIRST] + [Enqueue(1)];
  }

  lemma Claimed1(j: Job, now: int, runs: map<RunId, Run>)
    requires j.spec == Uploaded("h1", 1) && Claimable(World(j, now, runs).db, 2)
    ensures Next(World(j, now, runs), Event.Claim(2, 0)) ==
      World(j.(state := Extracting, leaseUntil := Some(now), attempts := j.attempts + 1), now,
            runs[(2, j.attempts + 1) := Run(Copy(j.attempts + 1), AtLoad)])
  {
  }

  function Failed2(): Job {
    FirstJob(Failed, 2, None).(finishedAt := Some(1), fault := Some(Fault("extracting", Named("ValueError"))))
  }

  /** The first run outlives its lease, the second fails the job for good. */
  lemma SecondFails()
    ensures
      var runs := map[(2, 1) := Run(Copy(1), AtLoad)];
      var s := World(FirstJob(Extracting, 1, Some(0)), 1, runs);
      Exec(s, [Event.Claim(2, 0), Fail((2, 2), Named("ValueError")), Go((2, 2), ANY)]) == World(Failed2(), 1, runs)
  {
    var runs := map[(2, 1) := Run(Copy(1), AtLoad)];
    var s := World(FirstJob(Extracting, 1, Some(0)), 1, runs);
    var e1, e2, e3 := Event.Claim(2, 0), Fail((2, 2), Named("ValueError")), Go((2, 2), ANY);
    var fault := Fault("extracting", Named("ValueError"));
    var both := runs[(2, 2) := Run(Copy(2), AtFailing(fault))];
    Claimed1(FirstJob(Extracting, 1, Some(0)), 1, runs);
    RaisedSecond(runs);
    FailedFirst(both, fault);
    hide Next, Exec;
    OneEvent(s, e1);
    ExecLast(s, [e1], e2);
    ExecLast(s, [e1, e2], e3);
    assert [e1, e2] == [e1] + [e2] && [e1, e2, e3] == [e1, e2] + [e3];
    assert both - {(2, 2)} == runs;
  }

  lemma RaisedSecond(runs: map<RunId, Run>)
    ensures
      var loaded, failing := Run(Copy(2), AtLoad), Run(Copy(2), AtFailing(Fault("extracting", Named("ValueError"))));
      Next(World(FirstJob(Extracting, 2, Some(1)), 1, runs[(2, 2) := loaded]), Fail((2, 2), Named("ValueError")))
        == World(FirstJob(Extracting, 2, Some(1)), 1, runs[(2, 2) := failing])
  {
  }

  lemma FailedFirst(runs: map<RunId, Run>, fault: Fault)
    requires fault == Fault("extracting", Named("ValueError"))
    requires (2, 2) in runs && runs[(2, 2)] == Run(Copy(2), AtFailing(fault))
    ensures Next(World(FirstJob(Extracting, 2, Some(1)), 1, runs), Go((2, 2), ANY))
        == World(Failed2(), 1, runs - {(2, 2)})
  {
  }

  lemma LateLoad()
    ensures Next(World(Failed2(), 1, map[(2, 1) := Run(Copy(1), AtLoad)]), Go((2, 1), ANY))
         == World(Failed2(), 1, map[(2, 1) := Run(Copy(1), AtExtracting)])
  {
  }

  lemma LateCrash()
    ensures Next(World(Failed2().(state := Extracting), 1, map[(2, 1) := Run(Copy(1), AtExtract)]), Crash((2, 1)))
         == World(Failed2().(state := Extracting), 1, map[])
  {
  }

  lemma LateSetState()
    ensures Next(World(Failed2(), 1, map[(2, 1) := Run(Copy(1), AtExtracting)]), Go((2, 1), ANY))
         == World(Failed2().(state := Extracting), 1, map[(2, 1) := Run(Copy(1), AtExtract)])
  {
  }

  /** The late first run then sets the failed row in flight again. */
  lemma StaleSetState()
    ensures
      var s := World(Failed2(), 1, map[(2, 1) := Run(Copy(1), AtLoad)]);
      Exec(s, [Go((2, 1), ANY), Go((2, 1), ANY), Crash((2, 1))]) == World(Failed2().(state := Extracting), 1, map[])
  {
    var s := World(Failed2(), 1, map[(2, 1) := Run(Copy(1), AtLoad)]);
    hide Next, Exec;
    var e, crash := Go((2, 1), ANY), Crash((2, 1));
    OneEvent(s, e);
    ExecLast(s, [e], e);
    ExecLast(s, [e, e], crash);
    assert [e, e] == [e] + [e] && [e, e, crash] == [e, e] + [crash];
    LateLoad();
    LateSetState();
    LateCrash();
  }

  lemma FirstRunLate()
    ensures Exec(World(FirstJob(Pending, 0, None), 0, map[]), [Event.Claim(2, 0), Tick(1)])
         == World(FirstJob(Extracting, 1, Some(0)), 1, map[(2, 1) := Run(Copy(1), AtLoad)])
  {
    var s := World(FirstJob(Pending, 0, None), 0, map[]);
    Claimed1(FirstJob(Pending, 0, None), 0, map[]);
    OneEvent(s, Event.Claim(2, 0));
    ExecLast(s, [Event.Claim(2, 0)], Tick(1));
    assert [Event.Claim(2, 0), Tick(1)] == [Event.Claim(2, 0)] + [Tick(1)];
  }

  const STRANDING := [FIRST, Enqueue(1)] + [Event.Claim(2, 0), Tick(1)]
    + [Event.Claim(2, 0), Fail((2, 2), Named("ValueError")), Go((2, 2), ANY)]
    + [Go((2, 1), ANY), Go((2, 1), ANY), Crash((2, 1))]

  /** Two overlapping runs can leave a job in flight without a lease: no run has it, and no passing of time
      makes it claimable. */
  lemma StrandedJob()
    ensures
      var s := Exec(INIT, STRANDING);
      && s.runs == map[] && 2 in s.db.jobs && InFlight(s.db.jobs[2].state) && s.db.jobs[2].leaseUntil.None?
      && forall dt: nat :: !Claimable(Next(s, Tick(dt)).db, 2)
  {
    hide Exec, Next;
    var e1, e2 := [FIRST, Enqueue(1)], [Event.Claim(2, 0), Tick(1)];
    var e3 := [Event.Claim(2, 0), Fail((2, 2), Named("ValueError")), Go((2, 2), ANY)];
    var e4 := [Go((2, 1), ANY), Go((2, 1), ANY), Crash((2, 1))];
    ExecConcat(INIT, e1 + e2 + e3, e4);
    ExecConcat(INIT, e1 + e2, e3);
    ExecConcat(INIT, e1, e2);
    Enqueued();
    FirstRunLate();
    SecondFails();
    StaleSetState();
    var end := World(Failed2().(state := Extracting), 1, map[]);
    forall dt: nat ensures !Claimable(Next(end, Tick(dt)).db, 2) { NoLease(dt); }
  }

  lemma NoLease(dt: nat)
    ensures !Claimable(Next(World(Failed2().(state := Extracting), 1, map[]), Tick(dt)).db, 2)
  {
  }

  // ---- two uploads before a commit ------------------------------------------------------------

  /** An upload to an existing document, and the enqueue that follows it: the new job writes the version after
      the live one. So it shares its version with another job of the document exactly if that one does too. */
  lemma SharedVersionIff(s: State, e: Event, d: DocId, t: TaskId)
    requires Sound(s) && e.Upload? && e.found == Some(d) && LookedUp(s.db, e.addressId, e.uploadId, e.found)
    requires t in s.db.jobs && s.db.jobs[t].spec.documentId == Some(d)
    ensures
      var s1 := Next(s, e);
      var s2 := Next(s1, Enqueue(s.db.next));
      var t' := s1.db.next;
      var next := s.db.documents[d].liveVersion + 1;
      && t != t' && t in s2.db.jobs && s2.db.jobs[t] == s.db.jobs[t]
      && t' in s2.db.jobs && s2.db.jobs[t'].state == Pending && s2.db.jobs[t'].spec.documentId == Some(d)
      && s2.db.jobs[t'].spec.contentHash == e.hash
      && (s2.db.jobs[t'].spec.docVersion == s2.db.jobs[t].spec.docVersion <==> s.db.jobs[t].spec.docVersion == next)
  {
    SoundIssued(s);
    hide Sound;
    var s1 := Next(s, e);
    assert s1.uploads == s.uploads[s.db.next := UploadSpec(s.db, e)] && s1.db.jobs == s.db.jobs
        && s1.db.next == s.db.next + 1;
    assert d in s1.db.documents;
    hide LookedUp;
    var s2 := Next(s1, Enqueue(s.db.next));
    assert s2.db == InsertJob(s1.db, UploadSpec(s.db, e), Pending);
  }

  /** Reached: content changed before the first commit is queued at the same version, 1. */
  lemma SharedVersion()
    ensures
      var db := Exec(INIT, [FIRST, Enqueue(1)] + [CHANGED, Enqueue(3)]).db;
      && 2 in db.jobs && 4 in db.jobs && db.jobs[2].spec == Uploaded("h1", 1) && db.jobs[4].spec == Uploaded("h2", 1)
  {
    ExecConcat(INIT, [FIRST, Enqueue(1)], [CHANGED, Enqueue(3)]);
    Enqueued();
    var s := World(FirstJob(Pending, 0, None), 0, map[]);
    OneEvent(s, CHANGED);
    ExecLast(s, [CHANGED], Enqueue(3));
    assert [CHANGED, Enqueue(3)] == [CHANGED] + [Enqueue(3)];
    hide Exec;
  }

  // ---- a job that kills its worker --------------------------------------------------------------

  /** `n` rounds of lease, crash and expiry, the first at attempt `from + 1`. */
  function CrashLoop(from: nat, n: nat): seq<Event> {
    if n == 0 then []
    else CrashLoop(from, n - 1) + [Event.Claim(2, 0), Crash((2, from + n)), Tick(1)]
  }

  lemma OneRound(j: Job, now: int)
    requires j.spec == Uploaded("h1", 1) && Claimable(World(j, now, map[]).db, 2)
    ensures
      Exec(World(j, now, map[]), [Event.Claim(2, 0), Crash((2, j.attempts + 1)), Tick(1)])
        == World(j.(state := Extracting, leaseUntil := Some(now), attempts := j.attempts + 1), now + 1, map[])
  {
    var s := World(j, now, map[]);
    var e1, e2, e3 := Event.Claim(2, 0), Crash((2, j.attempts + 1)), Tick(1);
    Claimed1(j, now, map[]);
    OneEvent(s, e1);
    ExecLast(s, [e1], e2);
    ExecLast(s, [e1, e2], e3);
    assert [e1, e2] == [e1] + [e2] && [e1, e2, e3] == [e1, e2] + [e3];
  }

  /** The row after `n` such rounds. */
  function Crashed(j: Job, now: int, n: nat): Job {
    if n == 0 then j
    else j.(state := Extracting, leaseUntil := Some(now + n - 1), attempts := j.attempts + n)
  }

  lemma {:induction false} CrashRounds(j: Job, now: int, n: nat)
    requires j.spec == Uploaded("h1", 1) && Claimable(World(j, now, map[]).db, 2)
    ensures Exec(World(j, now, map[]), CrashLoop(j.attempts, n)) == World(Crashed(j, now, n), now + n, map[])
    ensures Claimable(World(Crashed(j, now, n), now + n, map[]).db, 2)
  {
    hide Next;
    var s := World(j, now, map[]);
    if n > 0 {
      CrashRounds(j, now, n - 1);
      ExecConcat(s, CrashLoop(j.attempts, n - 1), [Event.Claim(2, 0), Crash((2, j.attempts + n)), Tick(1)]);
      OneRound(Crashed(j, now, n - 1), now + n - 1);
      hide Exec;
    }
  }

  /** A run that crashes every time is leased without end: no number of attempts bounds it, although the
      leases never overlap. */
  lemma CrashesAreNotCounted(n: nat)
    ensures
      var s := Exec(INIT, [FIRST, Enqueue(1)] + CrashLoop(0, n));
      2 in s.db.jobs && s.db.jobs[2].attempts == n && Claimable(s.db, 2)
  {
    hide Exec;
    var j := FirstJob(Pending, 0, None);
    Enqueued();
    ExecConcat(INIT, [FIRST, Enqueue(1)], CrashLoop(0, n));
    CrashRounds(j, 0, n);
  }
}
