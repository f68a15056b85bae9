/** The batch claim of the polling worker. */
module Queue {
  import opened Schema
  import opened Tasks
  import opened Pipeline
  import opened Protocol
  import opened Store

  /** Claimable rows, oldest first. */
  ghost predicate OldestFirst(db: Db, order: seq<TaskId>) {
    && (forall i | 0 <= i < |order| :: Claimable(db, order[i]))
    && (forall i, j | 0 <= i < j < |order| :: order[i] != order[j])
    && (forall i, t | 0 <= i < |order| && t in db.jobs && Claimable(db, t) && t !in order[..i] ::
          db.jobs[order[i]].createdAt <= db.jobs[t].createdAt)
  }

  /** What the claiming SELECT may return: as many of them as there are, up to the limit. */
  ghost predicate Chosen(db: Db, order: seq<TaskId>, limit: nat) {
    && OldestFirst(db, order) && |order| <= limit
    && (|order| < limit ==> forall t | t in db.jobs && Claimable(db, t) :: t in order)
  }

  function LeaseAll(db: Db, order: seq<TaskId>, seconds: int): (leased: Db)
    requires forall i | 0 <= i < |order| :: order[i] in db.jobs
    ensures leased.jobs.Keys == db.jobs.Keys
  {
    if order == [] then db
    else Lease(LeaseAll(db, order[..|order| - 1], seconds), order[|order| - 1], seconds)
  }

  predicate Candidate(db: Db, t: TaskId, taken: seq<TaskId>) {
    Claimable(db, t) && t !in taken
  }

  lemma {:induction false} OldestExists(db: Db, ts: set<TaskId>, taken: seq<TaskId>) returns (t: TaskId)
    requires ts != {} && forall u | u in ts :: u in db.jobs && Candidate(db, u, taken)
    ensures t in ts && forall u | u in ts :: db.jobs[t].createdAt <= db.jobs[u].createdAt
    decreases ts
  {
    t :| t in ts;
    if ts != {t} {
      var u := OldestExists(db, ts - {t}, taken);
      if db.jobs[u].createdAt < db.jobs[t].createdAt { t := u; }
    }
  }

  predicate Best(db: Db, t: TaskId, taken: seq<TaskId>) {
    && t in db.jobs && Candidate(db, t, taken)
    && forall u | u in db.jobs :: Candidate(db, u, taken) ==> db.jobs[t].createdAt <= db.jobs[u].createdAt
  }

  lemma BestExists(db: Db, taken: seq<TaskId>)
    requires exists t :: t in db.jobs && Candidate(db, t, taken)
    ensures exists t :: t in db.jobs && Best(db, t, taken)
  {
    var ts := set u | u in db.jobs && Candidate(db, u, taken);
    var some :| some in db.jobs && Candidate(db, some, taken);
    assert some in ts;
    var t := OldestExists(db, ts, taken);
    assert Best(db, t, taken);
  }

  lemma Extends(db: Db, order: seq<TaskId>, t: TaskId)
    requires OldestFirst(db, order) && Best(db, t, order)
    ensures OldestFirst(db, order + [t])
  {
    var longer := order + [t];
    assert forall i | 0 <= i <= |order| :: longer[..i] == order[..i];
    assert longer[..|order|] == order;
  }

  /** The rows not yet leased are as they were. */
  lemma {:induction false} Untouched(db: Db, order: seq<TaskId>, seconds: int, t: TaskId)
    requires (forall i | 0 <= i < |order| :: order[i] in db.jobs) && t in db.jobs && t !in order
    ensures LeaseAll(db, order, seconds).jobs[t] == db.jobs[t]
    ensures LeaseAll(db, order, seconds).now == db.now
  {
    if order != [] {
      Untouched(db, order[..|order| - 1], seconds, t);
    }
  }

  lemma LeaseAllAppend(db: Db, order: seq<TaskId>, seconds: int, t: TaskId)
    requires (forall i | 0 <= i < |order| :: order[i] in db.jobs) && t in db.jobs
    ensures LeaseAll(db, order + [t], seconds) == Lease(LeaseAll(db, order, seconds), t, seconds)
  {
    assert (order + [t])[..|order|] == order;
  }

  /** One UPDATE over the rows of one SELECT: the leases all follow from the rows as they were. */
  method Claim(store: Database, seconds: int, limit: nat) returns (claimed: seq<ClaimedJob>, order: seq<TaskId>)
    modifies store`jobs
    ensures Chosen(old(store.View()), order, limit)
    ensures store.View() == LeaseAll(old(store.View()), order, seconds)
    ensures |claimed| == |order|
    ensures forall i | 0 <= i < |order| :: claimed[i] == Claimed(old(store.View()), order[i])
  {
    hide OldestFirst, Candidate, Claimable, LeaseAll, Lease, Claimed, Best;
    var was := store.View();
    claimed, order := [], [];
    NoneChosen(was, seconds);
    while |order| < limit && exists t :: t in was.jobs && Candidate(was, t, order)
      invariant |order| <= limit && |claimed| == |order|
      invariant OldestFirst(was, order) && (forall i | 0 <= i < |order| :: order[i] in was.jobs)
      invariant store.View() == LeaseAll(was, order, seconds)
      invariant forall i | 0 <= i < |order| :: claimed[i] == Claimed(was, order[i])
      decreases limit - |order|
    {
      BestExists(was, order);
      var t :| t in was.jobs && Best(was, t, order);
      Extends(was, order, t);
      BestIsNew(was, order, t);
      Untouched(was, order, seconds, t);
      LeaseAllAppend(was, order, seconds, t);
      assert store.View().jobs[t] == was.jobs[t];
      SameClaim(was, store.View(), t);
      var job := store.TakeLease(t, seconds);
      claimed, order := claimed + [job], order + [t];
    }
    if |order| < limit { AllTaken(was, order); }
  }

  lemma NoneChosen(db: Db, seconds: int)
    ensures OldestFirst(db, []) && LeaseAll(db, [], seconds) == db
  {
  }

  lemma BestIsNew(db: Db, order: seq<TaskId>, t: TaskId)
    requires Best(db, t, order)
    ensures t !in order
  {
  }

  lemma SameClaim(a: Db, b: Db, t: TaskId)
    requires t in a.jobs && t in b.jobs && a.jobs[t] == b.jobs[t]
    ensures Claimed(a, t) == Claimed(b, t)
  {
  }

  lemma AllTaken(db: Db, order: seq<TaskId>)
    requires !exists t :: t in db.jobs && Candidate(db, t, order)
    ensures forall t | t in db.jobs && Claimable(db, t) :: t in order
  {
    forall t | t in db.jobs && Claimable(db, t) ensures t in order {
      assert !Candidate(db, t, order);
    }
  }

  ghost function Claims(order: seq<TaskId>, seconds: int): seq<Event> {
    if order == [] then [] else Claims(order[..|order| - 1], seconds) + [Event.Claim(order[|order| - 1], seconds)]
  }

  lemma {:induction false} LeasedKeys(db: Db, order: seq<TaskId>, seconds: int)
    requires forall i | 0 <= i < |order| :: order[i] in db.jobs
    ensures LeaseAll(db, order, seconds).now == db.now
    ensures forall t | t in db.jobs :: LeaseAll(db, order, seconds).jobs[t].createdAt == db.jobs[t].createdAt
  {
    if order != [] { LeasedKeys(db, order[..|order| - 1], seconds); }
  }

  lemma {:induction false} NotClaimable(db: Db, order: seq<TaskId>, seconds: nat, t: TaskId)
    requires (forall i | 0 <= i < |order| :: order[i] in db.jobs) && t in order
    ensures !Claimable(LeaseAll(db, order, seconds), t)
  {
    LeasedKeys(db, order[..|order| - 1], seconds);
    if t != order[|order| - 1] { NotClaimable(db, order[..|order| - 1], seconds, t); }
  }

  /** After the earlier leases the next one is still of an oldest claimable job. */
  lemma StillOldest(db: Db, order: seq<TaskId>, seconds: nat)
    requires OldestFirst(db, order) && order != []
    ensures
      var front, t := order[..|order| - 1], order[|order| - 1];
      && Oldest(LeaseAll(db, front, seconds), t) && LeaseAll(db, front, seconds).jobs[t] == db.jobs[t]
  {
    var front, t := order[..|order| - 1], order[|order| - 1];
    var mid := LeaseAll(db, front, seconds);
    assert Claimable(db, t) && t !in front;
    Untouched(db, front, seconds, t);
    LeasedKeys(db, front, seconds);
    hide LeaseAll;
    forall u | u in mid.jobs && Claimable(mid, u) ensures mid.jobs[t].createdAt <= mid.jobs[u].createdAt {
      if u in front {
        NotClaimable(db, front, seconds, u);
      } else {
        Untouched(db, front, seconds, u);
        assert Claimable(db, u);
      }
    }
  }

  lemma LendIs(s: State, t: TaskId, seconds: int)
    requires Oldest(s.db, t)
    ensures
      var s' := Next(s, Event.Claim(t, seconds));
      && s'.db == Lease(s.db, t, seconds) && s'.uploads == s.uploads
      && s'.runs == s.runs[(t, s.db.jobs[t].attempts + 1) := Start(Claimed(s.db, t))]
  {
  }

  lemma FrontOldestFirst(db: Db, order: seq<TaskId>)
    requires OldestFirst(db, order) && order != []
    ensures OldestFirst(db, order[..|order| - 1])
    ensures forall i | 0 <= i < |order| :: order[i] in db.jobs
    ensures order[|order| - 1] !in order[..|order| - 1]
  {
    var front := order[..|order| - 1];
    assert forall i | 0 <= i < |front| :: front[..i] == order[..i];
  }

  ghost predicate Lent(s: State, order: seq<TaskId>, s': State)
    requires forall i | 0 <= i < |order| :: order[i] in s.db.jobs
  {
    forall i | 0 <= i < |order| ::
      var r := (order[i], s.db.jobs[order[i]].attempts + 1);
      r in s'.runs && s'.runs[r] == Start(Claimed(s.db, order[i]))
  }

  lemma LentMore(s: State, order: seq<TaskId>, mid: State, s': State)
    requires (forall i | 0 <= i < |order| :: order[i] in s.db.jobs) && order != []
    requires Lent(s, order[..|order| - 1], mid)
    requires order[|order| - 1] !in order[..|order| - 1]
    requires
      var t := order[|order| - 1];
      s'.runs == mid.runs[(t, s.db.jobs[t].attempts + 1) := Start(Claimed(s.db, t))]
    ensures Lent(s, order, s')
  {
    hide Start, Claimed;
    var front := order[..|order| - 1];
    forall i | 0 <= i < |order|
      ensures var r := (order[i], s.db.jobs[order[i]].attempts + 1);
        r in s'.runs && s'.runs[r] == Start(Claimed(s.db, order[i]))
    {
      if i < |front| { assert front[i] == order[i]; }
    }
  }

  /** With a lease that is not already over, a batch claim is that many single claims, each of an oldest job. */
  lemma {:induction false} BatchIsClaims(s: State, order: seq<TaskId>, seconds: nat)
    requires OldestFirst(s.db, order)
    ensures forall i | 0 <= i < |order| :: order[i] in s.db.jobs
    ensures
      var s' := Exec(s, Claims(order, seconds));
      s'.db == LeaseAll(s.db, order, seconds) && s'.uploads == s.uploads && Lent(s, order, s')
  {
    hide OldestFirst, Oldest, Next, Lease, Claimed, Start;
    if order != [] {
      var front, t := order[..|order| - 1], order[|order| - 1];
      FrontOldestFirst(s.db, order);
      BatchIsClaims(s, front, seconds);
      StillOldest(s.db, order, seconds);
      var mid := Exec(s, Claims(front, seconds));
      ExecLast(s, Claims(front, seconds), Event.Claim(t, seconds));
      hide Exec, LeaseAll;
      LendIs(mid, t, seconds);
      SameClaim(s.db, mid.db, t);
      LeaseAllAppend(s.db, front, seconds, t);
      assert front + [t] == order;
      LentMore(s, order, mid, Next(mid, Event.Claim(t, seconds)));
      hide Lent;
    }
  }
}
