/** One run played against the answers of its calls, and the same run inside the protocol. */
module Replay {
  import opened Schema
  import opened Pipeline
  import opened Protocol

  /** How one awaited call ends. */
  datatype Call = Returns(answer: Answer) | Raises(exc: Exc)

  type Calls = nat -> Call

  function PlayCall(db: Db, run: Run, call: Call): (Db, Run) {
    match call
    case Returns(a) => var (db', pc) := Proceed(db, run, a); (db', run.(pc := pc))
    case Raises(e) => (db, run.(pc := Raise(run.job, run.pc, e)))
  }

  /** The database and the run after `n` calls. */
  ghost function Play(db: Db, run: Run, calls: Calls, n: nat): (Db, Run) {
    if n == 0 then (db, run)
    else var (mid, at) := Play(db, run, calls, n - 1); PlayCall(mid, at, calls(n - 1))
  }

  lemma PlayNext(db: Db, run: Run, calls: Calls, n: nat, mid: Db, at: Run)
    requires Play(db, run, calls, n) == (mid, at)
    ensures Play(db, run, calls, n + 1) == PlayCall(mid, at, calls(n))
  {
    hide PlayCall;
  }

  lemma PlayNone(db: Db, run: Run, calls: Calls)
    ensures Play(db, run, calls, 0) == (db, run)
  {
  }

  function CallEvent(r: RunId, call: Call): Event {
    match call
    case Returns(a) => Go(r, a)
    case Raises(e) => Fail(r, e)
  }

  ghost function Trace(r: RunId, calls: Calls, n: nat): seq<Event> {
    if n == 0 then [] else Trace(r, calls, n - 1) + [CallEvent(r, calls(n - 1))]
  }

  lemma OneCall(s: State, r: RunId, call: Call)
    requires r in s.runs && !s.runs[r].pc.Finished? && (s.runs[r].pc.AtFailing? ==> call.Returns?)
    ensures
      var s' := Next(s, CallEvent(r, call));
      var (db, run) := PlayCall(s.db, s.runs[r], call);
      && s'.db == db
      && (if run.pc.Finished? then s'.runs == s.runs - {r} else s'.runs == s.runs[r := run])
      && s'.uploads == s.uploads
  {
    hide Proceed, Remember;
  }

  /** A run played on its own is `n` events of the protocol with nothing in between. */
  lemma {:induction false} PlayIsExec(s: State, r: RunId, calls: Calls, n: nat)
    requires r in s.runs
    requires forall k | 0 <= k < n :: Going(s.db, s.runs[r], calls, k)
    ensures
      var s' := Exec(s, Trace(r, calls, n));
      var (db, run) := Play(s.db, s.runs[r], calls, n);
      && s'.db == db
      && (if run.pc.Finished? && n > 0 then s'.runs == s.runs - {r} else s'.runs == s.runs[r := run])
      && s'.uploads == s.uploads
  {
    hide Next, PlayCall, Exec, CallEvent;
    if n == 0 {
      assert Exec(s, []) == s by { NoEvents(s); }
      assert s.runs[r := s.runs[r]] == s.runs;
    } else {
      PlayIsExec(s, r, calls, n - 1);
      assert Going(s.db, s.runs[r], calls, n - 1);
      ExecLast(s, Trace(r, calls, n - 1), CallEvent(r, calls(n - 1)));
      OneCall(Exec(s, Trace(r, calls, n - 1)), r, calls(n - 1));
      assert s.runs[r := Play(s.db, s.runs[r], calls, n - 1).1] - {r} == s.runs - {r};
    }
  }

  lemma NoEvents(s: State)
    ensures Exec(s, []) == s
  {
  }

  /** After `k` calls the run has not ended; its `mark_failed` succeeds. */
  ghost predicate Going(db: Db, run: Run, calls: Calls, k: nat) {
    var pc := Play(db, run, calls, k).1.pc;
    !pc.Finished? && (pc.AtFailing? ==> calls(k).Returns?)
  }

  /** A run that is under way now was under way after every earlier call. */
  lemma {:induction false} GoingBack(db: Db, run: Run, calls: Calls, n: nat)
    requires !Play(db, run, calls, n).1.pc.Finished? && !Play(db, run, calls, n).1.pc.AtFailing?
    ensures forall k | 0 <= k < n :: Going(db, run, calls, k)
  {
    hide Proceed, PlayCall;
    if n > 0 {
      var (mid, at) := Play(db, run, calls, n - 1);
      if at.pc.AtFailing? || at.pc.Finished? { StaysEnded(mid, at, calls(n - 1)); }
      GoingBack(db, run, calls, n - 1);
    }
  }

  lemma StaysEnded(db: Db, run: Run, call: Call)
    requires run.pc.AtFailing? || run.pc.Finished?
    ensures var pc := PlayCall(db, run, call).1.pc; pc.AtFailing? || pc.Finished?
  {
  }
}
