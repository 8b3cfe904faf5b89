/**
 * A sweep of orphaned operations with nothing interleaved: pkg/reqmgr/manager.go,
 * sweepOrphanedOperations. The interleaved form is the sweeper of module World.
 */
module OperationSweep {
  import opened Common
  import opened Manager
  import opened ManagerInvariants
  import opened OperationStore
  import opened World
  import opened WorldInvariants
  import opened WorldSteps
  import opened OperationTheorems

  /** Delete the record of `op` unless its deletion fails without effect. */
  function Without(store: map<Id, Rec>, op: Id, stays: set<Id>): map<Id, Rec> {
    if op in stays then store else store - {op}
  }

  /** What the sweep does about one record; `stays` are the operations whose deletion has no effect. */
  function SweepOne(cfg: Config, now: Time, m: Mem, store: map<Id, Rec>, rec: Rec, stays: set<Id>)
    : (Mem, map<Id, Rec>)
  {
    if !Compatible(cfg.bootID, rec) then (m, Without(store, rec.op, stays))
    else if Expired(cfg.sweeperTTL, rec, now) then
      if m.holder == Some(rec.op) then
        var (n, e) := BeginRelease(m, rec.op);
        if e.None? then (EndRelease(n, rec.op), Without(store, rec.op, stays)) else (m, store)
      else (m, Without(store, rec.op, stays))
    else if m.owner.TransferPending? then (m, store)
    else if m.holder != Some(rec.op) then (m, Without(store, rec.op, stays))
    else (m, store)
  }

  function SweepAll(cfg: Config, now: Time, m: Mem, store: map<Id, Rec>, ops: seq<Rec>, stays: set<Id>)
    : (Mem, map<Id, Rec>)
    decreases |ops|
  {
    if ops == [] then (m, store)
    else
      var (n, rest) := SweepOne(cfg, now, m, store, ops[0], stays);
      SweepAll(cfg, now, n, rest, ops[1..], stays)
  }

  lemma {:induction false} SweepAllSplit(cfg: Config, now: Time, m: Mem, store: map<Id, Rec>, ops: seq<Rec>,
                                         stays: set<Id>, k: nat)
    requires k < |ops|
    ensures var (n, rest) := SweepAll(cfg, now, m, store, ops[..k], stays);
            SweepAll(cfg, now, m, store, ops[..k + 1], stays) == SweepOne(cfg, now, n, rest, ops[k], stays)
    decreases k
  {
    hide SweepOne;
    if k > 0 {
      var (n, rest) := SweepOne(cfg, now, m, store, ops[0], stays);
      SweepAllSplit(cfg, now, n, rest, ops[1..], stays, k - 1);
      assert ops[..k][1..] == ops[1..][..k - 1] && ops[..k + 1][1..] == ops[1..][..k];
    } else {
      assert ops[..1][1..] == [];
    }
  }

  // ----- what a whole sweep amounts to -----

  /** The sweep frees the lock because this record's operation holds it and expired. */
  predicate Frees(cfg: Config, now: Time, m: Mem, rec: Rec) {
    && (cfg.bootID == "" || rec.boot == "" || rec.boot == cfg.bootID)
    && (rec.updatedAt.None? || now - rec.updatedAt.value > cfg.sweeperTTL)
    && m.holder == Some(rec.op) && m.owner.OwnedByOperation? && m.releasing != Some(rec.op)
  }

  /** The sweep has no use for this record. */
  predicate Orphan(cfg: Config, now: Time, m: Mem, rec: Rec) {
    || (cfg.bootID != "" && rec.boot != "" && rec.boot != cfg.bootID)
    || (m.holder != Some(rec.op) &&
        (rec.updatedAt.None? || now - rec.updatedAt.value > cfg.sweeperTTL || !m.owner.TransferPending?))
  }

  function Unlocked(m: Mem): Mem {
    m.(locked := false, holder := None, owner := LockNone, releasing := None)
  }

  /** Decisions about the other records do not depend on the lock being freed on the way. */
  lemma {:induction false} SweepAllForm(cfg: Config, now: Time, m: Mem, store: map<Id, Rec>, ops: seq<Rec>,
                                        stays: set<Id>)
    requires forall i, j :: 0 <= i < j < |ops| ==> ops[i].op != ops[j].op
    ensures var (n, rest) := SweepAll(cfg, now, m, store, ops, stays);
            && n == (if exists i :: 0 <= i < |ops| && Frees(cfg, now, m, ops[i]) then Unlocked(m) else m)
            && (forall op :: op in rest ==> op in store && rest[op] == store[op])
            && (forall op :: op in store ==>
                 (op in rest <==> op in stays || forall i :: 0 <= i < |ops| && ops[i].op == op ==>
                  !Frees(cfg, now, m, ops[i]) && !Orphan(cfg, now, m, ops[i])))
    decreases |ops|
  {
    if ops != [] {
      var (m1, store1) := SweepOne(cfg, now, m, store, ops[0], stays);
      OneForm(cfg, now, m, store, ops[0], stays);
      SweepAllForm(cfg, now, m1, store1, ops[1..], stays);
      hide SweepOne, SweepAll, Frees, Orphan;
      SweepAllUnfold(cfg, now, m, store, ops, stays);
      var (n, rest) := SweepAll(cfg, now, m, store, ops, stays);
      forall i | 1 <= i < |ops|
        ensures ops[i] == ops[1..][i - 1]
        ensures Frees(cfg, now, m1, ops[i]) == Frees(cfg, now, m, ops[i])
        ensures Orphan(cfg, now, m1, ops[i]) == Orphan(cfg, now, m, ops[i])
      {
        OneLeavesOthers(cfg, now, m, store, ops[0], stays, ops[i]);
      }
      MemForm(cfg, now, m, m1, n, ops);
      forall op | op in store
        ensures op in rest <==> op in stays || forall i :: 0 <= i < |ops| && ops[i].op == op ==>
                  !Frees(cfg, now, m, ops[i]) && !Orphan(cfg, now, m, ops[i])
      {
        assert forall i :: 0 <= i < |ops| - 1 ==> ops[1..][i] == ops[i + 1];
      }
    }
  }

  lemma MemForm(cfg: Config, now: Time, m: Mem, m1: Mem, n: Mem, ops: seq<Rec>)
    requires ops != [] && m1 == (if Frees(cfg, now, m, ops[0]) then Unlocked(m) else m)
    requires forall i :: 1 <= i < |ops| ==>
               ops[i] == ops[1..][i - 1] && Frees(cfg, now, m1, ops[i]) == Frees(cfg, now, m, ops[i])
    requires forall i, j :: 0 <= i < j < |ops| ==> ops[i].op != ops[j].op
    requires n == (if exists i :: 0 <= i < |ops[1..]| && Frees(cfg, now, m1, ops[1..][i]) then Unlocked(m1) else m1)
    ensures n == (if exists i :: 0 <= i < |ops| && Frees(cfg, now, m, ops[i]) then Unlocked(m) else m)
  {
    assert forall i :: 0 <= i < |ops[1..]| ==> ops[1..][i] == ops[i + 1];
  }

  lemma SweepAllUnfold(cfg: Config, now: Time, m: Mem, store: map<Id, Rec>, ops: seq<Rec>, stays: set<Id>)
    requires ops != []
    ensures SweepAll(cfg, now, m, store, ops, stays) ==
            SweepAll(cfg, now, SweepOne(cfg, now, m, store, ops[0], stays).0,
                SweepOne(cfg, now, m, store, ops[0], stays).1, ops[1..], stays)
  {
  }

  lemma OneForm(cfg: Config, now: Time, m: Mem, store: map<Id, Rec>, rec: Rec, stays: set<Id>)
    ensures SweepOne(cfg, now, m, store, rec, stays) ==
            (if Frees(cfg, now, m, rec) then Unlocked(m) else m,
             if Frees(cfg, now, m, rec) || Orphan(cfg, now, m, rec) then Without(store, rec.op, stays) else store)
  {
  }

  lemma OneLeavesOthers(cfg: Config, now: Time, m: Mem, store: map<Id, Rec>, rec: Rec, stays: set<Id>, other: Rec)
    requires other.op != rec.op
    ensures var n := SweepOne(cfg, now, m, store, rec, stays).0;
            && Frees(cfg, now, n, other) == Frees(cfg, now, m, other)
            && Orphan(cfg, now, n, other) == Orphan(cfg, now, m, other)
  {
  }

  /**
   * Convergence: in any reachable state without a running handoff, a sweep whose deletions work and
   * whose query returns every active record leaves no active record but that of the lock owner, keeps
   * that one if it has not expired, and frees the lock if it has.
   */
  lemma SweepConverges(s: Setup, w: World, ops: seq<Rec>)
    requires Reachable(s, w) && !w.mem.owner.TransferPending?
    requires ActiveQuery(w.store, s.cfg.recordLimit, ops) && RoomForAll(w.store, s.cfg.recordLimit)
    ensures var (m, store) := SweepAll(s.cfg, w.now, w.mem, w.store, ops, {});
            && (forall op :: op in store ==> op in w.store && store[op] == w.store[op])
            && (forall op :: op in w.store && !w.store[op].active ==> op in store)
            && (forall op :: op in store && store[op].active ==>
                 Owns(m, op) && store[op].updatedAt.Some? && w.now - store[op].updatedAt.value <= s.cfg.sweeperTTL)
            && (forall op :: op in w.store && Owns(w.mem, op) && w.store[op].updatedAt.Some? &&
                             w.now - w.store[op].updatedAt.value <= s.cfg.sweeperTTL ==>
                 op in store && m == w.mem)
            && (forall op :: op in w.store && Owns(w.mem, op) &&
                             (w.store[op].updatedAt.None? || w.now - w.store[op].updatedAt.value > s.cfg.sweeperTTL) ==>
                  op !in store && !m.locked && m == Unlocked(w.mem))
            && (!w.mem.owner.OwnedByOperation? ==> m == w.mem)
  {
    hide Reachable, ActiveQuery, SweepAll, RoomForAll;
    SweepFactsFrom(s, w);
    QueryFacts(w.store, s.cfg.recordLimit, ops);
    SweepAllForm(s.cfg, w.now, w.mem, w.store, ops, {});
    var (m, store) := SweepAll(s.cfg, w.now, w.mem, w.store, ops, {});
    forall op | op in w.store && w.store[op].active
      ensures exists i :: 0 <= i < |ops| && ops[i] == w.store[op] && ops[i].op == op
    {
      QueryReturnsAll(w.store, s.cfg.recordLimit, ops, op);
    }
    forall op | op in w.store && !w.store[op].active ensures op in store {
      assert forall i :: 0 <= i < |ops| ==> ops[i].op != op;
    }
  }

  lemma QueryFacts(store: map<Id, Rec>, limit: int, ops: seq<Rec>)
    requires ActiveQuery(store, limit, ops)
    ensures forall i :: 0 <= i < |ops| ==> ops[i].op in store && store[ops[i].op] == ops[i] && ops[i].active
    ensures forall i, j :: 0 <= i < j < |ops| ==> ops[i].op != ops[j].op
  {
  }

  /** What a reachable state says about the lock owner and the stored records. */
  lemma SweepFactsFrom(s: Setup, w: World)
    requires Reachable(s, w)
    ensures forall op :: op in w.store ==> w.store[op].op == op
    ensures w.mem.owner.OwnedByOperation? ==>
              && w.mem.holder.Some? && w.mem.releasing != w.mem.holder
              && (w.mem.holder.value in w.store ==>
                    w.store[w.mem.holder.value].active && Compatible(s.cfg.bootID, w.store[w.mem.holder.value]))
    ensures forall op :: op in w.store && w.mem.holder == Some(op) ==> Owns(w.mem, op) || w.mem.owner.TransferPending?
  {
    ReachableInv(s, w);
    hide StatesAgree, TablesAgree, BuffersAgree, TimersAgree, CacheAgrees, OutboxAgrees, OpsOfSweep, OpsOfHands,
        Processes, RecsOfHands, RecsOfSweep, SweepSafe, FramesAgree;
  }

  // ----- the sequential sweep is one of the interleavings -----

  /** The sweeper's steps for the record at the head of its list. */
  ghost function StepsFor(cfg: Config, now: Time, m: Mem, rec: Rec): (run: seq<Step>)
    ensures forall i :: 0 <= i < |run| ==> OfSweeper(run[i])
  {
    if Frees(cfg, now, m, rec) then [SweepCheck, SweepFree] + [SweepFreedDelete(true), SweepFreedClear]
    else if Orphan(cfg, now, m, rec) then [SweepCheck, SweepRemove(true)]
    else if Compatible(cfg.bootID, rec) && Expired(cfg.sweeperTTL, rec, now) then [SweepCheck, SweepFree]
    else [SweepCheck]
  }

  ghost predicate AtRecord(w: World, ops: seq<Rec>) {
    ops != [] && w.sweep == Running(ops, w.now, Checking)
  }

  /** The world after the head record, given its effect on memory and store. */
  ghost function Past(w: World, ops: seq<Rec>, m: Mem, store: map<Id, Rec>): World
    requires ops != []
  {
    w.(mem := m, store := store, sweep := if |ops| == 1 then Idle else Running(ops[1..], w.now, Checking))
  }

  lemma Checked(s: Setup, w: World, ops: seq<Rec>)
    requires AtRecord(w, ops)
    ensures Enabled(s, w, SweepCheck) && Apply(s, w, SweepCheck) == CheckRecord(s.cfg, w)
  {
    hide CheckRecord;
  }

  lemma FreedFirst(s: Setup, w: World, ops: seq<Rec>)
    requires ops != [] && w.sweep == Running(ops, w.now, Freeing)
    ensures Enabled(s, w, SweepFree) && Apply(s, w, SweepFree) == FreeLock(w)
  {
    hide FreeLock;
  }

  lemma FreedRest(s: Setup, w: World, ops: seq<Rec>)
    requires ops != [] && w.sweep == Running(ops, w.now, FreedDeleting)
    ensures var run := [SweepFreedDelete(true), SweepFreedClear];
            ValidRun(s, w, run) && Final(s, w, run) == Past(w, ops, EndRelease(w.mem, ops[0].op), w.store - {ops[0].op})
  {
    hide ValidRun, Final, EndRelease;
    TwoSteps(s, w, SweepFreedDelete(true), SweepFreedClear);
  }

  lemma FreeingRun(s: Setup, w: World, ops: seq<Rec>)
    requires AtRecord(w, ops) && Frees(s.cfg, w.now, w.mem, ops[0])
    ensures var run := StepsFor(s.cfg, w.now, w.mem, ops[0]);
            ValidRun(s, w, run) && Final(s, w, run) == Past(w, ops, Unlocked(w.mem), w.store - {ops[0].op})
  {
    hide ValidRun, Final, Apply, Enabled;
    var v := w.(sweep := Running(ops, w.now, Freeing));
    var u := w.(mem := BeginRelease(w.mem, ops[0].op).0, sweep := Running(ops, w.now, FreedDeleting));
    Checked(s, w, ops);
    FreedFirst(s, v, ops);
    TwoSteps(s, w, SweepCheck, SweepFree);
    FreedRest(s, u, ops);
    RunsCompose(s, w, [SweepCheck, SweepFree], [SweepFreedDelete(true), SweepFreedClear]);
  }

  lemma Removed(s: Setup, w: World, ops: seq<Rec>)
    requires ops != [] && w.sweep == Running(ops, w.now, Removing)
    ensures Enabled(s, w, SweepRemove(true)) &&
              Apply(s, w, SweepRemove(true)) == Past(w, ops, w.mem, w.store - {ops[0].op})
  {
  }

  lemma OrphanRun(s: Setup, w: World, ops: seq<Rec>)
    requires AtRecord(w, ops) && !Frees(s.cfg, w.now, w.mem, ops[0]) && Orphan(s.cfg, w.now, w.mem, ops[0])
    ensures var run := StepsFor(s.cfg, w.now, w.mem, ops[0]);
            ValidRun(s, w, run) && Final(s, w, run) == Past(w, ops, w.mem, w.store - {ops[0].op})
  {
    hide ValidRun, Final, Apply, Enabled, Past;
    Checked(s, w, ops);
    Removed(s, w.(sweep := Running(ops, w.now, Removing)), ops);
    TwoSteps(s, w, SweepCheck, SweepRemove(true));
    PastSweep(w, ops, Running(ops, w.now, Removing), w.mem, w.store - {ops[0].op});
  }

  lemma PastSweep(w: World, ops: seq<Rec>, sweep: Sweep, m: Mem, store: map<Id, Rec>)
    requires ops != []
    ensures Past(w.(sweep := sweep), ops, m, store) == Past(w, ops, m, store)
  {
  }

  lemma LeavingRun(s: Setup, w: World, ops: seq<Rec>)
    requires AtRecord(w, ops) && !Frees(s.cfg, w.now, w.mem, ops[0]) && !Orphan(s.cfg, w.now, w.mem, ops[0])
    ensures var run := StepsFor(s.cfg, w.now, w.mem, ops[0]);
            ValidRun(s, w, run) && Final(s, w, run) == Past(w, ops, w.mem, w.store)
  {
    hide ValidRun, Final, Apply, Enabled;
    Checked(s, w, ops);
    if Expired(s.cfg.sweeperTTL, ops[0], w.now) {
      FreedFirst(s, w.(sweep := Running(ops, w.now, Freeing)), ops);
      TwoSteps(s, w, SweepCheck, SweepFree);
    } else {
      OneStep(s, w, SweepCheck);
    }
  }

  lemma RecordRun(s: Setup, w: World, ops: seq<Rec>)
    requires AtRecord(w, ops)
    ensures var run := StepsFor(s.cfg, w.now, w.mem, ops[0]);
            var (m, store) := SweepOne(s.cfg, w.now, w.mem, w.store, ops[0], {});
            ValidRun(s, w, run) && Final(s, w, run) == Past(w, ops, m, store)
  {
    hide ValidRun, Final, SweepOne, Frees, Orphan, StepsFor;
    OneForm(s.cfg, w.now, w.mem, w.store, ops[0], {});
    if Frees(s.cfg, w.now, w.mem, ops[0]) { FreeingRun(s, w, ops); }
    else if Orphan(s.cfg, w.now, w.mem, ops[0]) { OrphanRun(s, w, ops); }
    else { LeavingRun(s, w, ops); }
  }

  lemma {:induction false} RecordsRun(s: Setup, w: World, ops: seq<Rec>) returns (run: seq<Step>)
    requires AtRecord(w, ops)
    ensures ValidRun(s, w, run) && forall i :: 0 <= i < |run| ==> OfSweeper(run[i])
    ensures var (m, store) := SweepAll(s.cfg, w.now, w.mem, w.store, ops, {});
            Final(s, w, run) == w.(mem := m, store := store, sweep := Idle)
    decreases |ops|
  {
    hide ValidRun, Final, SweepOne, StepsFor;
    RecordRun(s, w, ops);
    run := StepsFor(s.cfg, w.now, w.mem, ops[0]);
    var (m, store) := SweepOne(s.cfg, w.now, w.mem, w.store, ops[0], {});
    if |ops| > 1 {
      var v := Past(w, ops, m, store);
      var rest := RecordsRun(s, v, ops[1..]);
      RunsCompose(s, w, run, rest);
      run := run + rest;
    } else {
      assert ops[1..] == [];
    }
  }

  /** From every state with an idle sweeper some run of the interleaved model is exactly this sweep. */
  lemma SweepIsARun(s: Setup, w: World, ops: seq<Rec>) returns (run: seq<Step>)
    requires w.sweep.Idle? && ActiveQuery(w.store, s.cfg.recordLimit, ops)
    ensures ValidRun(s, w, run) && forall i :: 0 <= i < |run| ==> OfSweeper(run[i])
    ensures var (m, store) := SweepAll(s.cfg, w.now, w.mem, w.store, ops, {});
            Final(s, w, run) == w.(mem := m, store := store)
  {
    hide ValidRun, Final, SweepAll, ActiveQuery;
    TwoSteps(s, w, SweepRead(ops), SweepClock);
    run := [SweepRead(ops), SweepClock];
    var u := Apply(s, Apply(s, w, SweepRead(ops)), SweepClock);
    if ops != [] {
      var rest := RecordsRun(s, u, ops);
      RunsCompose(s, w, run, rest);
      run := run + rest;
    } else {
      SweepNothing(s.cfg, w);
    }
  }

  lemma SweepNothing(cfg: Config, w: World)
    ensures SweepAll(cfg, w.now, w.mem, w.store, [], {}) == (w.mem, w.store)
  {
  }
}
