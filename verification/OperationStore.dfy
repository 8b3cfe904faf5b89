/** Persistent operation records and the contract of their store: pkg/reqmgr/store.go. */
module OperationStore {
  import opened Common

  const SECOND: nat := 1_000_000_000

  /** `updatedAt` is None when the stored text is not an RFC 3339 time. */
  datatype Rec = Rec(op: Id, rpc: Id, boot: string, updatedAt: Option<Time>, active: bool)

  /** RFC 3339 text keeps whole seconds only. */
  function Stamp(now: Time): (t: Time)
    ensures t <= now < t + SECOND
  {
    now / SECOND * SECOND
  }

  /** The record belongs to the running boot, or one of the two boot ids is unknown. */
  predicate Compatible(bootID: string, rec: Rec) {
    bootID == "" || rec.boot == "" || rec.boot == bootID
  }

  predicate Expired(ttl: int, rec: Rec, now: Time) {
    rec.updatedAt.None? || now - rec.updatedAt.value > ttl
  }

  /** Sort position; an unreadable time parses to the zero time, before every other. */
  function Age(rec: Rec): int {
    if rec.updatedAt.None? then -1 else rec.updatedAt.value
  }

  /** Some record is active in the store and was left out of `ops`. */
  ghost predicate LeftOut(store: map<Id, Rec>, ops: seq<Rec>, op: Id) {
    op in store && store[op].active && store[op] !in ops
  }

  /** What GetActive(limit) may return: the newest active records, newest first. */
  ghost predicate ActiveQuery(store: map<Id, Rec>, limit: int, ops: seq<Rec>) {
    && (forall i :: 0 <= i < |ops| ==> ops[i].op in store && store[ops[i].op] == ops[i] && ops[i].active)
    && (forall i, j :: 0 <= i < j < |ops| ==> ops[i].op != ops[j].op)
    && (forall i, j :: 0 <= i < j < |ops| ==> Age(ops[i]) >= Age(ops[j]))
    && (limit > 0 ==> |ops| <= limit)
    && (forall op, i :: LeftOut(store, ops, op) && 0 <= i < |ops| ==> Age(ops[i]) >= Age(store[op]))
    && (forall op :: LeftOut(store, ops, op) ==> 0 < limit == |ops|)
  }

  /** Start's scan: the first record of this boot that has not expired. */
  function FirstRecoverable(bootID: string, ttl: int, now: Time, ops: seq<Rec>): (r: Option<Rec>)
    ensures r.Some? ==> r.value in ops && Compatible(bootID, r.value) && !Expired(ttl, r.value, now)
    ensures r.None? ==> forall i :: 0 <= i < |ops| ==> !Compatible(bootID, ops[i]) || Expired(ttl, ops[i], now)
  {
    if ops == [] then None
    else if Compatible(bootID, ops[0]) && !Expired(ttl, ops[0], now) then Some(ops[0])
    else FirstRecoverable(bootID, ttl, now, ops[1..])
  }

  /** Because the query is newest first, the first recoverable record is a newest one. */
  lemma FirstRecoverableIsNewest(ops: seq<Rec>, bootID: string, ttl: int, now: Time)
    requires forall i, j :: 0 <= i < j < |ops| ==> Age(ops[i]) >= Age(ops[j])
    requires FirstRecoverable(bootID, ttl, now, ops).Some?
    ensures forall i :: 0 <= i < |ops| && Compatible(bootID, ops[i]) && !Expired(ttl, ops[i], now) ==>
              Age(FirstRecoverable(bootID, ttl, now, ops).value) >= Age(ops[i])
  {
    if !(Compatible(bootID, ops[0]) && !Expired(ttl, ops[0], now)) {
      FirstRecoverableIsNewest(ops[1..], bootID, ttl, now);
      assert forall i :: 0 < i < |ops| ==> ops[i] == ops[1..][i - 1];
    }
  }
}
