/**
 * The disk-backed operation store: pkg/reqmgr/disk_store.go. A directory is a map from file names
 * to entries; a rename or a removal is one update of that map, and the JSON codec is a parameter.
 */
module DiskStore {
  import opened Common
  import opened Decimal
  import opened OperationStore

  /** The fields of a stored operation that matter; `updatedAt` is None when its text is not a time. */
  datatype Doc = Doc(op: string, rpc: Id, boot: string, updatedAt: Option<Time>, active: bool)

  /** JSON texts of documents, and UUID texts of identifiers. */
  datatype Codec = Codec(parse: Bytes -> Option<Doc>, render: Doc -> Bytes, number: string -> Option<Id>,
      text: Id -> string)

  ghost predicate Faithful(c: Codec) {
    && (forall d: Doc :: c.parse(c.render(d)) == Some(d))
    && (forall id: Id :: c.number(c.text(id)) == Some(id))
    && (forall s: string :: c.number(s).Some? ==> c.text(c.number(s).value) == s)
  }

  datatype Entry = Folder | File(readable: bool, data: Bytes)

  function FileName(op: string): string { op + ".json" }

  predicate HasSuffix(name: string, suffix: string) {
    |suffix| <= |name| && name[|name| - |suffix|..] == suffix
  }

  /** A file GetActive looks into. */
  predicate Candidate(name: string, e: Entry) {
    e.File? && e.readable && HasSuffix(name, ".json")
  }

  /** A candidate that holds the record its name promises, with a readable time. */
  predicate WellFormed(c: Codec, name: string, e: Entry) {
    && Candidate(name, e)
    && c.parse(e.data).Some?
    && var doc := c.parse(e.data).value;
       && c.number(doc.op).Some?
       && name == FileName(doc.op)
       && doc.updatedAt.Some?
  }

  predicate Corrupt(c: Codec, name: string, e: Entry) {
    Candidate(name, e) && !WellFormed(c, name, e)
  }

  function RecordIn(c: Codec, name: string, e: Entry): (r: Rec)
    requires WellFormed(c, name, e)
    ensures r.updatedAt.Some?
  {
    var doc := c.parse(e.data).value;
    Rec(c.number(doc.op).value, doc.rpc, doc.boot, doc.updatedAt, doc.active)
  }

  /** The directory holds a record of operation `op`. */
  predicate Holds(c: Codec, files: map<string, Entry>, op: Id) {
    var n := FileName(c.text(op));
    n in files && WellFormed(c, n, files[n])
  }

  function RecordOf(c: Codec, files: map<string, Entry>, op: Id): Rec
    requires Holds(c, files, op)
  {
    RecordIn(c, FileName(c.text(op)), files[FileName(c.text(op))])
  }

  /** A well-formed file is named after the operation it records. */
  lemma NamedAfter(c: Codec, files: map<string, Entry>, n: string)
    requires Faithful(c) && n in files && WellFormed(c, n, files[n])
    ensures var r := RecordIn(c, n, files[n]);
              n == FileName(c.text(r.op)) && Holds(c, files, r.op) && RecordOf(c, files, r.op) == r
  {
  }

  lemma NameOf(c: Codec, files: map<string, Entry>, op: Id)
    requires Faithful(c) && Holds(c, files, op)
    ensures RecordOf(c, files, op).op == op
  {
    var n := FileName(c.text(op));
    var doc := c.parse(files[n].data).value;
    assert |doc.op| == |c.text(op)| && doc.op == n[..|doc.op|] && c.text(op) == n[..|doc.op|];
  }

  /** The records a directory holds, by operation. */
  ghost function RecordsOf(c: Codec, files: map<string, Entry>): (m: map<Id, Rec>)
    ensures forall op :: op in m ==> Holds(c, files, op) && m[op] == RecordOf(c, files, op)
    ensures Faithful(c) ==> forall op :: Holds(c, files, op) ==> op in m
  {
    var ops := set n | n in files && WellFormed(c, n, files[n]) :: RecordIn(c, n, files[n]).op;
    assert Faithful(c) ==> forall op :: Holds(c, files, op) ==> op in ops by {
      forall op | Faithful(c) && Holds(c, files, op) ensures op in ops {
        NameOf(c, files, op);
        assert RecordIn(c, FileName(c.text(op)), files[FileName(c.text(op))]).op in ops;
      }
    }
    map op | op in ops && Holds(c, files, op) :: RecordOf(c, files, op)
  }

  /** The records depend on the well-formed files only. */
  lemma RecordsSame(c: Codec, a: map<string, Entry>, b: map<string, Entry>)
    requires Faithful(c)
    requires forall n :: n in a && WellFormed(c, n, a[n]) ==> n in b && b[n] == a[n]
    requires forall n :: n in b && WellFormed(c, n, b[n]) ==> n in a && a[n] == b[n]
    ensures RecordsOf(c, a) == RecordsOf(c, b)
  {
    hide WellFormed, RecordIn, FileName, Faithful;
    forall op ensures Holds(c, a, op) <==> Holds(c, b, op)
      ensures Holds(c, a, op) ==> RecordOf(c, a, op) == RecordOf(c, b, op)
    {
      var n := FileName(c.text(op));
    }
    var ra, rb := RecordsOf(c, a), RecordsOf(c, b);
    assert forall op :: op in ra <==> op in rb;
  }

  // ----- newest first -----

  ghost predicate NewestFirst(ops: seq<Rec>) {
    forall i, j :: 0 <= i < j < |ops| ==> Age(ops[i]) >= Age(ops[j])
  }

  ghost predicate Distinct(ops: seq<Rec>) {
    forall i, j :: 0 <= i < j < |ops| ==> ops[i].op != ops[j].op
  }

  function Insert(rec: Rec, ops: seq<Rec>): (r: seq<Rec>)
    ensures multiset(r) == multiset(ops) + multiset{rec}
  {
    if ops == [] || Age(rec) >= Age(ops[0]) then [rec] + ops
    else
      assert ops == [ops[0]] + ops[1..];
      [ops[0]] + Insert(rec, ops[1..])
  }

  lemma {:induction false} InsertSorts(rec: Rec, ops: seq<Rec>)
    requires NewestFirst(ops)
    ensures NewestFirst(Insert(rec, ops))
  {
    if ops != [] && Age(rec) < Age(ops[0]) {
      InsertSorts(rec, ops[1..]);
      var r := Insert(rec, ops[1..]);
      forall i | 0 <= i < |r| ensures Age(ops[0]) >= Age(r[i]) {
        assert r[i] in multiset(r);
        assert r[i] == rec || r[i] in multiset(ops[1..]);
      }
    }
  }

  function SortNewest(ops: seq<Rec>): (r: seq<Rec>)
    ensures multiset(r) == multiset(ops)
    ensures NewestFirst(r)
  {
    if ops == [] then []
    else
      assert ops == [ops[0]] + ops[1..];
      InsertSorts(ops[0], SortNewest(ops[1..]));
      Insert(ops[0], SortNewest(ops[1..]))
  }

  /** Distinctness is a property of the multiset: every operation occurs at most once. */
  lemma {:induction false} DistinctByCount(ops: seq<Rec>, more: seq<Rec>)
    requires multiset(ops) == multiset(more) && Distinct(ops)
    ensures Distinct(more)
  {
    forall i, j | 0 <= i < j < |more| ensures more[i].op != more[j].op {
      if more[i].op == more[j].op {
        assert more[i] in multiset(ops) && more[j] in multiset(ops);
        var a :| 0 <= a < |ops| && ops[a] == more[i];
        var b :| 0 <= b < |ops| && ops[b] == more[j];
        assert a == b;
        CountAtLeastTwo(more, i, j);
        CountAtMostOne(ops, a);
      }
    }
  }

  lemma CountAtLeastTwo(s: seq<Rec>, i: nat, j: nat)
    requires i < j < |s| && s[i] == s[j]
    ensures multiset(s)[s[i]] >= 2
  {
    assert s == s[..i] + [s[i]] + s[i + 1..j] + [s[j]] + s[j + 1..];
  }

  lemma CountAtMostOne(s: seq<Rec>, i: nat)
    requires i < |s| && Distinct(s)
    ensures multiset(s)[s[i]] == 1
  {
    assert s == s[..i] + [s[i]] + s[i + 1..];
    assert s[i] !in s[..i] && s[i] !in s[i + 1..];
  }

  /** The `limit` newest of exactly the active records, all of them when `limit` is not positive. */
  function Take(ops: seq<Rec>, limit: int): seq<Rec> {
    if 0 < limit < |ops| then ops[..limit] else ops
  }

  lemma TakeAnswers(store: map<Id, Rec>, limit: int, ops: seq<Rec>)
    requires NewestFirst(ops) && Distinct(ops)
    requires forall i :: 0 <= i < |ops| ==> ops[i].op in store && store[ops[i].op] == ops[i] && ops[i].active
    requires forall op :: op in store && store[op].active ==> store[op] in ops
    ensures ActiveQuery(store, limit, Take(ops, limit))
  {
    var r := Take(ops, limit);
    forall op | LeftOut(store, r, op)
      ensures 0 < limit == |r|
      ensures forall i :: 0 <= i < |r| ==> Age(r[i]) >= Age(store[op])
    {
      var k :| 0 <= k < |ops| && ops[k] == store[op];
      assert forall i :: 0 <= i < |r| ==> r[i] == ops[i] && r[i] != store[op];
    }
  }

  // ----- contents -----

  ghost function AnyName(names: set<string>): (n: string)
    requires names != {}
    ensures n in names
  {
    var n :| n in names; n
  }

  /** All entries of a directory, as a bag. */
  ghost function Contents(files: map<string, Entry>): multiset<Entry> {
    if files == map[] then multiset{}
    else
      var n := AnyName(files.Keys);
      Contents(files - {n}) + multiset{files[n]}
  }

  lemma {:induction false} ContentsWithout(files: map<string, Entry>, n: string)
    requires n in files
    ensures Contents(files) == Contents(files - {n}) + multiset{files[n]}
    decreases |files|
  {
    hide Contents, AnyName;
    var k := AnyName(files.Keys);
    ContentsUnfold(files);
    if k != n {
      var a, b := files - {k}, files - {n};
      assert a.Keys == files.Keys - {k} && b.Keys == files.Keys - {n};
      ContentsWithout(a, n);
      ContentsWithout(b, k);
      assert a - {n} == b - {k};
    }
  }

  lemma ContentsUnfold(files: map<string, Entry>)
    requires files != map[]
    ensures Contents(files) == Contents(files - {AnyName(files.Keys)}) + multiset{files[AnyName(files.Keys)]}
  {
  }

  lemma ContentsWith(files: map<string, Entry>, n: string, e: Entry)
    requires n !in files
    ensures Contents(files[n := e]) == Contents(files) + multiset{e}
  {
    hide Contents;
    ContentsWithout(files[n := e], n);
    assert files[n := e] - {n} == files;
  }

  lemma MoveConserves(files: map<string, Entry>, quarantine: map<string, Entry>, name: string, target: string)
    requires name in files
    ensures target !in quarantine ==>
              Contents(files - {name}) + Contents(quarantine[target := files[name]]) ==
                  Contents(files) + Contents(quarantine)
  {
    hide Contents;
    ContentsWithout(files, name);
    if target !in quarantine { ContentsWith(quarantine, target, files[name]); }
  }

  // ----- the store -----

  /** Where a corrupt file goes: its name, the time in nanoseconds, and a suffix. */
  function Target(name: string, stamp: nat): string {
    name + "." + PrintNat(stamp) + ".corrupt"
  }

  lemma TargetIsInjective(a: string, b: string, stamp: nat)
    ensures Target(a, stamp) == Target(b, stamp) ==> a == b
  {
    var tail := "." + PrintNat(stamp) + ".corrupt";
    assert Target(a, stamp) == a + tail && Target(b, stamp) == b + tail;
    if Target(a, stamp) == Target(b, stamp) {
      assert |a| == |b|;
      assert a == (a + tail)[..|a|] && b == (b + tail)[..|b|];
    }
  }

  /** The records after `rec` was written; one whose time is unreadable only displaces the old record. */
  function Updated(records: map<Id, Rec>, rec: Rec): map<Id, Rec> {
    if rec.updatedAt.Some? then records[rec.op := rec] else records - {rec.op}
  }

  /** What a store call that failed left behind: a failing Save or Delete may have taken effect. */
  datatype Fate = Succeeds | FailsAfter | FailsBefore

  class DiskOperationStore {
    const codec: Codec
    var files: map<string, Entry>
    var quarantine: map<string, Entry>

    constructor (codec: Codec)
      ensures this.codec == codec && files == map["quarantine" := Folder] && quarantine == map[]
    {
      this.codec := codec;
      files := map["quarantine" := Folder];
      quarantine := map[];
    }

    ghost function Records(): map<Id, Rec>
      reads this
    {
      RecordsOf(codec, files)
    }

    method Save(rec: Rec, fate: Fate) returns (ok: bool)
      requires Faithful(codec)
      modifies this`files
      ensures ok == fate.Succeeds?
      ensures Records() == if fate.FailsBefore? then old(Records()) else Updated(old(Records()), rec)
      ensures forall n :: n != FileName(codec.text(rec.op)) ==>
                (n in files <==> n in old(files)) && (n in files ==> files[n] == old(files)[n])
    {
      var name := FileName(codec.text(rec.op));
      var doc := Doc(codec.text(rec.op), rec.rpc, rec.boot, rec.updatedAt, rec.active);
      if !fate.FailsBefore? {
        files := files[name := File(true, codec.render(doc))];
        SavedRecords(codec, old(files), rec);
      }
      ok := fate.Succeeds?;
    }

    /** An absent file is None; unlike GetActive, neither the file name nor the time is checked. */
    method Get(op: Id) returns (r: Result<Option<Doc>, ()>)
      ensures FileName(codec.text(op)) !in files <==> r == Ok(None)
      ensures Faithful(codec) && op in Records() ==>
                r == Ok(Some(Doc(codec.text(op), Records()[op].rpc, Records()[op].boot, Records()[op].updatedAt,
                    Records()[op].active)))
    {
      var name := FileName(codec.text(op));
      if name !in files { return Ok(None); }
      var e := files[name];
      if !e.File? || !e.readable { return Err(()); }
      var doc := codec.parse(e.data);
      if doc.None? { return Err(()); }
      SameDoc(codec, files, op);
      return Ok(doc);
    }

    method Delete(op: Id, fate: Fate) returns (ok: bool)
      requires Faithful(codec)
      modifies this`files
      ensures ok == fate.Succeeds?
      ensures Records() == if fate.FailsBefore? then old(Records()) else old(Records()) - {op}
      ensures files == if fate.FailsBefore? then old(files) else old(files) - {FileName(codec.text(op))}
    {
      if !fate.FailsBefore? {
        files := files - {FileName(codec.text(op))};
        DeletedRecords(codec, old(files), op);
      }
      ok := fate.Succeeds?;
    }

    /**
     * Move a corrupt file away at time `stamp`, over whatever was there; `stuck` names cannot be renamed.
     * The bag of all entries stays the same unless that overwrites an older quarantined file.
     */
    method QuarantinePath(name: string, stamp: nat, stuck: set<string>)
      requires name in files
      modifies this
      ensures name in stuck ==> files == old(files) && quarantine == old(quarantine)
      ensures name !in stuck ==>
                name !in files && Target(name, stamp) in quarantine &&
                    quarantine[Target(name, stamp)] == old(files)[name]
      ensures forall n :: n != name ==> (n in files <==> n in old(files)) && (n in files ==> files[n] == old(files)[n])
      ensures forall t :: t in old(quarantine) && t != Target(name, stamp) ==>
                t in quarantine && quarantine[t] == old(quarantine)[t]
      ensures Target(name, stamp) !in old(quarantine) ==>
                Contents(files) + Contents(quarantine) == Contents(old(files)) + Contents(old(quarantine))
      ensures (files, quarantine) == Moved(old(files), old(quarantine), name, stamp, stuck)
    {
      hide Contents, Target;
      if name !in stuck {
        MoveConserves(files, quarantine, name, Target(name, stamp));
        quarantine := quarantine[Target(name, stamp) := files[name]];
        files := files - {name};
      }
    }

    /**
     * GetActive. The context stays valid for `alive` directory entries; None when it ended first.
     * `stamp` is the clock reading that names quarantined files and `stuck` the names that cannot be renamed.
     */
    method GetActive(limit: int, alive: nat, stamp: nat, stuck: set<string>) returns (r: Option<seq<Rec>>)
      requires Faithful(codec)
      modifies this
      ensures r.Some? <==> |old(files)| <= alive
      ensures r.Some? ==> ActiveQuery(old(Records()), limit, r.value)
      ensures Records() == old(Records())
      ensures r.Some? ==> Tidied(codec, old(files), files, {}, stuck)
      ensures r.None? ==> exists todo :: Tidied(codec, old(files), files, todo, stuck)
      ensures FreeTargets(old(files).Keys, old(quarantine), stamp) ==>
                Kept(old(files), old(quarantine), files, quarantine, stamp)
    {
      hide Faithful, WellFormed, Candidate, RecordIn, RecordsOf, FileName, Target, Tidied, Gathered, Kept,
          FreeTargets, Moved, ActiveQuery;
      var todo, left, ops := files.Keys, alive, [];
      StartTidy(codec, files, quarantine, stamp, stuck);
      while todo != {}
        invariant todo <= files.Keys && todo <= old(files).Keys
        invariant 0 <= left && left + (|old(files)| - |todo|) == alive
        invariant Tidied(codec, old(files), files, todo, stuck)
        invariant FreeTargets(old(files).Keys, old(quarantine), stamp) ==>
                    FreeTargets(todo, quarantine, stamp) && Kept(old(files), old(quarantine), files, quarantine, stamp)
        invariant Gathered(codec, old(files), todo, ops)
        decreases |todo|
      {
        if left == 0 {
          TidyKeepsRecords(codec, old(files), files, todo, stuck);
          return None;
        }
        left := left - 1;
        var n :| n in todo;
        var e := files[n];
        TidyOne(codec, old(files), old(quarantine), files, quarantine, todo, n, stamp, stuck);
        GatherOne(codec, old(files), todo, ops, n);
        todo := todo - {n};
        if Corrupt(codec, n, e) {
          QuarantinePath(n, stamp, stuck);
        } else if WellFormed(codec, n, e) && RecordIn(codec, n, e).active {
          ops := ops + [RecordIn(codec, n, e)];
        }
      }
      TidyKeepsRecords(codec, old(files), files, todo, stuck);
      GatheredAll(codec, old(files), limit, ops);
      return Some(Take(SortNewest(ops), limit));
    }
  }

  function Moved(files: map<string, Entry>, quarantine: map<string, Entry>, name: string, stamp: nat,
                 stuck: set<string>)
    : (map<string, Entry>, map<string, Entry>)
    requires name in files
  {
    if name in stuck then (files, quarantine)
    else (files - {name}, quarantine[Target(name, stamp) := files[name]])
  }

  /** Exactly the corrupt files outside `todo` that could be renamed are gone. */
  ghost predicate Tidied(c: Codec, was: map<string, Entry>, files: map<string, Entry>, todo: set<string>,
                         stuck: set<string>) {
    && (forall n :: n in files ==> n in was && files[n] == was[n])
    && (forall n :: n in was ==> (n !in files <==> n !in todo && n !in stuck && Corrupt(c, n, was[n])))
  }

  /** No file would be quarantined over an older one. */
  ghost predicate FreeTargets(names: set<string>, quarantine: map<string, Entry>, stamp: nat) {
    forall n :: n in names ==> Target(n, stamp) !in quarantine
  }

  /** What left the directory is in quarantine, nothing there was lost, and no entry appeared from nowhere. */
  ghost predicate Kept(was: map<string, Entry>, wasQ: map<string, Entry>, files: map<string, Entry>,
                       quarantine: map<string, Entry>, stamp: nat) {
    && (forall n :: n in was && n !in files ==>
         Target(n, stamp) in quarantine && quarantine[Target(n, stamp)] == was[n])
    && (forall t :: t in wasQ ==> t in quarantine && quarantine[t] == wasQ[t])
    && Contents(files) + Contents(quarantine) == Contents(was) + Contents(wasQ)
  }

  lemma StartTidy(c: Codec, files: map<string, Entry>, quarantine: map<string, Entry>, stamp: nat, stuck: set<string>)
    ensures Tidied(c, files, files, files.Keys, stuck) && Kept(files, quarantine, files, quarantine, stamp)
    ensures Gathered(c, files, files.Keys, [])
  {
  }

  lemma TidyOne(c: Codec, was: map<string, Entry>, wasQ: map<string, Entry>, files: map<string, Entry>,
                quarantine: map<string, Entry>,
                todo: set<string>, n: string, stamp: nat, stuck: set<string>)
    requires Tidied(c, was, files, todo, stuck) && n in todo && n in was && todo <= was.Keys
    ensures n in files && files[n] == was[n]
    ensures var after := if Corrupt(c, n, was[n]) then Moved(files, quarantine, n, stamp, stuck)
              else (files, quarantine);
            && Tidied(c, was, after.0, todo - {n}, stuck)
            && todo - {n} <= after.0.Keys
            && (FreeTargets(todo, quarantine, stamp) && Kept(was, wasQ, files, quarantine, stamp) ==>
                  FreeTargets(todo - {n}, after.1, stamp) && Kept(was, wasQ, after.0, after.1, stamp))
  {
    hide Corrupt, Kept, FreeTargets;
    if FreeTargets(todo, quarantine, stamp) && Kept(was, wasQ, files, quarantine, stamp) {
      MoveKeeps(was, wasQ, files, quarantine, todo, n, stamp, stuck);
      FreeRest(todo, quarantine, n, stamp);
    }
  }

  lemma FreeRest(todo: set<string>, quarantine: map<string, Entry>, n: string, stamp: nat)
    requires FreeTargets(todo, quarantine, stamp)
    ensures FreeTargets(todo - {n}, quarantine, stamp)
  {
    hide Target;
  }

  lemma MoveKeeps(was: map<string, Entry>, wasQ: map<string, Entry>, files: map<string, Entry>,
                  quarantine: map<string, Entry>,
                  todo: set<string>, n: string, stamp: nat, stuck: set<string>)
    requires FreeTargets(todo, quarantine, stamp) && Kept(was, wasQ, files, quarantine, stamp)
    requires n in todo && n in files && n in was && files[n] == was[n]
    ensures var after := Moved(files, quarantine, n, stamp, stuck);
            FreeTargets(todo - {n}, after.1, stamp) && Kept(was, wasQ, after.0, after.1, stamp)
  {
    hide Contents, Target;
    assert Target(n, stamp) !in quarantine;
    forall k ensures k != n ==> Target(k, stamp) != Target(n, stamp) { TargetIsInjective(k, n, stamp); }
    MoveConserves(files, quarantine, n, Target(n, stamp));
  }

  /** Well-formed files never leave, so the records are the same. */
  lemma TidyKeepsRecords(c: Codec, was: map<string, Entry>, files: map<string, Entry>, todo: set<string>,
                         stuck: set<string>)
    requires Faithful(c) && Tidied(c, was, files, todo, stuck)
    ensures RecordsOf(c, was) == RecordsOf(c, files)
  {
    hide WellFormed, RecordsOf, Faithful;
    RecordsSame(c, was, files);
  }

  /** `ops` holds exactly the active records of the files outside `todo`, each once. */
  ghost predicate Gathered(c: Codec, files: map<string, Entry>, todo: set<string>, ops: seq<Rec>) {
    && Distinct(ops)
    && (forall i :: 0 <= i < |ops| ==>
          && Holds(c, files, ops[i].op) && FileName(c.text(ops[i].op)) !in todo
          && ops[i] == RecordOf(c, files, ops[i].op) && ops[i].active)
    && (forall n :: n in files && n !in todo && WellFormed(c, n, files[n]) && RecordIn(c, n, files[n]).active ==>
          RecordIn(c, n, files[n]) in ops)
  }

  lemma GatherOne(c: Codec, files: map<string, Entry>, todo: set<string>, ops: seq<Rec>, n: string)
    requires Faithful(c) && Gathered(c, files, todo, ops) && n in todo && n in files
    ensures if WellFormed(c, n, files[n]) && RecordIn(c, n, files[n]).active
            then Gathered(c, files, todo - {n}, ops + [RecordIn(c, n, files[n])])
            else Gathered(c, files, todo - {n}, ops)
  {
    hide WellFormed, RecordIn, FileName, Faithful;
    if WellFormed(c, n, files[n]) && RecordIn(c, n, files[n]).active {
      NamedAfter(c, files, n);
      var more := ops + [RecordIn(c, n, files[n])];
      assert more[|ops|] in more;
      assert forall r :: r in ops ==> r in more;
    }
  }

  lemma GatheredAll(c: Codec, files: map<string, Entry>, limit: int, ops: seq<Rec>)
    requires Faithful(c) && Gathered(c, files, {}, ops)
    ensures ActiveQuery(RecordsOf(c, files), limit, Take(SortNewest(ops), limit))
  {
    hide WellFormed, RecordIn, FileName, ActiveQuery, Take;
    var store := RecordsOf(c, files);
    var sorted := SortNewest(ops);
    DistinctByCount(ops, sorted);
    forall i | 0 <= i < |sorted|
      ensures sorted[i].op in store && store[sorted[i].op] == sorted[i] && sorted[i].active
    {
      assert sorted[i] in multiset(ops);
    }
    forall op | op in store && store[op].active ensures store[op] in sorted {
      assert store[op] in multiset(ops);
    }
    TakeAnswers(store, limit, sorted);
  }

  lemma SavedRecords(c: Codec, files: map<string, Entry>, rec: Rec)
    requires Faithful(c)
    ensures var doc := Doc(c.text(rec.op), rec.rpc, rec.boot, rec.updatedAt, rec.active);
            RecordsOf(c, files[FileName(doc.op) := File(true, c.render(doc))]) == Updated(RecordsOf(c, files), rec)
  {
    hide WellFormed, RecordIn, FileName, Faithful;
    var doc := Doc(c.text(rec.op), rec.rpc, rec.boot, rec.updatedAt, rec.active);
    SavedIsWellFormed(c, rec, doc);
    var name := FileName(doc.op);
    var after := files[name := File(true, c.render(doc))];
    SameOthers(c, files, after, rec.op);
    assert rec.op in RecordsOf(c, after) <==> Holds(c, after, rec.op);
  }

  lemma SavedIsWellFormed(c: Codec, rec: Rec, doc: Doc)
    requires Faithful(c) && doc == Doc(c.text(rec.op), rec.rpc, rec.boot, rec.updatedAt, rec.active)
    ensures WellFormed(c, FileName(doc.op), File(true, c.render(doc))) <==> rec.updatedAt.Some?
    ensures rec.updatedAt.Some? ==> RecordIn(c, FileName(doc.op), File(true, c.render(doc))) == rec
  {
  }

  lemma DeletedRecords(c: Codec, files: map<string, Entry>, op: Id)
    requires Faithful(c)
    ensures RecordsOf(c, files - {FileName(c.text(op))}) == RecordsOf(c, files) - {op}
  {
    hide WellFormed, RecordIn, FileName, Faithful;
    SameOthers(c, files, files - {FileName(c.text(op))}, op);
  }

  /** Changing the file of one operation leaves the records of all others. */
  lemma SameOthers(c: Codec, a: map<string, Entry>, b: map<string, Entry>, op: Id)
    requires Faithful(c) && (forall n :: n != FileName(c.text(op)) ==>
               (n in a <==> n in b) && (n in a ==> a[n] == b[n]))
    ensures RecordsOf(c, a) - {op} == RecordsOf(c, b) - {op}
    ensures forall k :: k != op ==> (k in RecordsOf(c, a) <==> k in RecordsOf(c, b))
    ensures forall k :: k != op && k in RecordsOf(c, a) ==> RecordsOf(c, a)[k] == RecordsOf(c, b)[k]
  {
    hide WellFormed, RecordIn, FileName, Faithful;
    forall k | k != op ensures Holds(c, a, k) <==> Holds(c, b, k)
      ensures Holds(c, a, k) ==> RecordOf(c, a, k) == RecordOf(c, b, k)
    {
      NamesDiffer(c, k, op);
    }
    assert forall k :: k != op ==> (k in RecordsOf(c, a) <==> k in RecordsOf(c, b));
  }

  lemma NamesDiffer(c: Codec, a: Id, b: Id)
    requires Faithful(c)
    ensures FileName(c.text(a)) == FileName(c.text(b)) ==> a == b
  {
    var x, y := c.text(a), c.text(b);
    if FileName(x) == FileName(y) {
      assert |x| == |y|;
      assert x == FileName(x)[..|x|] && y == FileName(y)[..|y|];
      assert c.number(x) == c.number(y);
    }
  }

  lemma SameDoc(c: Codec, files: map<string, Entry>, op: Id)
    ensures Faithful(c) && op in RecordsOf(c, files) ==>
              var n := FileName(c.text(op));
              var r := RecordsOf(c, files)[op];
              n in files && files[n].File? &&
                  c.parse(files[n].data) == Some(Doc(c.text(op), r.rpc, r.boot, r.updatedAt, r.active))
  {
    if Faithful(c) && op in RecordsOf(c, files) { NameOf(c, files, op); }
  }
}
