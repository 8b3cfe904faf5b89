/** What becomes of an inbound frame, command by command and limit by limit. */
module AdmissionTheorems {
  import opened Common
  import opened Transactions
  import opened CanonicalKeys
  import opened Manager
  import opened FrameHandler
  import opened World

  /** The commands that change the device's state. */
  const CHANGING: set<string> := {"configure", "reboot", "factory", "leds", "upgrade", "certupdate", "reenroll",
      "script"}

  /** The commands that only ask. */
  const QUERIES: set<string> := {"ping", "trace", "telemetry", "rtty"}

  predicate FitsMethod(limits: Limits, f: Inbound) {
    && (f.command == "configure" ==> f.size <= limits.configure)
    && (f.command == "certupdate" ==> f.size <= limits.certupdate)
    && (f.command == "script" ==> f.size <= limits.script)
    && (f.command !in {"configure", "certupdate", "script"} ==> f.size <= limits.other)
  }

  /** A frame that asks for something this device does, now. */
  predicate Executable(limits: Limits, degraded: bool, f: Inbound) {
    && f.Request? && f.valid && f.paramsOk && !degraded
    && f.size <= limits.absolute && FitsMethod(limits, f)
    && (f.command in CHANGING + QUERIES)
    && (IsNotification(f.id) ==> f.command in {"ping", "trace", "telemetry"})
  }

  /** The handler's verdict, exactly. */
  lemma DecidesExactly(limits: Limits, degraded: bool, f: Inbound)
    ensures Decide(limits, degraded, f).Admit? <==> Executable(limits, degraded, f)
    ensures Executable(limits, degraded, f) ==>
              Decide(limits, degraded, f) == Admit(!IsNotification(f.id), f.command in CHANGING)
    ensures Decide(limits, degraded, f).Answer? <==>
            && f.size <= limits.absolute && !Executable(limits, degraded, f)
            && (!IsNotification(f.id) || (FitsMethod(limits, f) && (f.Garbage? || !f.valid)))
  {
  }

  /** The request is neither under way nor answered, and there is room for it. */
  predicate Admissible(s: Setup, w: World, f: Inbound) {
    && RequestKey(f.session, f.id).Some?
    && var key := RequestKey(f.session, f.id).value;
       && key !in w.mem.active
       && (key in w.mem.cache ==> w.mem.cache[key].expiresAt <= w.now)
       && |w.mem.live| < s.cfg.maxConcurrent
  }

  /** Frame `f` was answered with `text` on its own session and did nothing else. */
  predicate OnlyAnswered(w: World, v: World, f: Inbound, text: Bytes) {
    v == w.(mem := w.mem.(pushed := w.mem.pushed + [Push(FromFrame(w.frames), f.session, text)]), frames :=
        w.frames + 1)
  }

  predicate OnlyCounted(w: World, v: World) {
    v == w.(frames := w.frames + 1)
  }

  /** Frame `f` opened transaction `id`, whose executor is about to start. */
  predicate OnlyOpened(w: World, v: World, f: Inbound, id: Id) {
    f.Request? && RequestKey(f.session, f.id).Some? &&
    var key := RequestKey(f.session, f.id).value;
    && v.mem.live == w.mem.live[id := Tx(f.session, f.id, key, !IsNotification(f.id), f.command, Created, None, false,
                                         f.timeout, None, false, false)]
    && v.mem.active == (if IsNotification(f.id) then w.mem.active else w.mem.active[key := id])
    && v == w.(mem := w.mem.(live := v.mem.live, active := v.mem.active,
                             locked := v.mem.locked, holder := v.mem.holder, owner := v.mem.owner),
               exec := w.exec[id := Buffering], used := w.used + {id},
               frameOf := w.frameOf[id := w.frames], frames := w.frames + 1)
  }

  lemma CreateAdmissible(s: Setup, w: World, f: Inbound, id: Id)
    requires Executable(s.limits, false, f) && Admissible(s, w, f)
    ensures var (m, r) := CreateTransaction(s.cfg, w.now, w.mem, id, f.session, f.id, !IsNotification(f.id), f.command,
                                            f.timeout, f.command in CHANGING);
            var key := RequestKey(f.session, f.id).value;
            if f.command in CHANGING && w.mem.locked then m == w.mem && r == Err(StateLockBusy)
            else
              && r == Ok(id)
              && m == w.mem.(
                   live := w.mem.live[id :=
                       Tx(f.session, f.id, key, !IsNotification(f.id), f.command, Created, None, false,
                                               f.timeout, None, false, false)],
                   active := if IsNotification(f.id) then w.mem.active else w.mem.active[key := id],
                   locked := w.mem.locked || f.command in CHANGING,
                   holder := if f.command in CHANGING then Some(id) else w.mem.holder,
                   owner := if f.command in CHANGING then OwnedByRPC else w.mem.owner)
  {
    hide CanonicalKey;
  }

  /**
   * A state-changing command with an id, otherwise acceptable, is answered with a refusal while the state lock
   * is held, and opens a transaction that holds the lock when it is free.
   */
  lemma ChangingFrame(s: Setup, w: World, f: Inbound, id: Id, text: Bytes)
    requires Executable(s.limits, false, f) && Admissible(s, w, f) && f.command in CHANGING
    ensures var v := ReceiveFrame(s, w, f, false, id, text);
            if w.mem.locked then OnlyAnswered(w, v, f, text)
            else OnlyOpened(w, v, f, id) && v.mem.locked && v.mem.holder == Some(id) && v.mem.owner == OwnedByRPC
    ensures w.mem.locked ==>
              CreateTransaction(s.cfg, w.now, w.mem, id, f.session, f.id, true, f.command, f.timeout, true).1 ==
              Err(StateLockBusy)
  {
    hide Decide, CreateTransaction, Executable, Admissible, RequestKey;
    DecidesExactly(s.limits, false, f);
    CreateAdmissible(s, w, f, id);
    HasKey(s, w, f);
    ExecutableWithId(s.limits, f);
  }

  lemma HasKey(s: Setup, w: World, f: Inbound)
    requires Admissible(s, w, f)
    ensures RequestKey(f.session, f.id).Some?
  {
  }

  lemma ExecutableWithId(limits: Limits, f: Inbound)
    requires Executable(limits, false, f)
    ensures f.Request? && (f.command in CHANGING ==> !IsNotification(f.id))
  {
  }

  /** A query is admitted whoever holds the state lock, and leaves the lock alone. */
  lemma QueryFrame(s: Setup, w: World, f: Inbound, id: Id, text: Bytes)
    requires Executable(s.limits, false, f) && Admissible(s, w, f) && f.command in QUERIES
    ensures var v := ReceiveFrame(s, w, f, false, id, text);
            && OnlyOpened(w, v, f, id)
            && v.mem.locked == w.mem.locked && v.mem.holder == w.mem.holder && v.mem.owner == w.mem.owner
  {
    hide Decide, CreateTransaction, Executable, Admissible, RequestKey;
    DecidesExactly(s.limits, false, f);
    CreateAdmissible(s, w, f, id);
    HasKey(s, w, f);
    ExecutableWithId(s.limits, f);
  }

  lemma CreateRefused(s: Setup, w: World, f: Inbound, id: Id)
    requires Executable(s.limits, false, f) && !IsNotification(f.id) && !Admissible(s, w, f)
    ensures var (m, r) := CreateTransaction(s.cfg, w.now, w.mem, id, f.session, f.id, true, f.command, f.timeout,
                                            f.command in CHANGING);
            var key := RequestKey(f.session, f.id);
            && m == w.mem && r.Err?
            && (if key.Some? && key.value in w.mem.cache && w.now < w.mem.cache[key.value].expiresAt
                then r.error == CachedResponse(w.mem.cache[key.value].payload)
                else !r.error.CachedResponse?)
            && (key.Some? && key.value !in w.mem.cache && key.value in w.mem.active ==> r.error == DuplicateRequest)
            && (key.Some? && key.value !in w.mem.cache && key.value !in w.mem.active ==> r.error == CapacityExceeded)
  {
    hide CanonicalKey;
  }

  /**
   * A request that is not admissible is answered and does nothing else: with the cached response while one is
   * fresh, else with the handler's refusal.
   */
  lemma RefusedFrame(s: Setup, w: World, f: Inbound, id: Id, text: Bytes)
    requires Executable(s.limits, false, f) && !IsNotification(f.id) && !Admissible(s, w, f)
    ensures var key := RequestKey(f.session, f.id);
            OnlyAnswered(w, ReceiveFrame(s, w, f, false, id, text), f,
                         if key.Some? && key.value in w.mem.cache && w.now < w.mem.cache[key.value].expiresAt
                         then w.mem.cache[key.value].payload else text)
  {
    hide Decide, CreateTransaction, Executable, Admissible, RequestKey;
    DecidesExactly(s.limits, false, f);
    CreateRefused(s, w, f, id);
    ExecutableWithId(s.limits, f);
  }

  /** A frame that cannot be executed is answered, or dropped if it is too large or a mere notification. */
  lemma UnexecutableFrame(s: Setup, w: World, f: Inbound, degraded: bool, id: Id, text: Bytes)
    requires !Executable(s.limits, degraded, f)
    ensures var v := ReceiveFrame(s, w, f, degraded, id, text);
            if f.size <= s.limits.absolute &&
                (!IsNotification(f.id) || (FitsMethod(s.limits, f) && (f.Garbage? || !f.valid)))
            then OnlyAnswered(w, v, f, text) else OnlyCounted(w, v)
  {
    hide Decide, Executable;
    DecidesExactly(s.limits, degraded, f);
  }

  /** Every frame with an id that is not over the absolute limit is answered on arrival or opens a transaction. */
  lemma FrameIsTaken(s: Setup, w: World, f: Inbound, degraded: bool, id: Id, text: Bytes)
    requires f.size <= s.limits.absolute && !IsNotification(f.id)
    ensures var v := ReceiveFrame(s, w, f, degraded, id, text);
            OnlyOpened(w, v, f, id) || exists answer :: OnlyAnswered(w, v, f, answer)
  {
    hide ReceiveFrame, Executable, Admissible, OnlyOpened, OnlyAnswered;
    if !Executable(s.limits, degraded, f) {
      UnexecutableFrame(s, w, f, degraded, id, text);
    } else {
      NotDegraded(s.limits, degraded, f);
      if !Admissible(s, w, f) {
        RefusedFrame(s, w, f, id, text);
      } else if f.command in CHANGING {
        ChangingFrame(s, w, f, id, text);
      } else {
        QueryFrame(s, w, f, id, text);
      }
    }
  }

  lemma NotDegraded(limits: Limits, degraded: bool, f: Inbound)
    requires Executable(limits, degraded, f)
    ensures !degraded && f.Request? && (f.command in CHANGING || f.command in QUERIES)
  {
  }
}
