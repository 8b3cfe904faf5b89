/** Canonical request keys: pkg/reqmgr/manager.go, CanonicalRequestKey. */
module CanonicalKeys {
  import opened Common
  import opened Decimal
  import opened Rational

  const MAX_ID_BYTES: nat := 256

  /**
   * A raw JSON-RPC id as the JSON decoder reports it, with its length in bytes. Unusable covers
   * malformed text, trailing content, other JSON kinds and numbers math/big refuses.
   */
  datatype RawId =
    | Absent
    | Null
    | Text(value: string, size: nat)
    | Numeric(number: Number, size: nat)
    | Unusable(size: nat)

  predicate IsNotification(raw: RawId) {
    raw.Absent? || raw.Null?
  }

  function CanonicalKey(session: string, raw: RawId): (key: Option<string>)
    ensures key.Some? ==> (key.value == "" <==> IsNotification(raw))
  {
    match raw
    case Absent => Some("")
    case Null => Some("")
    case Text(value, size) =>
      if size > MAX_ID_BYTES then None else Some(session + ":s:" + value)
    case Numeric(number, size) =>
      if size > MAX_ID_BYTES then None else Some(session + ":n:" + RatString(Reduce(Value(number))))
    case Unusable(_) => None
  }

  ghost predicate ColonFree(s: string) {
    forall i :: 0 <= i < |s| ==> s[i] != ':'
  }

  /** Two ids of one session name the same request: same kind and same decoded text or exact number. */
  ghost predicate SameId(a: RawId, b: RawId) {
    || (a.Text? && b.Text? && a.value == b.value)
    || (a.Numeric? && b.Numeric? && SameValue(Value(a.number), Value(b.number)))
  }

  /** The session identifier of a connection: fmt.Sprintf("sess-%d", generation). */
  function SessionName(generation: nat): string {
    "sess-" + PrintNat(generation)
  }

  lemma TaggedKeyParts(s1: string, t1: char, v1: string, s2: string, t2: char, v2: string)
    requires ColonFree(s1) && ColonFree(s2)
    requires s1 + ":" + [t1] + ":" + v1 == s2 + ":" + [t2] + ":" + v2
    ensures s1 == s2 && t1 == t2 && v1 == v2
  {
    var key := s1 + ":" + [t1] + ":" + v1;
    assert key[|s1|] == ':' && key[|s2|] == ':';
    assert forall i :: 0 <= i < |s1| ==> key[i] == s1[i];
    assert forall i :: 0 <= i < |s2| ==> key[i] == s2[i];
    assert |s1| == |s2|;
    assert s1 == key[..|s1|] == s2;
    assert key[|s1| + 1] == t1 == t2;
    assert v1 == key[|s1| + 3..] == v2;
  }

  ghost function Tag(raw: RawId): char {
    if raw.Text? then 's' else 'n'
  }

  ghost function Body(raw: RawId): string
    requires raw.Text? || raw.Numeric?
  {
    if raw.Text? then raw.value else RatString(Reduce(Value(raw.number)))
  }

  lemma KeyShape(session: string, raw: RawId)
    requires raw.Text? || raw.Numeric?
    requires CanonicalKey(session, raw).Some?
    ensures CanonicalKey(session, raw).value == session + ":" + [Tag(raw)] + ":" + Body(raw)
  {
    assert ":s:" == ":" + ['s'] + ":" && ":n:" == ":" + ['n'] + ":";
    assert session + (":" + [Tag(raw)] + ":") + Body(raw) == session + ":" + [Tag(raw)] + ":" + Body(raw);
  }

  lemma BodyFaithful(a: RawId, b: RawId)
    requires (a.Text? && b.Text?) || (a.Numeric? && b.Numeric?)
    ensures Body(a) == Body(b) <==> SameId(a, b)
  {
    if a.Numeric? {
      var va, vb := Value(a.number), Value(b.number);
      ReduceIsNormalForm(va, vb);
      var x, y := ReduceSound(va);
      var u, v := ReduceSound(vb);
      if Body(a) == Body(b) {
        RatStringIsInjective(Reduce(va), Reduce(vb));
      }
    }
  }

  /** For colon-free sessions the key is a faithful normal form of (session, id). */
  lemma KeysAreFaithful(s1: string, a: RawId, s2: string, b: RawId)
    requires ColonFree(s1) && ColonFree(s2)
    requires CanonicalKey(s1, a).Some? && CanonicalKey(s2, b).Some?
    ensures CanonicalKey(s1, a) == CanonicalKey(s2, b) <==>
            (IsNotification(a) && IsNotification(b)) || (s1 == s2 && SameId(a, b))
  {
    if !IsNotification(a) && !IsNotification(b) {
      KeyShape(s1, a);
      KeyShape(s2, b);
      if CanonicalKey(s1, a) == CanonicalKey(s2, b) {
        TaggedKeyParts(s1, Tag(a), Body(a), s2, Tag(b), Body(b));
        BodyFaithful(a, b);
      }
      if SameId(a, b) {
        BodyFaithful(a, b);
      }
    }
  }

  /** Colon-freedom is needed: with colons in session names two distinct requests share a key. */
  lemma ColonsCollide()
    ensures CanonicalKey("x", Text("y:s:z", 7)) == CanonicalKey("x:s:y", Text("z", 3))
  {
    assert "x" + ":s:" + "y:s:z" == "x:s:y" + ":s:" + "z";
  }

  /** The session names the client generates are colon-free and distinct per connection. */
  lemma SessionNames(g: nat, h: nat)
    ensures ColonFree(SessionName(g))
    ensures SessionName(g) == SessionName(h) ==> g == h
  {
    assert forall i :: 0 <= i < |PrintNat(g)| ==> IsDigit(PrintNat(g)[i]);
    if SessionName(g) == SessionName(h) {
      assert PrintNat(g) == SessionName(g)[5..] == PrintNat(h);
      PrintIsInjective(g, h);
    }
  }

  /** Every usable id of at most 256 bytes has a key, and so has the absence of one. */
  lemma KeyIsDefined(session: string, raw: RawId)
    ensures CanonicalKey(session, raw).Some? <==>
            IsNotification(raw) || ((raw.Text? || raw.Numeric?) && raw.size <= 256)
  {
  }

  /** Equal ids of one session have equal keys, whatever the session is called. */
  lemma SameIdSameKey(session: string, a: RawId, b: RawId)
    requires SameId(a, b) && CanonicalKey(session, a).Some? && CanonicalKey(session, b).Some?
    ensures CanonicalKey(session, a) == CanonicalKey(session, b)
  {
    KeyShape(session, a);
    KeyShape(session, b);
    BodyFaithful(a, b);
  }
}
