/**
 * The configuration UUID in three places: validation and extraction (pkg/contracts/rpc.go), the frame
 * handler that prints it into the envelope (cmd/ucentral-client/handler.go) and the NATS client that
 * checks it again (pkg/nats/client.go). JSON, zlib, base64 and the schema are deterministic parameters.
 */
module Configure {
  import opened Common
  import opened Decimal

  /** CloudConfigureRequest. */
  datatype Request = Request(serial: string, uuid: int, when: int, config: Bytes, compress64: string, compressSz: nat)

  /**
   * `request` and `version` are json.Unmarshal into a request and into its uuid field alone, `inflate`
   * reads at most the given number of bytes, `trim` is bytes.TrimSpace.
   */
  datatype Codecs = Codecs(
    request: Bytes -> Option<Request>,
    version: Bytes -> Option<int>,
    inflate: (string, nat) -> Option<Bytes>,
    trim: Bytes -> Bytes,
    schemaOk: Bytes -> bool,
    limit: int)

  predicate IsInt64(n: int) { MIN_INT64 <= n <= MAX_INT64 }

  /**
   * What encoding/json guarantees: int64 fields, raw values without surrounding space, no empty document,
   * and the same value for a document without the space around it.
   */
  ghost predicate Sound(c: Codecs) {
    && c.request([]) == None
    && (forall b: Bytes :: c.request(b).Some? ==>
          IsInt64(c.request(b).value.uuid) && c.trim(c.request(b).value.config) == c.request(b).value.config)
    && (forall b: Bytes :: c.version(b).Some? ==>
          IsInt64(c.version(b).value) && c.version(c.trim(b)) == c.version(b))
  }

  const NULL: Bytes := [110, 117, 108, 108]
  const OPEN_BRACE: Byte := 123

  datatype Refusal = BothGiven | NoneGiven | OuterFields | NoSerial | BadUUID | BadWhen | NotAnObject | BadSchema |
                     NoData | NoSize | TooLarge | Corrupt | WrongSize | Nested | BadInner

  predicate HasConfig(r: Request) { |r.config| > 0 && r.config != NULL }

  predicate HasCompress(r: Request) { r.compress64 != "" || r.compressSz > 0 }

  function Decompress(c: Codecs, r: Request): Result<Bytes, Refusal> {
    if r.compress64 == "" then Err(NoData)
    else if r.compressSz == 0 then Err(NoSize)
    else if r.compressSz > c.limit then Err(TooLarge)
    else
      match c.inflate(r.compress64, r.compressSz + 1)
      case None => Err(Corrupt)
      case Some(bytes) => if |bytes| != r.compressSz then Err(WrongSize) else Ok(bytes)
  }

  /** The configuration's own version if it states a positive one, else the request's. */
  function VersionOf(c: Codecs, config: Bytes, uuid: int): int {
    var v := c.version(config);
    if v.Some? && v.value > 0 then v.value else uuid
  }

  predicate IsObject(bytes: Bytes) { |bytes| > 0 && bytes[0] == OPEN_BRACE }

  /** The outcome of a validation and the number of decompressions it took. */
  datatype Checked = Checked(uuid: Result<int, Refusal>, inflations: nat)

  /** ValidateAndGetUUID. It only ever decompresses a request that names compressed data. */
  function ValidateAndGetUUID(c: Codecs, r: Request): (k: Checked)
    ensures k.inflations <= if r.compress64 == "" then 0 else 1
    decreases r.compress64 != ""
  {
    if HasConfig(r) && HasCompress(r) then Checked(Err(BothGiven), 0)
    else if !HasConfig(r) && !HasCompress(r) then Checked(Err(NoneGiven), 0)
    else if HasCompress(r) && (r.serial != "" || r.uuid != 0 || r.when != 0) then Checked(Err(OuterFields), 0)
    else if !HasCompress(r) && r.serial == "" then Checked(Err(NoSerial), 0)
    else if !HasCompress(r) && r.uuid <= 0 then Checked(Err(BadUUID), 0)
    else if !HasCompress(r) && r.when != 0 then Checked(Err(BadWhen), 0)
    else if HasConfig(r) then
      var trimmed := c.trim(r.config);
      if !IsObject(trimmed) then Checked(Err(NotAnObject), 0)
      else if !c.schemaOk(trimmed) then Checked(Err(BadSchema), 0)
      else Checked(Ok(VersionOf(c, trimmed, r.uuid)), 0)
    else
      match Decompress(c, r)
      case Err(e) => Checked(Err(e), if r.compress64 == "" then 0 else 1)
      case Ok(bytes) =>
        var trimmed := c.trim(bytes);
        if !IsObject(trimmed) then Checked(Err(NotAnObject), 1)
        else
          match c.request(trimmed)
          case None => Checked(Err(NotAnObject), 1)
          case Some(inner) =>
            if inner.compress64 != "" then Checked(Err(Nested), 1)
            else
              var k := ValidateAndGetUUID(c, inner);
              Checked(if k.uuid.Ok? then k.uuid else Err(BadInner), 1 + k.inflations)
  }

  /**
   * EffectiveUUID, None when `fuel` nested decompressions were not enough: unlike validation it follows
   * compressed data inside compressed data.
   */
  function EffectiveUUID(c: Codecs, r: Request, fuel: nat): Option<Result<int, Refusal>>
    decreases fuel
  {
    if HasConfig(r) then Some(Ok(VersionOf(c, r.config, r.uuid)))
    else if r.compress64 == "" then Some(Err(NoneGiven))
    else
      match Decompress(c, r)
      case Err(e) => Some(Err(e))
      case Ok(bytes) =>
        match c.request(c.trim(bytes))
        case None => Some(Err(NotAnObject))
        case Some(inner) => if fuel == 0 then None else EffectiveUUID(c, inner, fuel - 1)
  }

  // ----- what validation accepts -----

  /** A plain configure request the schema accepts. */
  predicate Plain(c: Codecs, r: Request) {
    && HasConfig(r) && !HasCompress(r)
    && r.serial != "" && r.uuid > 0 && r.when == 0
    && IsObject(c.trim(r.config)) && c.schemaOk(c.trim(r.config))
  }

  /** `r` carries nothing but the compressed form of `bytes`, of exactly the announced size within the limit. */
  predicate Carries(c: Codecs, r: Request, bytes: Bytes) {
    && r.compress64 != "" && 0 < r.compressSz <= c.limit && |bytes| == r.compressSz
    && c.inflate(r.compress64, r.compressSz + 1) == Some(bytes)
    && !HasConfig(r) && r.serial == "" && r.uuid == 0 && r.when == 0
  }

  /** Validation accepts exactly plain requests and compressed plain requests, with the configuration's version. */
  lemma AcceptedExactly(c: Codecs, r: Request, uuid: int)
    ensures ValidateAndGetUUID(c, r).uuid == Ok(uuid) <==>
            || (Plain(c, r) && uuid == VersionOf(c, c.trim(r.config), r.uuid))
            || (exists bytes :: Carries(c, r, bytes) && IsObject(c.trim(bytes)) && c.request(c.trim(bytes)).Some? &&
                  var inner := c.request(c.trim(bytes)).value;
                  Plain(c, inner) && uuid == VersionOf(c, c.trim(inner.config), inner.uuid))
  {
    hide VersionOf, IsObject;
    PlainExactly(c, r);
    if r.compress64 != "" && Decompress(c, r).Ok? {
      var bytes := Decompress(c, r).value;
      if c.request(c.trim(bytes)).Some? { PlainExactly(c, c.request(c.trim(bytes)).value); }
      assert Carries(c, r, bytes) <==> (!HasConfig(r) && r.serial == "" && r.uuid == 0 && r.when == 0);
    }
  }

  lemma PlainExactly(c: Codecs, r: Request)
    ensures r.compress64 == "" ==>
              ValidateAndGetUUID(c, r).uuid.Ok? == Plain(c, r) &&
              (Plain(c, r) ==> ValidateAndGetUUID(c, r).uuid == Ok(VersionOf(c, c.trim(r.config), r.uuid)))
  {
    hide VersionOf, IsObject;
  }

  // ----- agreement -----

  /** A request that passes validation without compressed data has a configuration. */
  lemma PlainHasConfig(c: Codecs, r: Request)
    requires ValidateAndGetUUID(c, r).uuid.Ok? && r.compress64 == ""
    ensures HasConfig(r) && r.uuid > 0 && ValidateAndGetUUID(c, r).uuid.value == VersionOf(c, c.trim(r.config), r.uuid)
  {
    PlainExactly(c, r);
  }

  /**
   * The configuration as given is no document for the JSON decoder, while its trimmed form is one that
   * states a positive version other than the request's.
   */
  predicate Padded(c: Codecs, r: Request) {
    && HasConfig(r) && c.version(r.config).None?
    && c.version(c.trim(r.config)).Some?
    && c.version(c.trim(r.config)).value > 0 && c.version(c.trim(r.config)).value != r.uuid
  }

  /**
   * For every validated request EffectiveUUID succeeds after at most one decompression, and it returns
   * the validated UUID exactly if the configuration is not padded; in particular if trimming leaves it alone.
   */
  lemma ValidatedIsEffective(c: Codecs, r: Request, fuel: nat)
    requires Sound(c) && ValidateAndGetUUID(c, r).uuid.Ok? && fuel >= 1
    ensures EffectiveUUID(c, r, fuel).Some? && EffectiveUUID(c, r, fuel).value.Ok?
    ensures EffectiveUUID(c, r, fuel) == Some(ValidateAndGetUUID(c, r).uuid) <==> !Padded(c, r)
    ensures c.trim(r.config) == r.config ==> !Padded(c, r)
  {
    if r.compress64 == "" {
      PlainHasConfig(c, r);
    } else {
      var inner := c.request(c.trim(Decompress(c, r).value)).value;
      PlainHasConfig(c, inner);
      assert c.trim(inner.config) == inner.config;
      assert EffectiveUUID(c, inner, fuel - 1) == Some(Ok(VersionOf(c, inner.config, inner.uuid)));
    }
  }

  /** Requests that come out of the JSON decoder always agree. */
  lemma DecodedAgrees(c: Codecs, bytes: Bytes, fuel: nat)
    requires Sound(c) && c.request(bytes).Some? && fuel >= 1
    ensures var r := c.request(bytes).value;
            ValidateAndGetUUID(c, r).uuid.Ok? ==> EffectiveUUID(c, r, fuel) == Some(ValidateAndGetUUID(c, r).uuid)
  {
    var r := c.request(bytes).value;
    if ValidateAndGetUUID(c, r).uuid.Ok? {
      ValidatedIsEffective(c, r, fuel);
    }
  }

  lemma ValidatedIsPositive(c: Codecs, r: Request)
    requires Sound(c) && IsInt64(r.uuid) && ValidateAndGetUUID(c, r).uuid.Ok?
    ensures 0 < ValidateAndGetUUID(c, r).uuid.value <= MAX_INT64
  {
    if r.compress64 == "" {
      PlainHasConfig(c, r);
    } else {
      var inner := c.request(c.trim(Decompress(c, r).value)).value;
      PlainHasConfig(c, inner);
    }
  }

  /**
   * Agreement is not unconditional: a request assembled by hand may carry a configuration padded with
   * space that trimming removes and the JSON decoder rejects, and then the two functions differ.
   */
  lemma PaddingDisagrees()
    ensures exists c: Codecs, r: Request, fuel: nat :: Sound(c) && fuel >= 1 && IsInt64(r.uuid) &&
              ValidateAndGetUUID(c, r).uuid.Ok? && EffectiveUUID(c, r, fuel) != Some(ValidateAndGetUUID(c, r).uuid)
  {
    // {"uuid":7}, and the same text followed by a vertical tab
    var bare: Bytes := [OPEN_BRACE, 34, 117, 117, 105, 100, 34, 58, 55, 125];
    var padded: Bytes := bare + [11];
    var c := Codecs(
      (b: Bytes) => None,
      (b: Bytes) => if b == bare then Some(7) else None,
      (s: string, n: nat) => None,
      (b: Bytes) => if b == padded then bare else b,
      (b: Bytes) => true,
      0);
    var r := Request("ap", 3, 0, padded, "", 0);
    assert |padded| == |bare| + 1;
    assert Sound(c);
    assert c.trim(padded) == bare;
    assert padded[0] == OPEN_BRACE && padded != NULL;
    assert ValidateAndGetUUID(c, r).uuid == Ok(7);
    assert EffectiveUUID(c, r, 1) == Some(Ok(3));
  }

  // ----- handler and NATS client -----

  /** HandleFrame's uuidVal: None when the parameters are refused. */
  function EnvelopeUUID(c: Codecs, params: Bytes): Option<string> {
    match c.request(params)
    case None => None
    case Some(r) =>
      match ValidateAndGetUUID(c, r).uuid
      case Err(_) => None
      case Ok(uuid) => Some(if uuid > 0 then Print(uuid) else "0")
  }

  datatype SubmitError = BadVersion | EmptyPayload | BadEnvelopeUUID | BadPayload | Mismatch

  const ENVELOPE_VERSION := "1.0"

  /** SubmitConfigure up to its match check. */
  function SubmitConfigure(c: Codecs, version: string, uuid: string, payload: Bytes): Option<SubmitError> {
    if version != ENVELOPE_VERSION then Some(BadVersion)
    else if |payload| == 0 then Some(EmptyPayload)
    else
      var n := ParseInt64(uuid);
      if n.None? || n.value <= 0 then Some(BadEnvelopeUUID)
      else
        match c.request(payload)
        case None => Some(BadPayload)
        case Some(r) =>
          match ValidateAndGetUUID(c, r).uuid
          case Err(_) => Some(BadPayload)
          case Ok(found) => if found != n.value then Some(Mismatch) else None
  }

  /** The client submits exactly what names the current version, a positive UUID, and a valid payload of that UUID. */
  lemma SubmitsExactly(c: Codecs, version: string, uuid: string, payload: Bytes)
    ensures SubmitConfigure(c, version, uuid, payload) == None <==>
            && version == "1.0" && payload != []
            && ParseInt64(uuid).Some? && ParseInt64(uuid).value > 0
            && c.request(payload).Some?
            && ValidateAndGetUUID(c, c.request(payload).value).uuid == Ok(ParseInt64(uuid).value)
  {
    hide ValidateAndGetUUID, ParseInt64;
  }

  /**
   * Every configure the handler admits passes the NATS client's checks with the UUID text the handler
   * printed, that text is the decimal form of a positive int64, and no other text of one passes.
   */
  lemma AdmittedConfigureSubmits(c: Codecs, params: Bytes, uuid: string)
    requires Sound(c) && EnvelopeUUID(c, params).Some?
    ensures SubmitConfigure(c, "1.0", EnvelopeUUID(c, params).value, params) == None
    ensures exists n :: 0 < n <= MAX_INT64 && EnvelopeUUID(c, params).value == Print(n)
    ensures (exists n: int :: IsInt64(n) && uuid == Print(n)) &&
              SubmitConfigure(c, ENVELOPE_VERSION, uuid, params) == None ==>
              uuid == EnvelopeUUID(c, params).value
  {
    hide ValidateAndGetUUID;
    var r := c.request(params).value;
    ValidatedIsPositive(c, r);
    var n := ValidateAndGetUUID(c, r).uuid.value;
    ParsePrintRoundTrip(n);
    assert 0 < n <= MAX_INT64 && EnvelopeUUID(c, params).value == Print(n);
    if m: int :| IsInt64(m) && uuid == Print(m) {
      ParsePrintRoundTrip(m);
    }
  }
}
