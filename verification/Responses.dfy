/** The two conversions into `ExecuteResponse` (result.rs): from a simulation response, which every
    execution goes through, and from a committed transaction of a live chain. */
module Responses {
  import opened Outcomes
  import opened Fee
  import Utf8

  /** A Rust `String`. */
  type Text = s: bytes | Utf8.Valid(s) witness []

  datatype Attribute = Attribute(key: Text, value: Text)
  datatype Event = Event(kind: Text, attributes: seq<Attribute>)

  /** Events of a simulation, whose attributes are arbitrary bytes. */
  datatype RawAttribute = RawAttribute(key: bytes, value: bytes)
  datatype RawEvent = RawEvent(kind: Text, attributes: seq<RawAttribute>)

  datatype GasInfo = GasInfo(gasWanted: u64, gasUsed: u64)

  datatype SimulationResult = SimulationResult(data: bytes, log: bytes, events: seq<RawEvent>, msgResponses: seq<bytes>)
  datatype SimulationResponse = SimulationResponse(gasInfo: Option<GasInfo>, result: Option<SimulationResult>)
  datatype TxResult = TxResult(data: bytes, log: bytes, events: seq<Event>, gasWanted: int, gasUsed: int)

  datatype ExecuteResponse<R> = ExecuteResponse(data: R, rawData: bytes, events: seq<Event>, gasInfo: GasInfo)

  type Converted<R> = Outcome<Result<ExecuteResponse<R>, RunnerError>>

  /** `std::str::from_utf8(..).unwrap_or_default()`. */
  function Utf8OrEmpty(s: bytes): Text {
    if Utf8.Valid(s) then s else []
  }

  function CleanAttribute(a: RawAttribute): Attribute {
    Attribute(Utf8OrEmpty(a.key), Utf8OrEmpty(a.value))
  }

  function CleanEvent(e: RawEvent): Event {
    Event(e.kind, seq(|e.attributes|, i requires 0 <= i < |e.attributes| => CleanAttribute(e.attributes[i])))
  }

  function CleanEvents(events: seq<RawEvent>): seq<Event> {
    seq(|events|, i requires 0 <= i < |events| => CleanEvent(events[i]))
  }

  /** `x as u64` for an i64. */
  function AsU64(x: int): u64 {
    x % TWO_64
  }

  function FirstData<R>(responses: seq<bytes>, log: bytes, decode: bytes -> Option<R>): Result<R, RunnerError> {
    if responses == [] then Err(ExecuteError(log))
    else
      match decode(responses[0])
      case None => Err(DecodeError("invalid protobuf"))
      case Some(data) => Ok(data)
  }

  function FromSimulation<R>(res: SimulationResponse, decode: bytes -> Option<R>): Converted<R> {
    if res.result.None? then Panicked
    else
      var result := res.result.value;
      match FirstData(result.msgResponses, result.log, decode)
      case Err(error) => Returned(Err(error))
      case Ok(data) =>
        if res.gasInfo.None? then Panicked
        else Returned(Ok(ExecuteResponse(data, result.data, CleanEvents(result.events), res.gasInfo.value)))
  }

  function FromCommit<R>(res: TxResult, decodeTx: bytes -> Option<seq<bytes>>, decode: bytes -> Option<R>): Converted<R> {
    match decodeTx(res.data)
    case None => Returned(Err(DecodeError("invalid protobuf")))
    case Some(responses) =>
      match FirstData(responses, res.log, decode)
      case Err(error) => Returned(Err(error))
      case Ok(data) =>
        Returned(Ok(ExecuteResponse(data, res.data, res.events, GasInfo(AsU64(res.gasWanted), AsU64(res.gasUsed)))))
  }

  /** A node reports bytes that are text as they are, and other bytes as some text. */
  predicate Reported(raw: bytes, text: Text) {
    Utf8.Valid(raw) ==> text == raw
  }

  predicate SameAttribute(raw: RawAttribute, a: Attribute) {
    Reported(raw.key, a.key) && Reported(raw.value, a.value)
  }

  predicate SameEvent(raw: RawEvent, e: Event) {
    && raw.kind == e.kind && |raw.attributes| == |e.attributes|
    && forall j | 0 <= j < |e.attributes| :: SameAttribute(raw.attributes[j], e.attributes[j])
  }

  /** Both responses report the same execution. */
  predicate Same(sim: SimulationResponse, commit: TxResult, decodeTx: bytes -> Option<seq<bytes>>) {
    && sim.result.Some? && sim.gasInfo.Some?
    && decodeTx(commit.data) == Some(sim.result.value.msgResponses)
    && commit.data == sim.result.value.data && commit.log == sim.result.value.log
    && |commit.events| == |sim.result.value.events|
    && (forall i | 0 <= i < |commit.events| :: SameEvent(sim.result.value.events[i], commit.events[i]))
    && commit.gasWanted == sim.gasInfo.value.gasWanted && commit.gasUsed == sim.gasInfo.value.gasUsed
  }

  /** Bytes that are not text are reported as the empty string. */
  predicate Blanked(raw: bytes, text: Text) {
    !Utf8.Valid(raw) ==> text == []
  }

  predicate BlankedEvent(raw: RawEvent, e: Event) {
    forall j | 0 <= j < |raw.attributes| && j < |e.attributes| ::
      Blanked(raw.attributes[j].key, e.attributes[j].key) && Blanked(raw.attributes[j].value, e.attributes[j].value)
  }

  lemma CleanEventIs(raw: RawEvent, e: Event)
    requires SameEvent(raw, e)
    ensures CleanEvent(raw) == e <==> BlankedEvent(raw, e)
  {
    var clean := CleanEvent(raw).attributes;
    if CleanEvent(raw) == e {
      forall j | 0 <= j < |e.attributes|
        ensures Blanked(raw.attributes[j].key, e.attributes[j].key)
        ensures Blanked(raw.attributes[j].value, e.attributes[j].value)
      {
        assert clean[j] == CleanAttribute(raw.attributes[j]);
      }
    } else if BlankedEvent(raw, e) {
      forall j | 0 <= j < |e.attributes| ensures clean[j] == e.attributes[j] {
        assert SameAttribute(raw.attributes[j], e.attributes[j]);
      }
    }
  }

  lemma CleanEventsAre(raw: seq<RawEvent>, events: seq<Event>)
    requires |raw| == |events| && forall i | 0 <= i < |events| :: SameEvent(raw[i], events[i])
    ensures CleanEvents(raw) == events <==> forall i | 0 <= i < |events| :: BlankedEvent(raw[i], events[i])
  {
    forall i | 0 <= i < |events| ensures CleanEvents(raw)[i] == events[i] <==> BlankedEvent(raw[i], events[i]) {
      CleanEventIs(raw[i], events[i]);
    }
  }

  /** For responses about the same execution the conversions agree: on errors always, and on success
      exactly when the node reports attributes that are not text as empty. With text only they
      always do. */
  lemma ConversionsAgree<R>(sim: SimulationResponse, commit: TxResult,
                            decodeTx: bytes -> Option<seq<bytes>>, decode: bytes -> Option<R>)
    requires Same(sim, commit, decodeTx)
    ensures FromSimulation(sim, decode) == FromCommit(commit, decodeTx, decode) <==>
            FirstData(sim.result.value.msgResponses, sim.result.value.log, decode).Err? ||
            forall i | 0 <= i < |commit.events| :: BlankedEvent(sim.result.value.events[i], commit.events[i])
  {
    CleanEventsAre(sim.result.value.events, commit.events);
  }

  /** `event` is what becomes of a simulated event: same kind, the attributes in their order, bytes that
      are not text blanked. */
  ghost predicate Shown(raw: RawEvent, event: Event) {
    && event.kind == raw.kind && |event.attributes| == |raw.attributes|
    && forall j | 0 <= j < |raw.attributes| ::
         && event.attributes[j].key == (if Utf8.Valid(raw.attributes[j].key) then raw.attributes[j].key else [])
         && event.attributes[j].value == (if Utf8.Valid(raw.attributes[j].value) then raw.attributes[j].value else [])
  }

  lemma CleanIsShown(raw: RawEvent)
    ensures Shown(raw, CleanEvent(raw))
  {
    hide Utf8.Valid;
  }

  /** What a simulation response with a result and gas info converts to: the first message response
      decides, and everything else is passed on in its order. */
  lemma SimulationConversion<R>(res: SimulationResponse, decode: bytes -> Option<R>)
    requires res.result.Some? && res.gasInfo.Some?
    ensures FromSimulation(res, decode).Returned?
    ensures var result, r := res.result.value, FromSimulation(res, decode).value;
      if |result.msgResponses| == 0 then r == Err(ExecuteError(result.log))
      else if decode(result.msgResponses[0]).None? then r.Err? && r.error.DecodeError?
      else
        && r.Ok? && Some(r.value.data) == decode(result.msgResponses[0]) && r.value.rawData == result.data
        && r.value.gasInfo.gasWanted == res.gasInfo.value.gasWanted
        && r.value.gasInfo.gasUsed == res.gasInfo.value.gasUsed
        && |r.value.events| == |result.events|
        && forall i | 0 <= i < |result.events| :: Shown(result.events[i], r.value.events[i])
  {
    hide Shown, CleanEvent;
    var events := res.result.value.events;
    forall i | 0 <= i < |events| ensures Shown(events[i], CleanEvent(events[i])) {
      CleanIsShown(events[i]);
    }
  }

  /** What a committed transaction converts to, whose data holds `responses`. A negative gas reading
      wraps. */
  lemma CommitConversion<R>(res: TxResult, decodeTx: bytes -> Option<seq<bytes>>, decode: bytes -> Option<R>)
    ensures FromCommit(res, decodeTx, decode).Returned?
    ensures var tx, r := decodeTx(res.data), FromCommit(res, decodeTx, decode).value;
      if tx.None? then r.Err? && r.error.DecodeError?
      else if |tx.value| == 0 then r == Err(ExecuteError(res.log))
      else if decode(tx.value[0]).None? then r.Err? && r.error.DecodeError?
      else
        && r.Ok? && Some(r.value.data) == decode(tx.value[0]) && r.value.rawData == res.data && r.value.events == res.events
        && (r.value.gasInfo.gasWanted - res.gasWanted) % TWO_64 == 0
        && (r.value.gasInfo.gasUsed - res.gasUsed) % TWO_64 == 0
  {
  }
}
