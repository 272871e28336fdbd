/** The tagged frames that carry results from Go to Rust (result.go and result.rs), and the
    text that carries requests from Rust to Go. One tag byte precedes the payload. */
module Frames {
  import opened Outcomes
  import opened Base64
  import Utf8

  const OK: byte := 0
  const QUERY_ERROR: byte := 1
  const EXECUTE_ERROR: byte := 2

  /** What `RawResult` wraps. */
  type RawResult = Result<bytes, RunnerError>

  // ---------- Go: result.go ----------

  function MarkError(code: byte, data: bytes): bytes {
    [code] + data
  }

  function MarkOk(data: bytes): bytes {
    [OK] + data
  }

  function EncodeResultFromError(code: byte, message: bytes): bytes {
    Encode(MarkError(code, message))
  }

  function EncodeResultFromOk(data: bytes): bytes {
    Encode(MarkOk(data))
  }

  // ---------- C strings ----------

  /** What `C.CString` leaves in memory: the text and a terminating NUL. */
  function CMemory(text: bytes): bytes {
    text + [0]
  }

  /** What `CString::from_raw` and `to_bytes` read back: the bytes before the first NUL. */
  function UpToNul(memory: bytes): bytes {
    if memory == [] || memory[0] == 0 then [] else [memory[0]] + UpToNul(memory[1..])
  }

  /** `CString::new(text).unwrap()`, which panics on an interior NUL. */
  function NewCString(text: bytes): Outcome<bytes> {
    if 0 in text then Panicked else Returned(text)
  }

  // ---------- Rust: RawResult::from_ptr ----------

  /** `ptr` is None for the null pointer, otherwise the memory it points to. */
  function FromPtr(ptr: Option<bytes>): Outcome<Option<RawResult>> {
    if ptr.None? then Returned(None)
    else
      match RustDecode(UpToNul(ptr.value))
      case None => Panicked
      case Some(frame) =>
        if frame == [] then Panicked
        else
          var code, content := frame[0], frame[1..];
          if code == OK then Returned(Some(Ok(content)))
          else
            var c_string :- NewCString(content);
            if !Utf8.Valid(c_string) then Panicked
            else if code == QUERY_ERROR then Returned(Some(Err(QueryError(c_string))))
            else if code == EXECUTE_ERROR then Returned(Some(Err(ExecuteError(c_string))))
            else Panicked
  }

  /** The text an export returns. */
  function FrameOf(reply: Result<bytes, GoError>): bytes {
    match reply
    case Ok(data) => EncodeResultFromOk(data)
    case Err(QueryFailed(text)) => EncodeResultFromError(QUERY_ERROR, text)
    case Err(ExecuteFailed(text)) => EncodeResultFromError(EXECUTE_ERROR, text)
  }

  /** `RawResult::from_non_null_ptr(res).into_result()` on what an export returned. */
  function Received(reply: Result<bytes, GoError>): Outcome<Result<bytes, RunnerError>> {
    match FromPtr(Some(CMemory(FrameOf(reply))))
    case Panicked => Panicked
    case Returned(None) => Panicked
    case Returned(Some(r)) => Returned(r)
  }

  /** `redefine_as_go_string!` on a Rust string. */
  function GoString(s: string): Outcome<bytes> {
    NewCString(Utf8.FromString(s))
  }

  /** What `init_account` does with the key InitAccount returned as base64 text. */
  function ReadKey(text: bytes): Result<bytes, RunnerError> {
    var c_string := UpToNul(CMemory(text));
    if !Utf8.Valid(c_string) then Err(DecodeError("utf8"))
    else if RustDecode(c_string).None? then Err(DecodeError("base64"))
    else Ok(RustDecode(c_string).value)
  }

  /** A message that an error frame can carry. */
  predicate Printable(message: bytes) {
    0 !in message && Utf8.Valid(message)
  }

  // ---------- properties ----------

  lemma {:induction false} CStringRoundTrip(text: bytes)
    requires 0 !in text
    ensures UpToNul(CMemory(text)) == text
  {
    if text != [] {
      CStringRoundTrip(text[1..]);
      assert CMemory(text)[1..] == CMemory(text[1..]);
    }
  }

  /** A frame produced by Go is read by Rust as that very frame. */
  lemma {:induction false} FrameCrosses(frame: bytes)
    ensures 0 !in Encode(frame)
    ensures RustDecode(UpToNul(CMemory(Encode(frame)))) == Some(frame)
  {
    EncodeIsPlain(frame);
    CStringRoundTrip(Encode(frame));
    DecodeEncode(frame, true);
  }

  lemma OkFrameRoundTrip(data: bytes)
    ensures FromPtr(Some(CMemory(EncodeResultFromOk(data)))) == Returned(Some(Ok(data)))
  {
    FrameCrosses(MarkOk(data));
  }

  /** An error frame is read as the matching error exactly when the code is one of the two
      defined ones and the message is NUL-free UTF-8; code 0 is read as success. */
  lemma ErrorFrameRoundTrip(code: byte, message: bytes)
    ensures FromPtr(Some(CMemory(EncodeResultFromError(code, message)))) ==
            if code == 0 then Returned(Some(Ok(message)))
            else if !Printable(message) || code > 2 then Panicked
            else if code == 1 then Returned(Some(Err(QueryError(message))))
            else Returned(Some(Err(ExecuteError(message))))
  {
    hide Encode, RustDecode, UpToNul, CMemory, Utf8.Valid;
    FrameCrosses(MarkError(code, message));
  }

  /** Frames of different results never coincide. */
  lemma FramesDistinct(code: byte, data: bytes, code': byte, data': bytes)
    ensures EncodeResultFromError(code, data) == EncodeResultFromError(code', data') <==>
            code == code' && data == data'
    ensures EncodeResultFromOk(data) == EncodeResultFromError(code', data') <==>
            code' == 0 && data == data'
  {
    if EncodeResultFromError(code, data) == EncodeResultFromError(code', data') {
      EncodeInjective(MarkError(code, data), MarkError(code', data'));
      assert MarkError(code, data)[1..] == data && MarkError(code', data')[1..] == data';
      assert MarkError(code, data)[0] == code;
    }
    if EncodeResultFromOk(data) == EncodeResultFromError(code', data') {
      EncodeInjective(MarkOk(data), MarkError(code', data'));
      assert MarkOk(data)[1..] == data && MarkError(code', data')[1..] == data';
      assert MarkOk(data)[0] == OK;
    }
  }

  /** The only texts Rust accepts as results are frames Go can produce, so a result read from
      any C string names the one frame it came from. */
  lemma FromPtrOnlyReadsFrames(text: bytes, r: RawResult)
    requires 0 !in text
    ensures FromPtr(Some(CMemory(text))) == Returned(Some(r)) <==>
            match r
            case Ok(data) => text == Encode([0] + data)
            case Err(QueryError(m)) => Printable(m) && text == Encode([1] + m)
            case Err(ExecuteError(m)) => Printable(m) && text == Encode([2] + m)
            case Err(_) => false
  {
    hide Encode, RustDecode, UpToNul, CMemory, Utf8.Valid;
    CStringRoundTrip(text);
    StrictDecodeIsInverse(text);
    if RustDecode(text).Some? && RustDecode(text).value != [] {
      var frame := RustDecode(text).value;
      assert frame == MarkError(frame[0], frame[1..]);
    }
    match r
    case Ok(data) => OkFrameRoundTrip(data);
    case Err(QueryError(m)) => ErrorFrameRoundTrip(QUERY_ERROR, m);
    case Err(ExecuteError(m)) => ErrorFrameRoundTrip(EXECUTE_ERROR, m);
    case Err(_) =>
  }

  /** The request direction: the base64 text of any payload passes `CString::new` and Go reads
      the payload back. */
  lemma {:induction false} RequestCrosses(payload: bytes)
    ensures NewCString(Encode(payload)) == Returned(Encode(payload))
    ensures GoDecode(Encode(payload)) == Some(payload)
  {
    EncodeIsPlain(payload);
    GoDecodeEncode(payload);
  }

  /** A reply is read as it was sent, except that an error text with a NUL or invalid UTF-8 makes
      the reader panic. */
  lemma ReceivedIs(reply: Result<bytes, GoError>)
    ensures Received(reply) ==
            match reply
            case Ok(data) => Returned(Ok(data))
            case Err(QueryFailed(text)) => if Printable(text) then Returned(Err(QueryError(text))) else Panicked
            case Err(ExecuteFailed(text)) => if Printable(text) then Returned(Err(ExecuteError(text))) else Panicked
  {
    hide FromPtr, Printable;
    match reply
    case Ok(data) => OkFrameRoundTrip(data);
    case Err(QueryFailed(text)) => ErrorFrameRoundTrip(QUERY_ERROR, text);
    case Err(ExecuteFailed(text)) => ErrorFrameRoundTrip(EXECUTE_ERROR, text);
  }

  /** The text of a reply: the base64 text of a tag byte and the payload. */
  lemma FrameOfIs(reply: Result<bytes, GoError>)
    ensures FrameOf(reply) ==
            match reply
            case Ok(data) => Encode([0] + data)
            case Err(QueryFailed(text)) => Encode([1] + text)
            case Err(ExecuteFailed(text)) => Encode([2] + text)
  {
    hide Encode;
  }

  /** An error text can be read exactly when it is that of a Rust string without a NUL. */
  lemma {:induction false} PrintableExactly(message: bytes)
    ensures Printable(message) <==> exists t :: Utf8.NulFree(t) && Utf8.FromString(t) == message
  {
    if Printable(message) {
      var t := Utf8.Decoded(message);
      Utf8.FromStringIsValid(t);
    }
    forall t | Utf8.NulFree(t) && Utf8.FromString(t) == message ensures Printable(message) {
      Utf8.FromStringIsValid(t);
    }
  }

  /** The null pointer, and nothing else, is read as no result. */
  lemma NullIsNoResult(ptr: Option<bytes>)
    ensures FromPtr(ptr) == Returned(None) <==> ptr == None
  {
    hide RustDecode, UpToNul, Utf8.Valid;
  }

  /** A name crosses to Go exactly when it holds no NUL. */
  lemma {:induction false} GoStringIs(s: string)
    ensures GoString(s) == if Utf8.NulFree(s) then Returned(Utf8.FromString(s)) else Panicked
  {
    Utf8.FromStringIsValid(s);
  }

  /** An error text built around a name can be read exactly when the name holds no NUL. */
  lemma {:induction false} TextIsPrintable(s: string)
    ensures Printable(Utf8.FromString(s)) <==> Utf8.NulFree(s)
  {
    Utf8.FromStringIsValid(s);
  }

  /** A private key reaches Rust unchanged. */
  lemma {:induction false} KeyCrosses(key: bytes)
    ensures ReadKey(Encode(key)) == Ok(key)
  {
    EncodeIsPlain(key);
    CStringRoundTrip(Encode(key));
    Utf8.AsciiIsValid(Encode(key));
    DecodeEncode(key, true);
  }
}
