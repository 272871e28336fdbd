/** Conversion of message batches (mod.rs, app.rs and utils.rs). */
module Messages {
  import opened Outcomes
  import opened Fee
  import opened Chain
  import opened Coins
  import Utf8

  /** What converting one message yields; `todo!()` arms panic. */
  type Conversion = Outcome<Result<Any, RunnerError>>

  datatype BankMsg = Send(toAddress: string, amount: seq<Coin>) | OtherBank

  datatype WasmMsg =
    | Execute(contract: string, msg: bytes, funds: seq<Coin>)
    | Instantiate(admin: Option<string>, codeId: u64, msg: bytes, funds: seq<Coin>, name: string)
    | Migrate(contract: string, newCodeId: u64, msg: bytes)
    | UpdateAdmin(contract: string, newAdmin: string)
    | ClearAdmin(contract: string)
    | OtherWasm

  datatype CosmosMsg =
    | Bank(bank: BankMsg)
    | AnyMsg(typeUrl: string, value: bytes)
    | Wasm(wasm: WasmMsg)
    | OtherCosmos

  /** The protobuf messages the conversions build. */
  datatype ProtoMsg =
    | MsgSend(fromAddress: string, toAddress: string, amount: seq<ProtoCoin>)
    | MsgExecuteContract(sender: string, contract: string, msg: bytes, funds: seq<ProtoCoin>)
    | MsgInstantiateContract(sender: string, admin: string, codeId: u64, name: string, msg: bytes, funds: seq<ProtoCoin>)
    | MsgMigrateContract(sender: string, contract: string, codeId: u64, msg: bytes)
    | MsgUpdateAdmin(sender: string, newAdmin: string, contract: string)
    | MsgClearAdmin(sender: string, contract: string)

  /** Protobuf encoding, which the model does not look into. */
  type Encoder = ProtoMsg -> bytes

  function MsgToAny(typeUrl: string, msg: ProtoMsg, encode: Encoder): Conversion {
    Returned(Ok(Any(typeUrl, encode(msg))))
  }

  function BankMsgToAny(msg: BankMsg, signer: string, encode: Encoder): Conversion {
    match msg
    case Send(to, amount) => MsgToAny("/cosmos.bank.v1beta1.MsgSend", MsgSend(signer, to, CoinsToProto(amount)), encode)
    case OtherBank => Panicked
  }

  const UNSUPPORTED: bytes := [85, 110, 115, 117, 112, 112, 111, 114, 116, 101, 100, 32, 87, 97, 115, 109, 77, 115, 103]

  lemma {:induction false} UnsupportedText()
    ensures UNSUPPORTED == Utf8.FromString("Unsupported WasmMsg")
  {
    hide Utf8.FromString;
    Utf8.AsciiBytes("Unsupported WasmMsg");
  }

  function WasmMsgToAny(msg: WasmMsg, signer: string, encode: Encoder): Conversion {
    match msg
    case Execute(contract, m, funds) =>
      MsgToAny("/cosmwasm.wasm.v1.MsgExecuteContract", MsgExecuteContract(signer, contract, m, CoinsToProto(funds)), encode)
    case Instantiate(admin, codeId, m, funds, name) =>
      MsgToAny("/cosmwasm.wasm.v1.MsgInstantiateContract",
               MsgInstantiateContract(signer, OrEmpty(admin), codeId, name, m, CoinsToProto(funds)), encode)
    case Migrate(contract, newCodeId, m) =>
      MsgToAny("/cosmwasm.wasm.v1.MsgMigrateContract", MsgMigrateContract(signer, contract, newCodeId, m), encode)
    case UpdateAdmin(contract, admin) =>
      MsgToAny("/cosmwasm.wasm.v1.MsgUpdateAdmin", MsgUpdateAdmin(signer, admin, contract), encode)
    case ClearAdmin(contract) =>
      MsgToAny("/cosmwasm.wasm.v1.MsgClearAdmin", MsgClearAdmin(signer, contract), encode)
    case OtherWasm => Returned(Err(ExecuteError(UNSUPPORTED)))
  }

  function OrEmpty(s: Option<string>): string {
    if s.Some? then s.value else ""
  }

  /** The closure of `execute_cosmos_msgs`. */
  function CosmosMsgToAny(msg: CosmosMsg, signer: string, encode: Encoder): Conversion {
    match msg
    case Bank(m) => BankMsgToAny(m, signer, encode)
    case AnyMsg(typeUrl, value) => Returned(Ok(Any(typeUrl, value)))
    case Wasm(m) => WasmMsgToAny(m, signer, encode)
    case OtherCosmos => Panicked
  }

  function CosmosBatch(msgs: seq<CosmosMsg>, signer: string, encode: Encoder): seq<Conversion> {
    seq(|msgs|, i requires 0 <= i < |msgs| => CosmosMsgToAny(msgs[i], signer, encode))
  }

  /** A message of `execute_multiple`: its encoding, which may fail, and its type URL. */
  datatype TypedMsg = TypedMsg(encoded: Result<bytes, RunnerError>, typeUrl: string)

  /** The closure of `execute_multiple`. */
  function TypedToAny(msg: TypedMsg): Conversion {
    Returned(if msg.encoded.Ok? then Ok(Any(msg.typeUrl, msg.encoded.value)) else Err(msg.encoded.error))
  }

  function TypedBatch(msgs: seq<TypedMsg>): seq<Conversion> {
    seq(|msgs|, i requires 0 <= i < |msgs| => TypedToAny(msgs[i]))
  }

  // ---------- batches ----------

  /** `collect::<Result<Vec<_>, _>>()`: conversions run in order until the first that fails. */
  function Collect(batch: seq<Conversion>): Outcome<Result<seq<Any>, RunnerError>> {
    if batch == [] then Returned(Ok([]))
    else
      var first :- batch[0];
      if first.Err? then Returned(Err(first.error))
      else
        var rest :- Collect(batch[1..]);
        Returned(if rest.Err? then rest else Ok([first.value] + rest.value))
  }

  predicate Good(c: Conversion) {
    c.Returned? && c.value.Ok?
  }

  lemma {:induction false} CollectGood(batch: seq<Conversion>)
    requires forall i | 0 <= i < |batch| :: Good(batch[i])
    ensures Collect(batch).Returned? && Collect(batch).value.Ok? && |Collect(batch).value.value| == |batch| &&
      forall i | 0 <= i < |batch| :: batch[i] == Returned(Ok(Collect(batch).value.value[i]))
  {
    if batch != [] {
      CollectGood(batch[1..]);
    }
  }

  lemma {:induction false} CollectBad(batch: seq<Conversion>, k: nat)
    requires k < |batch| && !Good(batch[k]) && forall i | 0 <= i < k :: Good(batch[i])
    ensures Collect(batch) == if batch[k].Panicked? then Panicked else Returned(Err(batch[k].value.error))
  {
    if k > 0 {
      CollectBad(batch[1..], k - 1);
    }
  }

  /** All or nothing: when every conversion is good the list has the length and order of the batch;
      otherwise the outcome is that of the first bad one, whatever follows it. */
  lemma {:induction false} CollectExactly(batch: seq<Conversion>)
    ensures (forall i | 0 <= i < |batch| :: Good(batch[i])) ==>
      Collect(batch).Returned? && Collect(batch).value.Ok? && |Collect(batch).value.value| == |batch| &&
      forall i | 0 <= i < |batch| :: batch[i] == Returned(Ok(Collect(batch).value.value[i]))
    ensures forall k | 0 <= k < |batch| && !Good(batch[k]) && (forall i | 0 <= i < k :: Good(batch[i])) ::
      Collect(batch) == if batch[k].Panicked? then Panicked else Returned(Err(batch[k].value.error))
  {
    hide Collect;
    if forall i | 0 <= i < |batch| :: Good(batch[i]) { CollectGood(batch); }
    forall k | 0 <= k < |batch| && !Good(batch[k]) && (forall i | 0 <= i < k :: Good(batch[i]))
      ensures Collect(batch) == if batch[k].Panicked? then Panicked else Returned(Err(batch[k].value.error))
    {
      CollectBad(batch, k);
    }
  }

  /** The kinds of message whose conversion is a `todo!()`. */
  predicate Unfinished(msg: CosmosMsg) {
    msg.OtherCosmos? || (msg.Bank? && msg.bank.OtherBank?)
  }

  predicate Supported(msg: CosmosMsg) {
    !Unfinished(msg) && !(msg.Wasm? && msg.wasm.OtherWasm?)
  }

  lemma CosmosBatchConverts(msgs: seq<CosmosMsg>, signer: string, encode: Encoder)
    ensures var r := Collect(CosmosBatch(msgs, signer, encode));
      && ((forall i | 0 <= i < |msgs| :: Supported(msgs[i])) ==>
            r.Returned? && r.value.Ok? && |r.value.value| == |msgs| &&
            forall i | 0 <= i < |msgs| :: Returned(Ok(r.value.value[i])) == CosmosMsgToAny(msgs[i], signer, encode))
      && forall k | 0 <= k < |msgs| && !Supported(msgs[k]) && (forall i | 0 <= i < k :: Supported(msgs[i])) ::
           r == if Unfinished(msgs[k]) then Panicked else Returned(Err(ExecuteError(UNSUPPORTED)))
  {
    hide Collect, CosmosMsgToAny, Supported, Unfinished;
    var batch := CosmosBatch(msgs, signer, encode);
    CollectExactly(batch);
    forall i | 0 <= i < |msgs| ensures Good(batch[i]) <==> Supported(msgs[i]) {
      GoodIsSupported(msgs[i], signer, encode);
    }
    forall k | 0 <= k < |msgs| && !Supported(msgs[k]) && (forall i | 0 <= i < k :: Supported(msgs[i]))
      ensures Collect(batch) == if Unfinished(msgs[k]) then Panicked else Returned(Err(ExecuteError(UNSUPPORTED)))
    {
      GoodIsSupported(msgs[k], signer, encode);
      assert !Good(batch[k]);
      assert forall i | 0 <= i < k :: Good(batch[i]) <==> Supported(msgs[i]);
    }
  }

  /** The type URLs of the protobuf messages. */
  function UrlOf(p: ProtoMsg): string {
    match p
    case MsgSend(_, _, _) => "/cosmos.bank.v1beta1.MsgSend"
    case MsgExecuteContract(_, _, _, _) => "/cosmwasm.wasm.v1.MsgExecuteContract"
    case MsgInstantiateContract(_, _, _, _, _, _) => "/cosmwasm.wasm.v1.MsgInstantiateContract"
    case MsgMigrateContract(_, _, _, _) => "/cosmwasm.wasm.v1.MsgMigrateContract"
    case MsgUpdateAdmin(_, _, _) => "/cosmwasm.wasm.v1.MsgUpdateAdmin"
    case MsgClearAdmin(_, _) => "/cosmwasm.wasm.v1.MsgClearAdmin"
  }

  /** How the chain reads a message: by the type its URL names. */
  type Decoder = (string, bytes) -> Option<ProtoMsg>

  /** Reading a message under the URL of its type gives it back. */
  ghost predicate Decodes(decode: Decoder, encode: Encoder) {
    forall p :: decode(UrlOf(p), encode(p)) == Some(p)
  }

  /** The coins of a message are those given, by denom. */
  predicate Carries(coins: seq<ProtoCoin>, given: seq<Coin>) {
    ProtoToCoins(coins) == Returned(StableSort(given))
  }

  /** What the chain reads in `any` is what the Cosmos message of `signer` says. */
  predicate Says(any: Any, msg: CosmosMsg, signer: string, decode: Decoder) {
    var read := decode(any.typeUrl, any.value);
    match msg
    case AnyMsg(typeUrl, value) => any.typeUrl == typeUrl && any.value == value
    case Bank(Send(toAddress, amount)) =>
      any.typeUrl == "/cosmos.bank.v1beta1.MsgSend" && read.Some? && read.value.MsgSend? &&
      read.value.fromAddress == signer && read.value.toAddress == toAddress && Carries(read.value.amount, amount)
    case Wasm(Execute(contract, m, funds)) =>
      any.typeUrl == "/cosmwasm.wasm.v1.MsgExecuteContract" && read.Some? && read.value.MsgExecuteContract? &&
      read.value.sender == signer && read.value.contract == contract && read.value.msg == m &&
      Carries(read.value.funds, funds)
    case Wasm(Instantiate(admin, codeId, m, funds, name)) =>
      any.typeUrl == "/cosmwasm.wasm.v1.MsgInstantiateContract" && read.Some? && read.value.MsgInstantiateContract? &&
      read.value.sender == signer && read.value.admin == (if admin.Some? then admin.value else "") &&
      read.value.codeId == codeId && read.value.name == name && read.value.msg == m && Carries(read.value.funds, funds)
    case Wasm(Migrate(contract, newCodeId, m)) =>
      any.typeUrl == "/cosmwasm.wasm.v1.MsgMigrateContract" && read.Some? && read.value.MsgMigrateContract? &&
      read.value.sender == signer && read.value.contract == contract && read.value.codeId == newCodeId && read.value.msg == m
    case Wasm(UpdateAdmin(contract, admin)) =>
      any.typeUrl == "/cosmwasm.wasm.v1.MsgUpdateAdmin" && read.Some? && read.value.MsgUpdateAdmin? &&
      read.value.sender == signer && read.value.contract == contract && read.value.newAdmin == admin
    case Wasm(ClearAdmin(contract)) =>
      any.typeUrl == "/cosmwasm.wasm.v1.MsgClearAdmin" && read.Some? && read.value.MsgClearAdmin? &&
      read.value.sender == signer && read.value.contract == contract
    case _ => false
  }

  lemma CarriesCoins(coins: seq<Coin>)
    ensures Carries(CoinsToProto(coins), coins)
  {
    hide StableSort;
    MappedBack(StableSort(coins));
  }

  lemma ReadBack(p: ProtoMsg, encode: Encoder, decode: Decoder)
    requires Decodes(decode, encode)
    ensures decode(UrlOf(p), encode(p)) == Some(p)
  {
  }

  /** A supported message converts to an Any that says what it says. */
  lemma ConversionSays(msg: CosmosMsg, signer: string, encode: Encoder, decode: Decoder)
    requires Decodes(decode, encode) && Supported(msg)
    ensures var c := CosmosMsgToAny(msg, signer, encode);
      c.Returned? && c.value.Ok? && Says(c.value.value, msg, signer, decode)
  {
    hide Decodes, Carries, CoinsToProto;
    match msg
    case AnyMsg(_, _) =>
    case Bank(Send(to, amount)) =>
      CarriesCoins(amount);
      ReadBack(MsgSend(signer, to, CoinsToProto(amount)), encode, decode);
    case Wasm(m) => WasmConversionSays(m, signer, encode, decode);
  }

  lemma WasmConversionSays(msg: WasmMsg, signer: string, encode: Encoder, decode: Decoder)
    requires Decodes(decode, encode) && !msg.OtherWasm?
    ensures var c := CosmosMsgToAny(Wasm(msg), signer, encode);
      c.Returned? && c.value.Ok? && Says(c.value.value, Wasm(msg), signer, decode)
  {
    hide Decodes, Carries, CoinsToProto;
    match msg
    case Execute(contract, m, funds) =>
      CarriesCoins(funds);
      ReadBack(MsgExecuteContract(signer, contract, m, CoinsToProto(funds)), encode, decode);
    case Instantiate(admin, codeId, m, funds, name) =>
      CarriesCoins(funds);
      ReadBack(MsgInstantiateContract(signer, OrEmpty(admin), codeId, name, m, CoinsToProto(funds)), encode, decode);
    case Migrate(contract, newCodeId, m) =>
      ReadBack(MsgMigrateContract(signer, contract, newCodeId, m), encode, decode);
    case UpdateAdmin(contract, admin) => ReadBack(MsgUpdateAdmin(signer, admin, contract), encode, decode);
    case ClearAdmin(contract) => ReadBack(MsgClearAdmin(signer, contract), encode, decode);
  }

  /** Whether a batch of Cosmos messages converts is decided by the kinds of its messages alone, and
      what it converts to says what they say, in order. */
  lemma CosmosBatchExactly(msgs: seq<CosmosMsg>, signer: string, encode: Encoder, decode: Decoder)
    requires Decodes(decode, encode)
    ensures var r := Collect(CosmosBatch(msgs, signer, encode));
      && ((forall i | 0 <= i < |msgs| :: Supported(msgs[i])) ==>
            r.Returned? && r.value.Ok? && |r.value.value| == |msgs| &&
            forall i | 0 <= i < |msgs| :: Says(r.value.value[i], msgs[i], signer, decode))
      && forall k | 0 <= k < |msgs| && !Supported(msgs[k]) && (forall i | 0 <= i < k :: Supported(msgs[i])) ::
           r == if Unfinished(msgs[k]) then Panicked else Returned(Err(ExecuteError(UNSUPPORTED)))
  {
    hide Collect, CosmosBatch, CosmosMsgToAny, Supported, Unfinished, Says, Decodes;
    CosmosBatchConverts(msgs, signer, encode);
    if forall i | 0 <= i < |msgs| :: Supported(msgs[i]) {
      var list := Collect(CosmosBatch(msgs, signer, encode)).value.value;
      forall i | 0 <= i < |msgs| ensures Says(list[i], msgs[i], signer, decode) {
        assert Returned(Ok(list[i])) == CosmosMsgToAny(msgs[i], signer, encode);
        ConversionSays(msgs[i], signer, encode, decode);
      }
    }
  }

  lemma GoodIsSupported(msg: CosmosMsg, signer: string, encode: Encoder)
    ensures var c := CosmosMsgToAny(msg, signer, encode);
      && (Good(c) <==> Supported(msg))
      && (!Supported(msg) ==> c == if Unfinished(msg) then Panicked else Returned(Err(ExecuteError(UNSUPPORTED))))
  {
  }

  /** A batch of typed messages converts, or yields the error of the first message that does not
      encode; it never panics. */
  lemma TypedBatchExactly(msgs: seq<TypedMsg>)
    ensures var r := Collect(TypedBatch(msgs));
      && ((forall i | 0 <= i < |msgs| :: msgs[i].encoded.Ok?) ==>
            r.Returned? && r.value.Ok? && |r.value.value| == |msgs| &&
            forall i | 0 <= i < |msgs| :: r.value.value[i] == Any(msgs[i].typeUrl, msgs[i].encoded.value))
      && forall k | 0 <= k < |msgs| && msgs[k].encoded.Err? && (forall i | 0 <= i < k :: msgs[i].encoded.Ok?) ::
           r == Returned(Err(msgs[k].encoded.error))
  {
    hide Collect, TypedToAny, Good;
    var batch := TypedBatch(msgs);
    CollectExactly(batch);
    forall i | 0 <= i < |msgs| ensures batch[i] == TypedToAny(msgs[i]) && (Good(batch[i]) <==> msgs[i].encoded.Ok?) {
      GoodIsEncoded(msgs[i]);
    }
    if forall i | 0 <= i < |msgs| :: msgs[i].encoded.Ok? {
      forall i | 0 <= i < |msgs| ensures Collect(batch).value.value[i] == Any(msgs[i].typeUrl, msgs[i].encoded.value) {
        GoodIsEncoded(msgs[i]);
        assert batch[i] == Returned(Ok(Collect(batch).value.value[i]));
      }
    }
    forall k | 0 <= k < |msgs| && msgs[k].encoded.Err? && (forall i | 0 <= i < k :: msgs[i].encoded.Ok?)
      ensures Collect(batch) == Returned(Err(msgs[k].encoded.error))
    {
      GoodIsEncoded(msgs[k]);
      assert forall i | 0 <= i < k :: Good(batch[i]) <==> msgs[i].encoded.Ok?;
    }
  }

  lemma GoodIsEncoded(msg: TypedMsg)
    ensures Good(TypedToAny(msg)) <==> msg.encoded.Ok?
    ensures TypedToAny(msg) ==
            Returned(if msg.encoded.Ok? then Ok(Any(msg.typeUrl, msg.encoded.value)) else Err(msg.encoded.error))
  {
  }

  // ---------- what a converted wasm message still says ----------

  /** The message with its funds in canonical order and no distinction between a missing and an
      empty admin. */
  function Canonical(msg: WasmMsg): WasmMsg {
    match msg
    case Execute(contract, m, funds) => Execute(contract, m, StableSort(funds))
    case Instantiate(admin, codeId, m, funds, name) =>
      Instantiate(Some(OrEmpty(admin)), codeId, m, StableSort(funds), name)
    case _ => msg
  }

  predicate SameType(p: ProtoMsg, q: ProtoMsg) {
    match p
    case MsgSend(_, _, _) => q.MsgSend?
    case MsgExecuteContract(_, _, _, _) => q.MsgExecuteContract?
    case MsgInstantiateContract(_, _, _, _, _, _) => q.MsgInstantiateContract?
    case MsgMigrateContract(_, _, _, _) => q.MsgMigrateContract?
    case MsgUpdateAdmin(_, _, _) => q.MsgUpdateAdmin?
    case MsgClearAdmin(_, _) => q.MsgClearAdmin?
  }

  /** Encodings tell messages of one type apart. Messages of different types may share an encoding,
      since protobuf writes neither the type nor fields with default values. */
  ghost predicate InjectivePerType(encode: Encoder) {
    forall p, q | SameType(p, q) && encode(p) == encode(q) :: p == q
  }

  lemma {:induction false} ProtoDeterminesSort(s: seq<Coin>, t: seq<Coin>)
    ensures CoinsToProto(s) == CoinsToProto(t) <==> StableSort(s) == StableSort(t)
  {
    MappedBack(StableSort(s));
    MappedBack(StableSort(t));
  }

  /** The letter of the type URL at which the five supported kinds differ. */
  function KindLetter(msg: WasmMsg): char {
    match msg
    case Execute(_, _, _) => 'E'
    case Instantiate(_, _, _, _, _) => 'I'
    case Migrate(_, _, _) => 'M'
    case UpdateAdmin(_, _) => 'U'
    case ClearAdmin(_) => 'C'
    case OtherWasm => '?'
  }

  lemma UrlShowsKind(msg: WasmMsg, signer: string, encode: Encoder)
    requires !msg.OtherWasm?
    ensures var r := WasmMsgToAny(msg, signer, encode);
      r.Returned? && r.value.Ok? && |r.value.value.typeUrl| > 21 && r.value.value.typeUrl[21] == KindLetter(msg)
  {
    hide CoinsToProto;
  }

  /** Messages of one kind: the encoded protobuf messages decide. */
  lemma SameKindExactly(m: WasmMsg, n: WasmMsg, signer: string, encode: Encoder)
    requires InjectivePerType(encode) && KindLetter(m) == KindLetter(n)
    ensures WasmMsgToAny(m, signer, encode) == WasmMsgToAny(n, signer, encode) <==> Canonical(m) == Canonical(n)
  {
    hide CoinsToProto, StableSort;
    match m
    case Execute(contract, msg, funds) =>
      ProtoDeterminesSort(funds, n.funds);
      EncodedAlike(encode, MsgExecuteContract(signer, contract, msg, CoinsToProto(funds)),
                   MsgExecuteContract(signer, n.contract, n.msg, CoinsToProto(n.funds)));
    case Instantiate(admin, codeId, msg, funds, name) =>
      ProtoDeterminesSort(funds, n.funds);
      EncodedAlike(encode, MsgInstantiateContract(signer, OrEmpty(admin), codeId, name, msg, CoinsToProto(funds)),
                   MsgInstantiateContract(signer, OrEmpty(n.admin), n.codeId, n.name, n.msg, CoinsToProto(n.funds)));
    case Migrate(contract, codeId, msg) =>
      EncodedAlike(encode, MsgMigrateContract(signer, contract, codeId, msg),
                   MsgMigrateContract(signer, n.contract, n.newCodeId, n.msg));
    case UpdateAdmin(contract, admin) =>
      EncodedAlike(encode, MsgUpdateAdmin(signer, admin, contract), MsgUpdateAdmin(signer, n.newAdmin, n.contract));
    case ClearAdmin(contract) =>
      EncodedAlike(encode, MsgClearAdmin(signer, contract), MsgClearAdmin(signer, n.contract));
    case OtherWasm =>
  }

  lemma EncodedAlike(encode: Encoder, p: ProtoMsg, q: ProtoMsg)
    requires InjectivePerType(encode) && SameType(p, q)
    ensures encode(p) == encode(q) <==> p == q
  {
  }

  /** Two supported wasm messages convert to the same Any exactly when they have the same canonical
      form: beyond coin order and the empty admin nothing is lost or mixed up. */
  lemma WasmConversionExactly(m: WasmMsg, n: WasmMsg, signer: string, encode: Encoder)
    requires InjectivePerType(encode)
    ensures WasmMsgToAny(m, signer, encode) == WasmMsgToAny(n, signer, encode) <==> Canonical(m) == Canonical(n)
  {
    hide WasmMsgToAny, Canonical, KindLetter, InjectivePerType;
    if KindLetter(m) == KindLetter(n) {
      SameKindExactly(m, n, signer, encode);
    } else {
      OtherKindsDiffer(m, n, signer, encode);
      CanonicalKeepsKind(m);
      CanonicalKeepsKind(n);
    }
  }

  lemma OtherKindsDiffer(m: WasmMsg, n: WasmMsg, signer: string, encode: Encoder)
    requires KindLetter(m) != KindLetter(n)
    ensures WasmMsgToAny(m, signer, encode) != WasmMsgToAny(n, signer, encode)
  {
    hide WasmMsgToAny;
    if !m.OtherWasm? { UrlShowsKind(m, signer, encode); }
    if !n.OtherWasm? { UrlShowsKind(n, signer, encode); }
    OtherIsRefused(m, signer, encode);
    OtherIsRefused(n, signer, encode);
  }

  lemma CanonicalKeepsKind(msg: WasmMsg)
    ensures KindLetter(Canonical(msg)) == KindLetter(msg)
  {
  }

  lemma OtherIsRefused(msg: WasmMsg, signer: string, encode: Encoder)
    ensures msg.OtherWasm? <==> WasmMsgToAny(msg, signer, encode) == Returned(Err(ExecuteError(UNSUPPORTED)))
  {
    hide CoinsToProto;
  }
}
