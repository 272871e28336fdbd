/** The parameter type registry (params.go). The struct is copied with the environment, the Go map
    inside it and the prototypes it points to are shared by all copies. */
module Registry {
  import opened Outcomes

  /** A protobuf parameter set on the heap. */
  class ProtoParamSet {
    const messageName: string
    var fields: bytes

    constructor (messageName: string, fields: bytes)
      ensures this.messageName == messageName && this.fields == fields
    {
      this.messageName, this.fields := messageName, fields;
    }

    /** proto.Clone. */
    method Clone() returns (copy: ProtoParamSet)
      ensures fresh(copy) && copy.messageName == messageName && copy.fields == fields
    {
      copy := new ProtoParamSet(messageName, fields);
    }

    method Reset()
      modifies this
      ensures fields == []
    {
      fields := [];
    }
  }

  /** A Go map: a reference, so copies of a struct that holds it share its entries. */
  class GoMap {
    var entries: map<string, ProtoParamSet>

    constructor ()
      ensures entries == map[]
    {
      entries := map[];
    }
  }

  datatype ParamTypeRegistry = ParamTypeRegistry(m: GoMap)
  {
    method RegisterParamSet(p: ProtoParamSet)
      modifies m
      ensures m.entries == old(m.entries)["/" + p.messageName := p]
    {
      m.entries := m.entries["/" + p.messageName := p];
    }

    /** A fresh, empty set of the registered type. Nothing that existed before is written. */
    method GetEmptyParamsSet(typeUrl: string) returns (r: Option<ProtoParamSet>)
      ensures r.Some? <==> typeUrl in m.entries
      ensures r.Some? ==> fresh(r.value) && r.value.messageName == m.entries[typeUrl].messageName && r.value.fields == []
    {
      if typeUrl !in m.entries { return None; }
      var pset := m.entries[typeUrl].Clone();
      pset.Reset();
      return Some(pset);
    }

    /** `decoded` is what proto.Unmarshal reads from the value, None when it fails. */
    method UnpackAny(typeUrl: string, decoded: Option<bytes>) returns (r: Option<ProtoParamSet>)
      ensures r.Some? <==> typeUrl in m.entries && decoded.Some?
      ensures r.Some? ==>
                fresh(r.value) && r.value.messageName == m.entries[typeUrl].messageName && r.value.fields == decoded.value
    {
      var msg := GetEmptyParamsSet(typeUrl);
      if msg.None? || decoded.None? { return None; }
      msg.value.fields := decoded.value;
      return msg;
    }
  }

  const FT := "coreum.asset.ft.v1.Params"
  const NFT := "coreum.asset.nft.v1.Params"

  /** The type URLs of a new environment. */
  const REGISTERED: set<string> := {"/" + FT, "/" + NFT}

  lemma RegisteredAre()
    ensures REGISTERED == {"/coreum.asset.ft.v1.Params", "/coreum.asset.nft.v1.Params"}
  {
    assert "/" + FT == "/coreum.asset.ft.v1.Params" && "/" + NFT == "/coreum.asset.nft.v1.Params";
  }

  /** SetupParamTypes registers through a copy of the struct; the environment's own copy sees both
      types because the map is shared. */
  method SetupParamTypes(registry: ParamTypeRegistry)
    modifies registry.m
    ensures registry.m.entries.Keys == old(registry.m.entries).Keys + REGISTERED
    ensures forall k | k in REGISTERED :: "/" + registry.m.entries[k].messageName == k
  {
    var pReg := registry;
    var ft := new ProtoParamSet(FT, []);
    pReg.RegisterParamSet(ft);
    var nft := new ProtoParamSet(NFT, []);
    pReg.RegisterParamSet(nft);
    assert FT[13] == 'f' && NFT[13] == 'n';
    assert "/" + FT != "/" + NFT by { assert ("/" + FT)[14] != ("/" + NFT)[14]; }
  }
}
