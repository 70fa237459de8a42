/** The JSON codec of the AS address extension: `{"asNumber": int,
    "address": object?}`. The nested mapping address goes through the codec
    the context registers for mapping addresses. */
module LispCodec {
  import opened JavaLang
  import opened Mapping

  /** A JSON node. `JNull` is a JSON null node, not a null reference; an
      `int` member is a `JInt` node. */
  datatype Json =
    | JNull
    | JBool(b: bool)
    | JInt(i: Int32)
    | JText(text: string)
    | JArray(items: seq<Json>)
    | JObject(members: map<string, Json>)

  /** The AS address extension: an AS number and an optional mapping address. */
  datatype LispAsAddress = LispAsAddress(asNumber: Int32, address: Option<MappingAddress>)

  /** What the codec takes from its context: the registered mapping-address
      codec, and how a non-int node reads as an `int` (`asInt` on other node
      kinds is the JSON library's business). */
  datatype CodecContext = CodecContext(
    encodeAddress: MappingAddress -> map<string, Json>,
    decodeAddress: map<string, Json> -> Option<MappingAddress>,
    coerceInt: Json -> Int32)

  const AsNumber: string := "asNumber"
  const Address: string := "address"
  const MissingMemberMessage: string := " member is required in LispAsAddress"
  const NullAddressMessage: string := "LispAsAddress cannot be null"

  /** `asInt`: an int node reads as its value; other nodes as the JSON library
      coerces them. */
  function AsInt(node: Json, context: CodecContext): Int32 {
    if node.JInt? then node.i else context.coerceInt(node)
  }

  /** `get(parent, name)`: the named member when it is an object node;
      otherwise null. */
  function GetObject(parent: map<string, Json>, name: string): Option<map<string, Json>> {
    if name in parent && parent[name].JObject? then Some(parent[name].members) else None
  }

  /** `encode`: a null address is rejected; otherwise the object holds
      `asNumber`, and `address` exactly when the nested address is non-null. */
  function Encode(address: Option<LispAsAddress>, context: CodecContext): (r: Result<map<string, Json>, JavaException>)
    ensures address.None? <==> r.Failure?
    ensures r.Failure? ==> r.error == NullPointerException(NullAddressMessage)
    ensures r.Success? ==> r.value.Keys <= {AsNumber, Address}
    ensures r.Success? ==> AsNumber in r.value && r.value[AsNumber] == JInt(address.value.asNumber)
    ensures r.Success? ==> (Address in r.value <==> address.value.address.Some?)
    ensures r.Success? && Address in r.value ==>
              r.value[Address] == JObject(context.encodeAddress(address.value.address.value))
  {
    if address.None? then Failure(NullPointerException(NullAddressMessage))
    else
      var a := address.value;
      var result := map[AsNumber := JInt(a.asNumber)];
      if a.address.Some? then
        Success(result[Address := JObject(context.encodeAddress(a.address.value))])
      else
        Success(result)
  }

  /** `decode`: null or a non-object gives null; an object without `asNumber`
      raises an illegal-argument error; otherwise the address has the
      `asNumber` member's int value, and its nested address is the nested
      codec's decoding of `address` when that member is an object, null
      otherwise. */
  function Decode(json: Option<Json>, context: CodecContext): (r: Result<Option<LispAsAddress>, JavaException>)
    ensures json.None? || !json.value.JObject? ==> r == Success(None)
    ensures json.Some? && json.value.JObject? ==> (r.Failure? <==> AsNumber !in json.value.members)
    ensures r.Failure? ==> r.error == IllegalArgumentException(AsNumber + MissingMemberMessage)
    ensures r.Success? && json.Some? && json.value.JObject? ==>
              var m := json.value.members;
              && r.value.Some?
              && r.value.value.asNumber == AsInt(m[AsNumber], context)
              && (GetObject(m, Address).None? ==> r.value.value.address.None?)
              && (GetObject(m, Address).Some? ==>
                    r.value.value.address == context.decodeAddress(GetObject(m, Address).value))
  {
    if json.None? || !json.value.JObject? then Success(None)
    else
      var m := json.value.members;
      if AsNumber !in m then Failure(IllegalArgumentException(AsNumber + MissingMemberMessage))
      else
        var asNumber := AsInt(m[AsNumber], context);
        var addressJson := GetObject(m, Address);
        var mappingAddress := if addressJson.Some? then context.decodeAddress(addressJson.value) else None;
        Success(Some(LispAsAddress(asNumber, mappingAddress)))
  }

  /** Decoding an encoding keeps the AS number, gives a null nested address
      when there was none, and otherwise whatever the nested codec makes of
      its own encoding. */
  lemma DecodeOfEncode(a: LispAsAddress, context: CodecContext)
    ensures Encode(Some(a), context).Success?
    ensures var d := Decode(Some(JObject(Encode(Some(a), context).value)), context);
      && d.Success? && d.value.Some?
      && d.value.value.asNumber == a.asNumber
      && (a.address.None? ==> d.value.value.address.None?)
      && (a.address.Some? ==> d.value.value.address == context.decodeAddress(context.encodeAddress(a.address.value)))
  {
  }

  /** The round trip: when the nested codec round-trips the nested address
      (always, if there is none), decoding the encoding gives the address back. */
  lemma RoundTrip(a: LispAsAddress, context: CodecContext)
    requires a.address.Some? ==> context.decodeAddress(context.encodeAddress(a.address.value)) == a.address
    ensures Encode(Some(a), context).Success?
    ensures Decode(Some(JObject(Encode(Some(a), context).value)), context) == Success(Some(a))
  {
    DecodeOfEncode(a, context);
  }

  /** An object missing `asNumber` never decodes to a default-valued address,
      whatever else it holds. */
  lemma MissingAsNumberAlwaysFails(members: map<string, Json>, context: CodecContext)
    requires AsNumber !in members
    ensures Decode(Some(JObject(members)), context) == Failure(IllegalArgumentException("asNumber member is required in LispAsAddress"))
  {
    assert AsNumber + MissingMemberMessage == "asNumber member is required in LispAsAddress";
  }
}
