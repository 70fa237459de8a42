/** The LISP Map-Register message (section 6.1.6 of RFC 6830) and its
    builder. The builder's setters overwrite, `addRecord` appends to a list
    the builder owns, and `build()` hands the message the builder's current
    values: the record list and the authentication-data array by reference,
    not copied. Only the message's getters copy. */
module LispProtocols {
  import opened JavaLang
  import opened LispRecords

  /** The LISP control message types, with their type codes (section 6.1 of
      RFC 6830). */
  datatype LispType = LispMapRequest | LispMapReply | LispMapRegister | LispMapNotify | LispEncapsulatedControl
  {
    function TypeCode(): nat {
      match this
      case LispMapRequest => 1
      case LispMapReply => 2
      case LispMapRegister => 3
      case LispMapNotify => 4
      case LispEncapsulatedControl => 8
    }
  }

  /** The growable list of records (`java.util.ArrayList`). Null elements are
      accepted. */
  class RecordList {
    var elements: seq<Option<MapRecord>>

    constructor ()
      ensures elements == []
    {
      elements := [];
    }

    method Add(record: Option<MapRecord>)
      modifies this
      ensures elements == old(elements) + [record]
    {
      elements := elements + [record];
    }
  }

  /** A byte buffer a message may be written to. */
  class ByteBuf {
    var bytes: seq<Int8>

    constructor ()
      ensures bytes == []
    {
      bytes := [];
    }
  }

  /** Everything a register message or builder holds. The records are taken
      by value, the authentication data by reference. */
  datatype RegisterFields = RegisterFields(
    nonce: Int64,
    keyId: Int16,
    authenticationData: array?<Int8>,
    recordCount: Int8,
    records: seq<Option<MapRecord>>,
    proxyMapReply: bool,
    wantMapNotify: bool)

  /** What a fresh builder holds: zeros, false flags, null authentication data
      and no records. */
  const EmptyRegister: RegisterFields := RegisterFields(0, 0, null, 0, [], false, false)

  const CopyFromMessage: string := "Cannot copy from an empty or null array"

  /** `ImmutableList.copyOf`: the records as an immutable value; a null
      element makes it throw. */
  function CopyRecords(elements: seq<Option<MapRecord>>): (r: Result<seq<MapRecord>, JavaException>)
    ensures r.Success? <==> forall i :: 0 <= i < |elements| ==> elements[i].Some?
    ensures r.Failure? ==> r.error.NullPointerException?
    ensures r.Success? ==> |r.value| == |elements|
    ensures r.Success? ==> forall i :: 0 <= i < |elements| ==> elements[i] == Some(r.value[i])
    decreases |elements|
  {
    if elements == [] then Success([])
    else if elements[0].None? then Failure(NullPointerException(""))
    else
      match CopyRecords(elements[1..])
      case Success(rest) => Success([elements[0].value] + rest)
      case Failure(e) => Failure(e)
  }

  /** The built message. Its fields are final, but the record list and the
      authentication-data array are objects shared with whoever built it. */
  class DefaultLispMapRegister {
    const nonce: Int64
    const keyId: Int16
    const authenticationData: array?<Int8>
    const recordCount: Int8
    const mapRecords: RecordList
    const proxyMapReply: bool
    const wantMapNotify: bool

    /** The private constructor: stores every argument as given, the list
        and the array by reference. */
    constructor (nonce: Int64, keyId: Int16, authenticationData: array?<Int8>, recordCount: Int8,
                 mapRecords: RecordList, proxyMapReply: bool, wantMapNotify: bool)
      ensures this.nonce == nonce && this.keyId == keyId && this.recordCount == recordCount
      ensures this.authenticationData == authenticationData && this.mapRecords == mapRecords
      ensures this.proxyMapReply == proxyMapReply && this.wantMapNotify == wantMapNotify
    {
      this.nonce := nonce;
      this.keyId := keyId;
      this.authenticationData := authenticationData;
      this.recordCount := recordCount;
      this.mapRecords := mapRecords;
      this.proxyMapReply := proxyMapReply;
      this.wantMapNotify := wantMapNotify;
    }

    ghost function Fields(): RegisterFields
      reads mapRecords
    {
      RegisterFields(nonce, keyId, authenticationData, recordCount, mapRecords.elements,
                     proxyMapReply, wantMapNotify)
    }

    function GetType(): (t: LispType)
      ensures t == LispMapRegister && t.TypeCode() == 3
    {
      LispMapRegister
    }

    function IsProxyMapReply(): (r: bool)
      reads mapRecords
      ensures r == Fields().proxyMapReply
    {
      proxyMapReply
    }

    function IsWantMapNotify(): (r: bool)
      reads mapRecords
      ensures r == Fields().wantMapNotify
    {
      wantMapNotify
    }

    function GetRecordCount(): (r: Int8)
      reads mapRecords
      ensures r == Fields().recordCount
    {
      recordCount
    }

    function GetNonce(): (r: Int64)
      reads mapRecords
      ensures r == Fields().nonce
    {
      nonce
    }

    function GetKeyId(): (r: Int16)
      reads mapRecords
      ensures r == Fields().keyId
    {
      keyId
    }

    /** `getAuthenticationData`: a fresh array with the stored bytes. The
        byte-sequence library's `copyFrom` rejects a null or an empty array. */
    method GetAuthenticationData() returns (r: Result<array<Int8>, JavaException>)
      ensures authenticationData == null || authenticationData.Length == 0 <==> r.Failure?
      ensures r.Failure? ==> r.error == IllegalArgumentException(CopyFromMessage)
      ensures r.Success? ==> fresh(r.value) && r.value[..] == authenticationData[..]
    {
      if authenticationData == null || authenticationData.Length == 0 {
        return Failure(IllegalArgumentException(CopyFromMessage));
      }
      var source := authenticationData;
      var copy := new Int8[source.Length](i reads source requires 0 <= i < source.Length => source[i]);
      return Success(copy);
    }

    /** `getLispRecords`: the records as they are now, as an immutable copy. */
    function GetLispRecords(): (r: Result<seq<MapRecord>, JavaException>)
      reads mapRecords
      ensures r == CopyRecords(mapRecords.elements)
    {
      CopyRecords(mapRecords.elements)
    }

    /** `createBuilder`: a new, empty builder; nothing of this message is
        copied into it. */
    method CreateBuilder() returns (builder: DefaultRegisterBuilder)
      ensures fresh(builder) && fresh(builder.mapRecords)
      ensures builder.Fields() == EmptyRegister
    {
      builder := new DefaultRegisterBuilder();
    }

    /** `writeTo`: serialisation is not implemented; nothing is written. */
    method WriteTo(byteBuf: ByteBuf)
      ensures byteBuf.bytes == old(byteBuf.bytes)
    {
    }
  }

  /** The builder. Every setter overwrites one field and returns the builder
      itself; the record list is created with the builder and only grows. */
  class DefaultRegisterBuilder {
    var nonce: Int64
    var keyId: Int16
    var authenticationData: array?<Int8>
    var recordCount: Int8
    const mapRecords: RecordList
    var proxyMapReply: bool
    var wantMapNotify: bool

    ghost function Fields(): RegisterFields
      reads this, mapRecords
    {
      RegisterFields(nonce, keyId, authenticationData, recordCount, mapRecords.elements,
                     proxyMapReply, wantMapNotify)
    }

    constructor ()
      ensures Fields() == EmptyRegister
      ensures fresh(mapRecords)
    {
      nonce, keyId, authenticationData, recordCount := 0, 0, null, 0;
      proxyMapReply, wantMapNotify := false, false;
      mapRecords := new RecordList();
    }

    function GetType(): (t: LispType)
      ensures t == LispMapRegister && t.TypeCode() == 3
    {
      LispMapRegister
    }

    method WithIsProxyMapReply(proxyMapReply: bool) returns (builder: DefaultRegisterBuilder)
      modifies this
      ensures builder == this
      ensures Fields() == old(Fields()).(proxyMapReply := proxyMapReply)
    {
      this.proxyMapReply := proxyMapReply;
      builder := this;
    }

    method WithIsWantMapNotify(wantMapNotify: bool) returns (builder: DefaultRegisterBuilder)
      modifies this
      ensures builder == this
      ensures Fields() == old(Fields()).(wantMapNotify := wantMapNotify)
    {
      this.wantMapNotify := wantMapNotify;
      builder := this;
    }

    /** The count is stored as given; it is never compared with the number
        of records added. */
    method WithRecordCount(recordCount: Int8) returns (builder: DefaultRegisterBuilder)
      modifies this
      ensures builder == this
      ensures Fields() == old(Fields()).(recordCount := recordCount)
    {
      this.recordCount := recordCount;
      builder := this;
    }

    method WithNonce(nonce: Int64) returns (builder: DefaultRegisterBuilder)
      modifies this
      ensures builder == this
      ensures Fields() == old(Fields()).(nonce := nonce)
    {
      this.nonce := nonce;
      builder := this;
    }

    method WithKeyId(keyId: Int16) returns (builder: DefaultRegisterBuilder)
      modifies this
      ensures builder == this
      ensures Fields() == old(Fields()).(keyId := keyId)
    {
      this.keyId := keyId;
      builder := this;
    }

    /** Stores the caller's array itself, not a copy. */
    method WithAuthenticationData(authenticationData: array?<Int8>) returns (builder: DefaultRegisterBuilder)
      modifies this
      ensures builder == this
      ensures Fields() == old(Fields()).(authenticationData := authenticationData)
    {
      this.authenticationData := authenticationData;
      builder := this;
    }

    method AddRecord(record: Option<MapRecord>) returns (builder: DefaultRegisterBuilder)
      modifies mapRecords
      ensures builder == this
      ensures Fields() == old(Fields()).(records := old(mapRecords.elements) + [record])
    {
      mapRecords.Add(record);
      builder := this;
    }

    /** `build`: a new message with the current values; the message shares
        this builder's record list and authentication-data array. */
    method Build() returns (message: DefaultLispMapRegister)
      ensures fresh(message)
      ensures message.Fields() == Fields()
      ensures message.mapRecords == mapRecords
      ensures message.authenticationData == authenticationData
    {
      message := new DefaultLispMapRegister(nonce, keyId, authenticationData, recordCount,
                                            mapRecords, proxyMapReply, wantMapNotify);
    }
  }

  // ---------------------------------------------------------------------
  // What callers can observe
  // ---------------------------------------------------------------------

  /** The last call of a setter wins, and `build()` hands its value to the
      message's getter. */
  method LastSetterWins(first: Int64, second: Int64) returns (message: DefaultLispMapRegister)
    ensures message.GetNonce() == second
  {
    var builder := new DefaultRegisterBuilder();
    var _ := builder.WithNonce(first);
    var _ := builder.WithNonce(second);
    message := builder.Build();
  }

  /** Records come back in the order they were added, whatever record count
      was set. */
  method RecordsKeepOrderAndCountIsUnchecked(r1: MapRecord, r2: MapRecord, count: Int8)
    returns (message: DefaultLispMapRegister)
    ensures message.GetRecordCount() == count
    ensures message.GetLispRecords() == Success([r1, r2])
  {
    var builder := new DefaultRegisterBuilder();
    var _ := builder.WithRecordCount(count);
    var _ := builder.AddRecord(Some(r1));
    var _ := builder.AddRecord(Some(r2));
    message := builder.Build();
    assert message.mapRecords.elements == [Some(r1), Some(r2)];
    var copied := message.GetLispRecords();
    assert message.mapRecords.elements[0] == Some(r1) && message.mapRecords.elements[1] == Some(r2);
    assert copied.Success? && |copied.value| == 2;
    assert copied.value[0] == r1 && copied.value[1] == r2;
    assert copied.value == [r1, r2];
  }

  /** A null record is accepted by `addRecord`, but then `getLispRecords`
      throws. */
  method NullRecordBreaksGetLispRecords(r: MapRecord) returns (message: DefaultLispMapRegister)
    ensures message.GetLispRecords().Failure?
  {
    var builder := new DefaultRegisterBuilder();
    var _ := builder.AddRecord(Some(r));
    var _ := builder.AddRecord(None);
    message := builder.Build();
    assert message.mapRecords.elements[1].None?;
  }

  /** A message built without authentication data cannot report any: the
      getter throws. */
  method DefaultAuthenticationDataIsUnreadable() returns (r: Result<array<Int8>, JavaException>)
    ensures r == Failure(IllegalArgumentException(CopyFromMessage))
  {
    var builder := new DefaultRegisterBuilder();
    var message := builder.Build();
    r := message.GetAuthenticationData();
  }

  /** Records added to the builder after `build()` show through the message
      already built, because both hold the same list. */
  method AddAfterBuildIsVisible(builder: DefaultRegisterBuilder, record: MapRecord)
    returns (message: DefaultLispMapRegister)
    modifies builder.mapRecords
    ensures message.mapRecords.elements == old(builder.mapRecords.elements) + [Some(record)]
  {
    message := builder.Build();
    var _ := builder.AddRecord(Some(record));
  }

  /** Writes to the caller's array after `build()` show through the message's
      getter, because the message keeps that array. */
  method CallerWritesAfterBuildAreVisible(auth: array<Int8>, i: nat, b: Int8)
    returns (message: DefaultLispMapRegister, read: Result<array<Int8>, JavaException>)
    requires i < auth.Length
    modifies auth
    ensures read.Success? && i < read.value.Length && read.value[i] == b
  {
    var builder := new DefaultRegisterBuilder();
    var _ := builder.WithAuthenticationData(auth);
    message := builder.Build();
    auth[i] := b;
    read := message.GetAuthenticationData();
  }

  /** The getter hands out a copy: changing the returned array does not
      change what the next call returns. */
  method ReturnedAuthenticationDataIsACopy(message: DefaultLispMapRegister)
    returns (first: array<Int8>, second: array<Int8>)
    requires message.authenticationData != null && message.authenticationData.Length > 0
    ensures first != second && first != message.authenticationData
    ensures second[..] == message.authenticationData[..]
    ensures first.Length == second.Length > 0 && first[0] != second[0]
  {
    var r1 := message.GetAuthenticationData();
    first := r1.value;
    first[0] := if first[0] == 0 then 1 else 0;
    var r2 := message.GetAuthenticationData();
    second := r2.value;
  }
}
