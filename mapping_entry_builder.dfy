/** The mapping-entry builder: it translates one decoded LISP map record into
    a protocol-neutral mapping entry. The action code becomes a mapping
    action, the EID-prefix address becomes the key's mapping address, every
    locator becomes a treatment, and the entry is assembled in state ADDED
    under an identifier the caller supplies. */
module MappingUtil {
  import opened JavaLang
  import opened LispTypes
  import opened LispRecords
  import opened Mapping

  /** The prefix lengths given to IPv4 and IPv6 addresses: the wire address
      stands for one host. */
  const Ipv4PrefixLength: nat := 32
  const Ipv6PrefixLength: nat := 128

  /** The families `GetAddress` translates; every other family, LCAF
      included, yields no mapping address. */
  const TranslatedFamilies: set<Afi> := {IP4, IP6, AS, DistinguishedName, MAC}

  // ---------------------------------------------------------------------
  // Action translation
  // ---------------------------------------------------------------------

  /** `buildAction`: a total translation with a permissive default. A null
      record, and any action code other than the four assigned ones, give
      no-action. */
  function BuildAction(record: Option<MapRecord>): (action: MappingAction)
    ensures record.None? ==> action == NoMappingAction
    ensures record.Some? && record.value.action == NoAction ==> action == NoMappingAction
    ensures record.Some? && record.value.action == SendMapRequest ==> action == ForwardMappingAction
    ensures record.Some? && record.value.action == NativelyForward ==> action == NativeForwardMappingAction
    ensures record.Some? && record.value.action == Drop ==> action == DropMappingAction
    ensures record.Some? && record.value.action.Unassigned? ==> action == NoMappingAction
  {
    if record.None? then NoMappingAction
    else
      match record.value.action
      case NoAction => NoMappingAction
      case SendMapRequest => ForwardMappingAction
      case NativelyForward => NativeForwardMappingAction
      case Drop => DropMappingAction
      case Unassigned(_) => NoMappingAction
  }

  /** The four assigned action codes reach four different mapping actions, and
      every mapping action is reached: only the unassigned codes (and a null
      record) are folded into no-action. */
  lemma AssignedActionsTranslateOneToOne(r1: MapRecord, r2: MapRecord, target: MappingAction)
    requires !r1.action.Unassigned? && !r2.action.Unassigned?
    ensures BuildAction(Some(r1)) == BuildAction(Some(r2)) <==> r1.action == r2.action
    ensures exists act: ReplyAction :: !act.Unassigned? && BuildAction(Some(r1.(action := act))) == target
  {
    var act := match target
      case NoMappingAction => NoAction
      case ForwardMappingAction => SendMapRequest
      case NativeForwardMappingAction => NativelyForward
      case DropMappingAction => Drop;
    assert BuildAction(Some(r1.(action := act))) == target;
  }

  // ---------------------------------------------------------------------
  // Address translation
  // ---------------------------------------------------------------------

  /** `afi2MappingAddress`: only IP families translate; IPv4 becomes a /32
      prefix and IPv6 a /128 prefix of the same address. */
  function Afi2MappingAddress(afiAddress: AfiAddress): (r: Option<MappingAddress>)
    ensures r.Some? <==> afiAddress.GetAfi() in {IP4, IP6}
    ensures afiAddress.Ipv4Address? ==> r == Some(Ipv4MappingAddress(IpPrefix(afiAddress.ip, 32)))
    ensures afiAddress.Ipv6Address? ==> r == Some(Ipv6MappingAddress(IpPrefix(afiAddress.ip, 128)))
  {
    match afiAddress
    case Ipv4Address(ip) => Some(Ipv4MappingAddress(IpPrefix(ip, Ipv4PrefixLength)))
    case Ipv6Address(ip) => Some(Ipv6MappingAddress(IpPrefix(ip, Ipv6PrefixLength)))
    case _ => None
  }

  /** `lcaf2Extension`: no LCAF address is translated yet. */
  function Lcaf2Extension(lcaf: AfiAddress): (r: Option<MappingAddress>)
    requires lcaf.GetAfi() == LCAF
    ensures r.None?
  {
    None
  }

  /** `getAddress`: dispatch on the AFI. It never raises: a null address and
      every family outside `TranslatedFamilies` give no mapping address. */
  function GetAddress(address: Option<AfiAddress>): (r: Option<MappingAddress>)
    ensures r.Some? <==> address.Some? && address.value.GetAfi() in TranslatedFamilies
  {
    if address.None? then None
    else
      var a := address.value;
      match a
      case Ipv4Address(_) => Afi2MappingAddress(a)
      case Ipv6Address(_) => Afi2MappingAddress(a)
      case AsAddress(asNum) => Some(AsMappingAddress(StringValueOf(asNum)))
      case DnAddress(dn) => Some(DnMappingAddress(dn.GetDistinguishedName()))
      case MacAddr(mac) => Some(EthMappingAddress(mac.GetAddress()))
      case LcafAddress(_) => Lcaf2Extension(a)
      case _ => None
  }

  /** An IPv4 address becomes an IPv4 mapping address with prefix length 32,
      and an IPv6 address an IPv6 one with prefix length 128, whatever the
      address value. */
  lemma IpAddressesBecomeHostPrefixes(ip: IpAddress)
    ensures GetAddress(Some(Ipv4Address(ip))) == Some(Ipv4MappingAddress(IpPrefix(ip, 32)))
    ensures GetAddress(Some(Ipv6Address(ip))) == Some(Ipv6MappingAddress(IpPrefix(ip, 128)))
  {
  }

  /** An AS address becomes an AS mapping address whose text is the decimal
      rendering of its AS number: an optional minus sign then digits, reading
      back as the same number. */
  lemma {:induction false} AsAddressBecomesDecimalText(asNum: Int32)
    ensures GetAddress(Some(AsAddress(asNum))).Some?
    ensures GetAddress(Some(AsAddress(asNum))).value.AsMappingAddress?
    ensures ParseInt(GetAddress(Some(AsAddress(asNum))).value.asNumber) == Some(asNum)
  {
    ParseStringValueOf(asNum);
  }

  /** Distinguished names and MACs pass through unchanged, null included. */
  lemma NamesAndMacsPassThrough(name: Option<string>, mac: Option<MacAddress>)
    ensures GetAddress(Some(NewDistinguishedNameAddress(name))) == Some(DnMappingAddress(name))
    ensures GetAddress(Some(NewMacAddress(mac))) == Some(EthMappingAddress(mac))
  {
  }

  /** A null address, any LCAF address and the families the switch does not
      list give no mapping address. */
  lemma UntranslatedAddressesGiveNone(lcafType: nat)
    ensures GetAddress(None).None?
    ensures GetAddress(Some(LcafAddress(lcafType))).None?
    ensures GetAddress(Some(NoAddr)).None?
    ensures GetAddress(Some(UnknownAddr)).None?
  {
  }

  /** The inverse direction of the translation, used to show it loses
      nothing: a host prefix gives back its address, a decimal AS text its
      number, a name or MAC itself. */
  function RecoverAfiAddress(m: MappingAddress): Option<AfiAddress> {
    match m
    case Ipv4MappingAddress(p) =>
      if p.prefixLength == Ipv4PrefixLength then Some(Ipv4Address(p.address)) else None
    case Ipv6MappingAddress(p) =>
      if p.prefixLength == Ipv6PrefixLength then Some(Ipv6Address(p.address)) else None
    case AsMappingAddress(text) =>
      (match ParseInt(text)
       case Some(n) => if -0x8000_0000 <= n < 0x8000_0000 then Some(AsAddress(n)) else None
       case None => None)
    case DnMappingAddress(name) => Some(DnAddress(LispDistinguishedNameAddress(name)))
    case EthMappingAddress(mac) => Some(MacAddr(LispMacAddress(mac)))
  }

  /** Every address that translates can be recovered from its translation, so
      two different addresses never share a mapping address. */
  lemma {:induction false} TranslationIsLossless(a: AfiAddress)
    requires GetAddress(Some(a)).Some?
    ensures RecoverAfiAddress(GetAddress(Some(a)).value) == Some(a)
  {
    if a.AsAddress? {
      ParseStringValueOf(a.asNum);
    }
  }

  lemma TranslationIsInjective(a: AfiAddress, b: AfiAddress)
    requires GetAddress(Some(a)).Some? && GetAddress(Some(b)).Some?
    ensures GetAddress(Some(a)) == GetAddress(Some(b)) <==> a == b
  {
    TranslationIsLossless(a);
    TranslationIsLossless(b);
  }

  /** `buildAddress`: the record's EID-prefix address, translated; a null
      record gives no mapping address. */
  function BuildAddress(record: Option<MapRecord>): (r: Option<MappingAddress>)
    ensures record.None? ==> r.None?
    ensures record.Some? ==> r == GetAddress(record.value.eidPrefixAfi)
  {
    if record.None? then None else GetAddress(record.value.eidPrefixAfi)
  }

  // ---------------------------------------------------------------------
  // Treatments
  // ---------------------------------------------------------------------

  /** The treatment of one locator: its four numbers unchanged, and its
      address only when the address translates. */
  function TreatmentOf(locator: Locator): (t: MappingTreatment)
    ensures t.address.Some? <==> GetAddress(locator.locatorAfi).Some?
    ensures t.address.Some? ==> t.address == GetAddress(locator.locatorAfi)
    ensures t.unicastWeight == locator.weight && t.unicastPriority == locator.priority
    ensures t.multicastWeight == locator.multicastWeight && t.multicastPriority == locator.multicastPriority
  {
    MappingTreatment(
      GetAddress(locator.locatorAfi),
      locator.weight, locator.priority, locator.multicastWeight, locator.multicastPriority)
  }

  /** The treatments of a locator list: one per locator, in locator order. */
  function TreatmentsOf(locators: seq<Locator>): (ts: seq<MappingTreatment>)
    ensures |ts| == |locators|
    ensures forall i :: 0 <= i < |ts| ==> ts[i] == TreatmentOf(locators[i])
    decreases |locators|
  {
    if locators == [] then [] else [TreatmentOf(locators[0])] + TreatmentsOf(locators[1..])
  }

  /** The treatments a record yields; a null record yields none. */
  function TreatmentsFor(record: Option<MapRecord>): seq<MappingTreatment> {
    if record.None? then [] else TreatmentsOf(record.value.locators)
  }

  /** The loop of `buildTreatments`: builds one treatment per locator and
      appends it. */
  method BuildLocatorTreatments(locators: seq<Locator>) returns (treatments: seq<MappingTreatment>)
    ensures |treatments| == |locators|
    ensures forall i :: 0 <= i < |locators| ==> treatments[i] == TreatmentOf(locators[i])
    ensures treatments == TreatmentsOf(locators)
  {
    treatments := [];
    for i := 0 to |locators|
      invariant |treatments| == i
      invariant forall k :: 0 <= k < i ==> treatments[k] == TreatmentOf(locators[k])
    {
      var locator := locators[i];
      var mappingAddress := GetAddress(locator.locatorAfi);
      var treatment := MappingTreatment(None, locator.weight, locator.priority,
                                        locator.multicastWeight, locator.multicastPriority);
      if mappingAddress.Some? {
        treatment := treatment.(address := mappingAddress);
      }
      treatments := treatments + [treatment];
    }
  }

  /** `buildTreatments` as written: it reads the record's locators without a
      null check, so a null record throws. */
  method BuildTreatmentsAsWritten(record: Option<MapRecord>) returns (r: Result<seq<MappingTreatment>, JavaException>)
    ensures record.None? <==> r.Failure?
    ensures r.Failure? ==> r.error.NullPointerException?
    ensures record.Some? ==> r == Success(TreatmentsOf(record.value.locators))
  {
    if record.None? {
      return Failure(NullPointerException(""));
    }
    var treatments := BuildLocatorTreatments(record.value.locators);
    return Success(treatments);
  }

  /** `buildTreatments` with the null record handled as `buildAddress` and
      `buildAction` handle it: a null record has no treatments. */
  method BuildTreatments(record: Option<MapRecord>) returns (treatments: seq<MappingTreatment>)
    ensures record.None? ==> treatments == []
    ensures record.Some? ==> |treatments| == |record.value.locators|
    ensures record.Some? ==> forall i :: 0 <= i < |treatments| ==> treatments[i] == TreatmentOf(record.value.locators[i])
    ensures treatments == TreatmentsFor(record)
  {
    if record.None? {
      return [];
    }
    treatments := BuildLocatorTreatments(record.value.locators);
  }

  // ---------------------------------------------------------------------
  // The entry
  // ---------------------------------------------------------------------

  /** The entry `build()` returns for a device, a record and an identifier. */
  function EntryFor(deviceId: DeviceId, record: Option<MapRecord>, id: Int64): MappingEntry {
    MappingEntry(id, deviceId,
                 MappingKey(BuildAddress(record)),
                 MappingValue(BuildAction(record), TreatmentsFor(record)),
                 Added)
  }

  /** The shape of every built entry: the key wraps the translated EID
      address, the value holds the translated action and one treatment per
      locator in order, and the state is ADDED. */
  lemma {:induction false} EntryShape(deviceId: DeviceId, record: MapRecord, id: Int64)
    ensures var e := EntryFor(deviceId, Some(record), id);
      && e.id == id && e.deviceId == deviceId && e.state == Added
      && e.key.address == GetAddress(record.eidPrefixAfi)
      && e.value.action == BuildAction(Some(record))
      && |e.value.treatments| == |record.locators|
      && forall i :: 0 <= i < |record.locators| ==>
           e.value.treatments[i].unicastWeight == record.locators[i].weight
           && e.value.treatments[i].unicastPriority == record.locators[i].priority
           && e.value.treatments[i].multicastWeight == record.locators[i].multicastWeight
           && e.value.treatments[i].multicastPriority == record.locators[i].multicastPriority
           && (e.value.treatments[i].address.Some? <==> GetAddress(record.locators[i].locatorAfi).Some?)
  {
    var ts := TreatmentsOf(record.locators);
    forall i | 0 <= i < |record.locators|
      ensures ts[i] == TreatmentOf(record.locators[i])
    {
    }
  }

  /** Two builds from the same record differ in their identifier and in
      nothing else. */
  lemma BuildsDifferOnlyInId(deviceId: DeviceId, record: Option<MapRecord>, id1: Int64, id2: Int64)
    ensures EntryFor(deviceId, record, id1).(id := id2) == EntryFor(deviceId, record, id2)
    ensures EntryFor(deviceId, record, id1) == EntryFor(deviceId, record, id2) <==> id1 == id2
  {
  }

  /** With the null record handled, a null record gives an entry whose key
      wraps no address, whose action is no-action and which has no
      treatments. */
  lemma NullRecordGivesEmptyEntry(deviceId: DeviceId, id: Int64)
    ensures EntryFor(deviceId, None, id).key.address.None?
    ensures EntryFor(deviceId, None, id).value == MappingValue(NoMappingAction, [])
    ensures EntryFor(deviceId, None, id).state == Added
  {
  }

  /** The builder object: the constructor translates the record once into
      final fields, and `build()` assembles an entry from them. */
  class MappingEntryBuilder {
    const deviceId: DeviceId
    const address: Option<MappingAddress>
    const action: MappingAction
    const treatments: seq<MappingTreatment>
    /** The record the fields were computed from. */
    ghost const record: Option<MapRecord>

    ghost predicate Valid() {
      address == BuildAddress(record)
      && action == BuildAction(record)
      && treatments == TreatmentsFor(record)
    }

    constructor (deviceId: DeviceId, record: Option<MapRecord>)
      ensures Valid()
      ensures this.deviceId == deviceId && this.record == record
    {
      var ts := BuildTreatments(record);
      this.deviceId := deviceId;
      this.record := record;
      this.address := BuildAddress(record);
      this.action := BuildAction(record);
      this.treatments := ts;
    }

    /** `buildKey`: the key wraps the translated EID address, possibly none. */
    function BuildKey(): (key: MappingKey)
      requires Valid()
      ensures key.address == BuildAddress(record)
    {
      MappingKey(address)
    }

    /** `buildValue`: the action, then every treatment added in order. */
    method BuildValue() returns (value: MappingValue)
      requires Valid()
      ensures value.action == BuildAction(record)
      ensures value.treatments == TreatmentsFor(record)
    {
      var added: seq<MappingTreatment> := [];
      for i := 0 to |treatments|
        invariant added == treatments[..i]
      {
        added := added + [treatments[i]];
      }
      value := MappingValue(action, added);
    }

    /** `build`: the identifier is the caller's (the source draws it at
        random); the state is always ADDED. */
    method Build(id: Int64) returns (entry: MappingEntry)
      requires Valid()
      ensures entry == EntryFor(deviceId, record, id)
      ensures entry.state == Added && entry.id == id && entry.deviceId == deviceId
    {
      var key := BuildKey();
      var value := BuildValue();
      entry := MappingEntry(id, deviceId, key, value, Added);
    }
  }
}
