/** The LISP address model: every address carries an address family
    identifier (AFI) and one payload whose kind the AFI fixes. The two value
    classes with hand-written `equals`/`hashCode`, the distinguished-name
    address and the MAC address, are modelled member by member. */
module LispTypes {
  import opened JavaLang

  /** The address family identifiers the LISP messages use. */
  datatype Afi = NoAddress | IP4 | IP6 | DistinguishedName | AS | LCAF | MAC | Unknown

  /** An IP address of the packet library, kept as its octets. */
  datatype IpAddress = IpAddress(octets: seq<bv8>)

  /** A MAC address of the packet library, kept as its octets. */
  datatype MacAddress = MacAddress(octets: seq<bv8>)

  /** What a Java `equals(Object)` may be handed: null, a LISP address, or an
      object of some unrelated class. */
  datatype JavaObject = NullReference | AddressObject(address: AfiAddress) | OtherObject

  /** A distinguished-name address. The name may be null: the constructor
      stores whatever it is given. */
  datatype LispDistinguishedNameAddress = LispDistinguishedNameAddress(distinguishedName: Option<string>)
  {
    /** The getter: the name the address was built from, which rebuilds the
        same address. */
    function GetDistinguishedName(): (name: Option<string>)
      ensures NewDistinguishedNameAddress(name) == DnAddress(this)
    {
      distinguishedName
    }

    /** `hashCode`: `Objects.hash` of the name alone, that is 31 for a null
        name and otherwise 31 plus the name's documented string hash, taken
        modulo 2^32. */
    function HashCode(): (h: Int32)
      ensures distinguishedName.None? ==> h == 31
      ensures distinguishedName.Some? ==>
                h % 0x1_0000_0000 == (31 + DocumentedStringHash(distinguishedName.value)) % 0x1_0000_0000
    {
      ObjectsHash(distinguishedName)
    }

    /** `equals`: the other object is a distinguished-name address whose name
        is equal (two null names are equal). The AFI is not compared. */
    function Equals(obj: JavaObject): (r: bool)
      ensures obj.NullReference? || obj.OtherObject? ==> !r
      ensures r ==> obj.address.GetAfi() == DistinguishedName
                    && obj.address.dn.GetDistinguishedName() == GetDistinguishedName()
      ensures obj == AddressObject(DnAddress(this)) ==> r
    {
      obj.AddressObject? && obj.address.DnAddress?
      && obj.address.dn.distinguishedName == distinguishedName
    }
  }

  /** A MAC address. The wrapped MAC may be null: the constructor stores
      whatever it is given, and only `hashCode` dereferences it. */
  datatype LispMacAddress = LispMacAddress(address: Option<MacAddress>)
  {
    /** The getter: the MAC the address was built from, which rebuilds the
        same address. */
    function GetAddress(): (mac: Option<MacAddress>)
      ensures NewMacAddress(mac) == MacAddr(this)
    {
      address
    }

    function GetAfi(): Afi {
      MAC
    }

    /** `hashCode`: the wrapped MAC's own hash, which belongs to the packet
        library and is passed in as `macHash`. Throws on a null MAC. */
    function HashCode(macHash: MacAddress -> Int32): (h: Int32)
      requires address.Some?
      ensures h == macHash(GetAddress().value)
    {
      macHash(address.value)
    }

    /** `equals`: the other object is a MAC address with an equal MAC (two
        null MACs are equal) and an equal AFI. */
    function Equals(obj: JavaObject): (r: bool)
      ensures obj.NullReference? || obj.OtherObject? ==> !r
      ensures r ==> obj.address.GetAfi() == MAC && obj.address.mac.GetAddress() == GetAddress()
      ensures obj == AddressObject(MacAddr(this)) ==> r
    {
      obj.AddressObject? && obj.address.MacAddr?
      && obj.address.mac.address == address
      && obj.address.GetAfi() == GetAfi()
    }
  }

  /** The address variants. The AFI tag of each is fixed by its constructor
      and exposed by `GetAfi`. */
  datatype AfiAddress =
    | Ipv4Address(ip: IpAddress)
    | Ipv6Address(ip: IpAddress)
    | AsAddress(asNum: Int32)
    | DnAddress(dn: LispDistinguishedNameAddress)
    | MacAddr(mac: LispMacAddress)
    // The sub-type-coded payload of an LCAF address is not part of this model.
    | LcafAddress(lcafType: nat)
    | NoAddr
    | UnknownAddr
  {
    function GetAfi(): Afi {
      match this
      case Ipv4Address(_) => IP4
      case Ipv6Address(_) => IP6
      case AsAddress(_) => AS
      case DnAddress(_) => DistinguishedName
      case MacAddr(_) => MAC
      case LcafAddress(_) => LCAF
      case NoAddr => NoAddress
      case UnknownAddr => Unknown
    }
  }

  // ---------------------------------------------------------------------
  // Distinguished-name addresses
  // ---------------------------------------------------------------------

  /** The constructor: the AFI tag is DISTINGUISHED_NAME and the name is
      stored unchanged, null included. */
  function NewDistinguishedNameAddress(distinguishedName: Option<string>): (a: AfiAddress)
    ensures a.GetAfi() == DistinguishedName
    ensures a.DnAddress? && a.dn.distinguishedName == distinguishedName
  {
    DnAddress(LispDistinguishedNameAddress(distinguishedName))
  }

  /** `equals` holds exactly for distinguished-name addresses with the same
      name; null and objects of any other class are never equal. */
  lemma DnEqualsExactlySameName(a: LispDistinguishedNameAddress, obj: JavaObject)
    ensures a.Equals(obj) <==> exists b :: obj == AddressObject(DnAddress(b)) && b.distinguishedName == a.distinguishedName
    ensures obj.NullReference? || obj.OtherObject? ==> !a.Equals(obj)
    ensures obj.AddressObject? && obj.address.GetAfi() != DistinguishedName ==> !a.Equals(obj)
  {
    if a.Equals(obj) {
      var b := obj.address.dn;
      assert obj == AddressObject(DnAddress(b));
    }
  }

  lemma DnEqualsReflexive(a: LispDistinguishedNameAddress)
    ensures a.Equals(AddressObject(DnAddress(a)))
  {
  }

  lemma DnEqualsSymmetric(a: LispDistinguishedNameAddress, b: LispDistinguishedNameAddress)
    ensures a.Equals(AddressObject(DnAddress(b))) <==> b.Equals(AddressObject(DnAddress(a)))
  {
  }

  lemma DnEqualsTransitive(a: LispDistinguishedNameAddress, b: LispDistinguishedNameAddress, obj: JavaObject)
    requires a.Equals(AddressObject(DnAddress(b))) && b.Equals(obj)
    ensures a.Equals(obj)
  {
  }

  /** Equal distinguished-name addresses have equal hash codes. */
  lemma DnHashConsistentWithEquals(a: LispDistinguishedNameAddress, b: LispDistinguishedNameAddress)
    requires a.Equals(AddressObject(DnAddress(b)))
    ensures a.HashCode() == b.HashCode()
  {
  }

  // ---------------------------------------------------------------------
  // MAC addresses
  // ---------------------------------------------------------------------

  /** The constructor: the AFI tag is MAC and the MAC is stored unchanged,
      null included. */
  function NewMacAddress(address: Option<MacAddress>): (a: AfiAddress)
    ensures a.GetAfi() == MAC
    ensures a.MacAddr? && a.mac.GetAfi() == MAC && a.mac.address == address
  {
    MacAddr(LispMacAddress(address))
  }

  /** `equals` holds exactly for MAC addresses with the same MAC: since every
      MAC address carries the MAC tag, the AFI comparison never decides. */
  lemma MacEqualsExactlySameMac(a: LispMacAddress, obj: JavaObject)
    ensures a.Equals(obj) <==> exists b :: obj == AddressObject(MacAddr(b)) && b.address == a.address
    ensures obj.NullReference? || obj.OtherObject? ==> !a.Equals(obj)
    ensures obj.AddressObject? && obj.address.GetAfi() != MAC ==> !a.Equals(obj)
  {
    if obj.AddressObject? && obj.address.MacAddr? && obj.address.mac.address == a.address {
      var b := obj.address.mac;
      assert obj == AddressObject(MacAddr(b));
    }
  }

  lemma MacEqualsReflexive(a: LispMacAddress)
    ensures a.Equals(AddressObject(MacAddr(a)))
  {
  }

  lemma MacEqualsSymmetric(a: LispMacAddress, b: LispMacAddress)
    ensures a.Equals(AddressObject(MacAddr(b))) <==> b.Equals(AddressObject(MacAddr(a)))
  {
  }

  lemma MacEqualsTransitive(a: LispMacAddress, b: LispMacAddress, obj: JavaObject)
    requires a.Equals(AddressObject(MacAddr(b))) && b.Equals(obj)
    ensures a.Equals(obj)
  {
  }

  /** Equal MAC addresses with a non-null MAC have equal hash codes, whatever
      hash the packet library gives a MAC. */
  lemma MacHashConsistentWithEquals(a: LispMacAddress, b: LispMacAddress, macHash: MacAddress -> Int32)
    requires a.address.Some?
    requires a.Equals(AddressObject(MacAddr(b)))
    ensures b.address.Some? && a.HashCode(macHash) == b.HashCode(macHash)
  {
  }

  /** A distinguished-name address and a MAC address are never equal, in
      either direction. */
  lemma DnAndMacNeverEqual(d: LispDistinguishedNameAddress, m: LispMacAddress)
    ensures !d.Equals(AddressObject(MacAddr(m)))
    ensures !m.Equals(AddressObject(DnAddress(d)))
  {
  }
}
