# LISP control plane: mapping translation and message model

This project models the translation and message layer of an ONOS-based LISP
control plane (LISP is RFC 6830). It has five parts:

- **Mapping-entry builder** (`MappingUtil`, `mapping_entry_builder.dfy`). It
  turns a decoded LISP map record into a protocol-neutral mapping entry:
  - The record's ACT code (section 6.1.4 of RFC 6830) becomes a mapping
    action, with a no-action default.
  - The EID-prefix address becomes the key's mapping address. The translation
    dispatches on the address family (AFI): IPv4 becomes a /32 prefix, IPv6 a
    /128 prefix, an AS number its decimal text, and a distinguished name or a
    MAC passes through. LCAF, no-address and unknown families give no address.
  - Every locator becomes a treatment, in order.
  - The entry is assembled in state ADDED.

  The constructor computes the translated parts once, into final fields
  (`const` fields of the class `MappingEntryBuilder`). The per-locator loop
  `BuildLocatorTreatments` is proved equal to the recursive function
  `TreatmentsOf`. The value builder's loop `BuildValue` is proved against
  `BuildAction` and `TreatmentsFor`, and `Build` against `EntryFor`.
- **Map-Register message and builder** (`LispProtocols`, `map_register.dfy`;
  section 6.1.6 of RFC 6830). These are two classes:
  - The builder has overwrite-style setters and an append-only record list.
  - `Build` hands the message the builder's own record list and its
    authentication-data array, both by reference.
  - Only the message's getters copy.

  The model states what is shared and what is copied. Client methods show the
  consequences: records added after `build()` show through, writes to the
  caller's array show through, and a returned array is a private copy.
- **AS-address JSON codec** (`LispCodec`, `as_address_codec.dfy`). A JSON
  object is a `map<string, Json>`. The context's nested mapping-address codec
  and the JSON library's `asInt` coercion are function-valued fields of
  `CodecContext`.
- **Address value classes** (`LispTypes`, `lisp_types.dfy`). These are the
  distinguished-name and MAC addresses with their `equals` and `hashCode`,
  inside a sum type `AfiAddress` over all address families.
- **Java facts** (`JavaLang`, `java_lang.dfy`). This holds the nullable
  reference (`Option`), exceptions (`Result`), Java's fixed-width integers,
  and `String.valueOf(int)` with its proved inverse. It also holds
  `String.hashCode` and `Objects.hash`.

`lisp_records.dfy` and `mapping.dfy` hold the record and mapping value types
the core consumes and produces.

Where the design description and the code disagree, the model follows the
code:
- The builder's `build()` copies neither the record list nor the
  authentication data.
- `getLispRecords` returns a copy, not a view.
- The distinguished-name and MAC classes accept null payloads.
- On a null map record the source's entry builder throws, where the design
  says it gives an empty entry. The class `MappingEntryBuilder` follows the
  corrected behaviour and gives the empty entry. `BuildTreatmentsAsWritten`
  models the throw as written; see Findings.

## Model

| member | source | states |
|---|---|---|
| `MappingUtil.BuildAction` | providers/lisp/mapping/src/main/java/org/onosproject/provider/lisp/mapping/util/MappingEntryBuilder.java:143-161 | NoAction→no-action, SendMapRequest→forward, NativelyForward→native-forward, Drop→drop; unassigned codes and a null record give no-action |
| `MappingUtil.AssignedActionsTranslateOneToOne` | providers/lisp/mapping/src/main/java/org/onosproject/provider/lisp/mapping/util/MappingEntryBuilder.java:149-160 | on the four assigned codes the translation is one-to-one, and every mapping action is reached |
| `MappingUtil.Afi2MappingAddress` | providers/lisp/mapping/src/main/java/org/onosproject/provider/lisp/mapping/util/MappingEntryBuilder.java:233-248 | gives an address exactly for IPv4/IPv6: a /32 resp. /128 prefix of the same address |
| `MappingUtil.Lcaf2Extension` | providers/lisp/mapping/src/main/java/org/onosproject/provider/lisp/mapping/util/MappingEntryBuilder.java:221-225 | no LCAF address translates |
| `MappingUtil.GetAddress` | providers/lisp/mapping/src/main/java/org/onosproject/provider/lisp/mapping/util/MappingEntryBuilder.java:182-213 | a mapping address results exactly when the address is non-null and of family IPv4, IPv6, AS, DN or MAC; never raises |
| `MappingUtil.IpAddressesBecomeHostPrefixes` | providers/lisp/mapping/src/main/java/org/onosproject/provider/lisp/mapping/util/MappingEntryBuilder.java:233-242 | every IPv4 address becomes an IPv4 mapping address /32 of itself, every IPv6 one a /128 |
| `MappingUtil.AsAddressBecomesDecimalText` | providers/lisp/mapping/src/main/java/org/onosproject/provider/lisp/mapping/util/MappingEntryBuilder.java:194-196 | an AS address becomes an AS mapping address whose text reads back as its AS number |
| `MappingUtil.NamesAndMacsPassThrough` | providers/lisp/mapping/src/main/java/org/onosproject/provider/lisp/mapping/util/MappingEntryBuilder.java:197-203 | a DN address gives a DN mapping address with the same name, a MAC address an Ethernet one with the same MAC (null included) |
| `MappingUtil.UntranslatedAddressesGiveNone` | providers/lisp/mapping/src/main/java/org/onosproject/provider/lisp/mapping/util/MappingEntryBuilder.java:184-212 | null, every LCAF address, no-address and unknown families give no mapping address |
| `MappingUtil.TranslationIsLossless` | providers/lisp/mapping/src/main/java/org/onosproject/provider/lisp/mapping/util/MappingEntryBuilder.java:189-203 | every translated address is recovered from its mapping address by the inverse `RecoverAfiAddress` |
| `MappingUtil.TranslationIsInjective` | providers/lisp/mapping/src/main/java/org/onosproject/provider/lisp/mapping/util/MappingEntryBuilder.java:189-203 | two translatable addresses have the same mapping address exactly when they are equal |
| `MappingUtil.BuildAddress` | providers/lisp/mapping/src/main/java/org/onosproject/provider/lisp/mapping/util/MappingEntryBuilder.java:170-174 | a null record gives no address; otherwise the EID-prefix address translated |
| `MappingUtil.TreatmentOf` | providers/lisp/mapping/src/main/java/org/onosproject/provider/lisp/mapping/util/MappingEntryBuilder.java:261-277 | a treatment carries the locator's four weight/priority numbers unchanged, and an address exactly when the locator's address translates |
| `MappingUtil.TreatmentsOf` | providers/lisp/mapping/src/main/java/org/onosproject/provider/lisp/mapping/util/MappingEntryBuilder.java:256-281 | one treatment per locator, the i-th from the i-th locator |
| `MappingUtil.BuildLocatorTreatments` | providers/lisp/mapping/src/main/java/org/onosproject/provider/lisp/mapping/util/MappingEntryBuilder.java:258-280 | the loop yields exactly one treatment per locator, in locator order, equal to `TreatmentsOf` |
| `MappingUtil.BuildTreatmentsAsWritten` | providers/lisp/mapping/src/main/java/org/onosproject/provider/lisp/mapping/util/MappingEntryBuilder.java:256-281 | as written: a null record throws a null-pointer exception; otherwise the treatments of its locators |
| `MappingUtil.BuildTreatments` | providers/lisp/mapping/src/main/java/org/onosproject/provider/lisp/mapping/util/MappingEntryBuilder.java:256-281 | corrected: a null record has no treatments; otherwise one per locator in order |
| `MappingUtil.EntryShape` | providers/lisp/mapping/src/main/java/org/onosproject/provider/lisp/mapping/util/MappingEntryBuilder.java:87-135 | the entry has the given id and device, state ADDED, the translated EID address as key, the translated action, and one treatment per locator carrying its numbers |
| `MappingUtil.BuildsDifferOnlyInId` | providers/lisp/mapping/src/main/java/org/onosproject/provider/lisp/mapping/util/MappingEntryBuilder.java:92-98 | two builds of the same record differ only in their identifier |
| `MappingUtil.NullRecordGivesEmptyEntry` | providers/lisp/mapping/src/main/java/org/onosproject/provider/lisp/mapping/util/MappingEntryBuilder.java:143-174 | (corrected behaviour) a null record gives key without address, no-action, no treatments, state ADDED |
| `MappingUtil.MappingEntryBuilder.constructor` | providers/lisp/mapping/src/main/java/org/onosproject/provider/lisp/mapping/util/MappingEntryBuilder.java:75-80 | the final fields hold the translated address, action and treatments of the record |
| `MappingUtil.MappingEntryBuilder.BuildKey` | providers/lisp/mapping/src/main/java/org/onosproject/provider/lisp/mapping/util/MappingEntryBuilder.java:113-120 | the key wraps the translated EID address, possibly none |
| `MappingUtil.MappingEntryBuilder.BuildValue` | providers/lisp/mapping/src/main/java/org/onosproject/provider/lisp/mapping/util/MappingEntryBuilder.java:127-135 | the value holds the translated action and all treatments in order |
| `MappingUtil.MappingEntryBuilder.Build` | providers/lisp/mapping/src/main/java/org/onosproject/provider/lisp/mapping/util/MappingEntryBuilder.java:87-106 | the entry is `EntryFor(device, record, id)`: state ADDED, the caller's id |
| `JavaLang.StringValueOf` | providers/lisp/mapping/src/main/java/org/onosproject/provider/lisp/mapping/util/MappingEntryBuilder.java:196 | the AS text is canonical: a minus sign exactly for negative numbers, then digits with no leading zero; zero is exactly "0" |
| `JavaLang.ParseStringValueOf` | providers/lisp/mapping/src/main/java/org/onosproject/provider/lisp/mapping/util/MappingEntryBuilder.java:195-196 | the decimal text reads back as the number it renders |
| `JavaLang.StringValueOfInjective` | providers/lisp/mapping/src/main/java/org/onosproject/provider/lisp/mapping/util/MappingEntryBuilder.java:194-196 | distinct AS numbers get distinct texts |
| `LispProtocols.DefaultLispMapRegister.constructor` | protocols/lisp/msg/src/main/java/org/onosproject/lisp/msg/protocols/DefaultLispMapRegister.java:49-60 | every field is stored as given; list and array by reference |
| `LispProtocols.DefaultLispMapRegister.GetType` | protocols/lisp/msg/src/main/java/org/onosproject/lisp/msg/protocols/DefaultLispMapRegister.java:62-65 | the message type is Map-Register, type code 3 |
| `LispProtocols.DefaultLispMapRegister.IsProxyMapReply` | protocols/lisp/msg/src/main/java/org/onosproject/lisp/msg/protocols/DefaultLispMapRegister.java:77-79 | reports the proxy-map-reply flag the message was built with (through `Build`, the builder's value at `build()`) |
| `LispProtocols.DefaultLispMapRegister.IsWantMapNotify` | protocols/lisp/msg/src/main/java/org/onosproject/lisp/msg/protocols/DefaultLispMapRegister.java:82-84 | reports the want-map-notify flag the message was built with |
| `LispProtocols.DefaultLispMapRegister.GetRecordCount` | protocols/lisp/msg/src/main/java/org/onosproject/lisp/msg/protocols/DefaultLispMapRegister.java:87-89 | reports the record count as set, whatever the number of records |
| `LispProtocols.DefaultLispMapRegister.GetNonce` | protocols/lisp/msg/src/main/java/org/onosproject/lisp/msg/protocols/DefaultLispMapRegister.java:92-94 | reports the nonce the message was built with |
| `LispProtocols.DefaultLispMapRegister.GetKeyId` | protocols/lisp/msg/src/main/java/org/onosproject/lisp/msg/protocols/DefaultLispMapRegister.java:97-99 | reports the key id the message was built with |
| `LispProtocols.DefaultLispMapRegister.GetAuthenticationData` | protocols/lisp/msg/src/main/java/org/onosproject/lisp/msg/protocols/DefaultLispMapRegister.java:102-105 | a fresh array equal in content to the stored one; an error when the stored one is null or empty |
| `LispProtocols.CopyRecords` | protocols/lisp/msg/src/main/java/org/onosproject/lisp/msg/protocols/DefaultLispMapRegister.java:107-110 | the copy succeeds exactly when no record is null, and then holds the records in order |
| `LispProtocols.DefaultLispMapRegister.GetLispRecords` | protocols/lisp/msg/src/main/java/org/onosproject/lisp/msg/protocols/DefaultLispMapRegister.java:107-110 | an immutable copy of the list as it is at the call |
| `LispProtocols.DefaultLispMapRegister.CreateBuilder` | protocols/lisp/msg/src/main/java/org/onosproject/lisp/msg/protocols/DefaultLispMapRegister.java:72-75 | a fresh, empty builder, not filled from this message |
| `LispProtocols.DefaultLispMapRegister.WriteTo` | protocols/lisp/msg/src/main/java/org/onosproject/lisp/msg/protocols/DefaultLispMapRegister.java:67-70 | writes nothing to the buffer |
| `LispProtocols.DefaultRegisterBuilder.constructor` | protocols/lisp/msg/src/main/java/org/onosproject/lisp/msg/protocols/DefaultLispMapRegister.java:112-120 | nonce 0, key id 0, record count 0, both flags false, no auth data, a new empty record list |
| `LispProtocols.DefaultRegisterBuilder.GetType` | protocols/lisp/msg/src/main/java/org/onosproject/lisp/msg/protocols/DefaultLispMapRegister.java:122-125 | the builder reports Map-Register too |
| `LispProtocols.DefaultRegisterBuilder.WithIsProxyMapReply` | protocols/lisp/msg/src/main/java/org/onosproject/lisp/msg/protocols/DefaultLispMapRegister.java:127-131 | overwrites the proxy-map-reply flag, nothing else; returns the builder |
| `LispProtocols.DefaultRegisterBuilder.WithIsWantMapNotify` | protocols/lisp/msg/src/main/java/org/onosproject/lisp/msg/protocols/DefaultLispMapRegister.java:133-137 | overwrites the want-map-notify flag, nothing else |
| `LispProtocols.DefaultRegisterBuilder.WithRecordCount` | protocols/lisp/msg/src/main/java/org/onosproject/lisp/msg/protocols/DefaultLispMapRegister.java:139-143 | overwrites the record count, unchecked against the records |
| `LispProtocols.DefaultRegisterBuilder.WithNonce` | protocols/lisp/msg/src/main/java/org/onosproject/lisp/msg/protocols/DefaultLispMapRegister.java:145-149 | overwrites the nonce, nothing else |
| `LispProtocols.DefaultRegisterBuilder.WithKeyId` | protocols/lisp/msg/src/main/java/org/onosproject/lisp/msg/protocols/DefaultLispMapRegister.java:151-155 | overwrites the key id, nothing else |
| `LispProtocols.DefaultRegisterBuilder.WithAuthenticationData` | protocols/lisp/msg/src/main/java/org/onosproject/lisp/msg/protocols/DefaultLispMapRegister.java:157-161 | stores the caller's array itself, nothing else changes |
| `LispProtocols.DefaultRegisterBuilder.AddRecord` | protocols/lisp/msg/src/main/java/org/onosproject/lisp/msg/protocols/DefaultLispMapRegister.java:163-167 | appends the record (null accepted) at the end, nothing else changes |
| `LispProtocols.DefaultRegisterBuilder.Build` | protocols/lisp/msg/src/main/java/org/onosproject/lisp/msg/protocols/DefaultLispMapRegister.java:169-173 | a new message with the current values, sharing the builder's record list and auth array |
| `LispProtocols.LastSetterWins` | protocols/lisp/msg/src/main/java/org/onosproject/lisp/msg/protocols/DefaultLispMapRegister.java:145-173 | after two `withNonce` calls the message reports the second |
| `LispProtocols.RecordsKeepOrderAndCountIsUnchecked` | protocols/lisp/msg/src/main/java/org/onosproject/lisp/msg/protocols/DefaultLispMapRegister.java:139-173 | records come back in insertion order and any record count is kept as set |
| `LispProtocols.NullRecordBreaksGetLispRecords` | protocols/lisp/msg/src/main/java/org/onosproject/lisp/msg/protocols/DefaultLispMapRegister.java:107-110 | a null record added to the builder makes `getLispRecords` throw |
| `LispProtocols.DefaultAuthenticationDataIsUnreadable` | protocols/lisp/msg/src/main/java/org/onosproject/lisp/msg/protocols/DefaultLispMapRegister.java:102-120 | a message built without auth data throws on `getAuthenticationData` |
| `LispProtocols.AddAfterBuildIsVisible` | protocols/lisp/msg/src/main/java/org/onosproject/lisp/msg/protocols/DefaultLispMapRegister.java:163-173 | a record added after `build()` appears in the built message |
| `LispProtocols.CallerWritesAfterBuildAreVisible` | protocols/lisp/msg/src/main/java/org/onosproject/lisp/msg/protocols/DefaultLispMapRegister.java:157-173 | a write to the caller's array after `build()` is seen by the message's getter |
| `LispProtocols.ReturnedAuthenticationDataIsACopy` | protocols/lisp/msg/src/main/java/org/onosproject/lisp/msg/protocols/DefaultLispMapRegister.java:102-105 | each call returns a distinct array; writing to one does not change the next read |
| `LispCodec.Encode` | drivers/lisp/src/main/java/org/onosproject/drivers/lisp/extensions/codec/LispAsAddressCodec.java:38-52 | null is rejected; `asNumber` holds the AS number; `address` is present exactly when the nested address is, as its nested encoding; no other member |
| `LispCodec.Decode` | drivers/lisp/src/main/java/org/onosproject/drivers/lisp/extensions/codec/LispAsAddressCodec.java:55-76 | null/non-object gives null; missing `asNumber` raises illegal-argument; otherwise the AS number and the nested decoding, or null when `address` is no object |
| `LispCodec.DecodeOfEncode` | drivers/lisp/src/main/java/org/onosproject/drivers/lisp/extensions/codec/LispAsAddressCodec.java:38-76 | decode(encode(a)) keeps the AS number and gives a null nested address when a's was null |
| `LispCodec.RoundTrip` | drivers/lisp/src/main/java/org/onosproject/drivers/lisp/extensions/codec/LispAsAddressCodec.java:38-76 | decode(encode(a)) == a whenever the nested codec round-trips a's nested address |
| `LispCodec.MissingAsNumberAlwaysFails` | drivers/lisp/src/main/java/org/onosproject/drivers/lisp/extensions/codec/LispAsAddressCodec.java:60-61 | corollary of `Decode`'s contract with the message spelled out: every object without `asNumber` fails with exactly "asNumber member is required in LispAsAddress" |
| `LispTypes.NewDistinguishedNameAddress` | protocols/lisp/msg/src/main/java/org/onosproject/lisp/msg/types/LispDistinguishedNameAddress.java:34-46 | AFI is DISTINGUISHED_NAME and the getter returns the constructor argument |
| `LispTypes.LispDistinguishedNameAddress.GetDistinguishedName` | protocols/lisp/msg/src/main/java/org/onosproject/lisp/msg/types/LispDistinguishedNameAddress.java:44-46 | returns the name the address was built from: rebuilding from it gives the same address |
| `LispTypes.LispDistinguishedNameAddress.Equals` | protocols/lisp/msg/src/main/java/org/onosproject/lisp/msg/types/LispDistinguishedNameAddress.java:53-64 | false for null and for other classes; true only for addresses of family DISTINGUISHED_NAME with the same name; true for the address itself |
| `LispTypes.LispDistinguishedNameAddress.HashCode` | protocols/lisp/msg/src/main/java/org/onosproject/lisp/msg/types/LispDistinguishedNameAddress.java:48-51 | 31 for a null name; otherwise 31 plus the documented string hash of the name, modulo 2^32 |
| `LispTypes.DnEqualsExactlySameName` | protocols/lisp/msg/src/main/java/org/onosproject/lisp/msg/types/LispDistinguishedNameAddress.java:53-64 | equal exactly to DN addresses with an equal name (null equals null); never to null, other classes or other families |
| `LispTypes.DnEqualsReflexive` | protocols/lisp/msg/src/main/java/org/onosproject/lisp/msg/types/LispDistinguishedNameAddress.java:55-57 | every DN address equals itself |
| `LispTypes.DnEqualsSymmetric` | protocols/lisp/msg/src/main/java/org/onosproject/lisp/msg/types/LispDistinguishedNameAddress.java:59-62 | equality among DN addresses is symmetric |
| `LispTypes.DnEqualsTransitive` | protocols/lisp/msg/src/main/java/org/onosproject/lisp/msg/types/LispDistinguishedNameAddress.java:59-63 | equality among DN addresses is transitive |
| `LispTypes.DnHashConsistentWithEquals` | protocols/lisp/msg/src/main/java/org/onosproject/lisp/msg/types/LispDistinguishedNameAddress.java:48-51 | equal DN addresses have equal hash codes |
| `JavaLang.StringHashCode` | protocols/lisp/msg/src/main/java/org/onosproject/lisp/msg/types/LispDistinguishedNameAddress.java:50 | the loop h = 31*h + c in `int` arithmetic equals the documented polynomial s[0]*31^(n-1) + ... + s[n-1] modulo 2^32; the empty string hashes to 0 |
| `JavaLang.ObjectsHash` | protocols/lisp/msg/src/main/java/org/onosproject/lisp/msg/types/LispDistinguishedNameAddress.java:50 | 31 plus the string's documented hash modulo 2^32; a null and an empty name both give 31 |
| `LispTypes.NewMacAddress` | protocols/lisp/msg/src/main/java/org/onosproject/lisp/msg/types/LispMacAddress.java:34-46 | AFI is MAC and the getter returns the constructor argument |
| `LispTypes.LispMacAddress.GetAddress` | protocols/lisp/msg/src/main/java/org/onosproject/lisp/msg/types/LispMacAddress.java:44-46 | returns the MAC the address was built from: rebuilding from it gives the same address |
| `LispTypes.LispMacAddress.Equals` | protocols/lisp/msg/src/main/java/org/onosproject/lisp/msg/types/LispMacAddress.java:53-65 | false for null and for other classes; true only for addresses of family MAC with the same MAC; true for the address itself |
| `LispTypes.LispMacAddress.HashCode` | protocols/lisp/msg/src/main/java/org/onosproject/lisp/msg/types/LispMacAddress.java:48-51 | the packet library's hash of the wrapped MAC, defined only for a non-null MAC |
| `LispTypes.MacEqualsExactlySameMac` | protocols/lisp/msg/src/main/java/org/onosproject/lisp/msg/types/LispMacAddress.java:53-64 | equal exactly to MAC addresses with an equal MAC (the AFI comparison never decides); never to null or other classes |
| `LispTypes.MacEqualsReflexive` | protocols/lisp/msg/src/main/java/org/onosproject/lisp/msg/types/LispMacAddress.java:55-57 | every MAC address equals itself |
| `LispTypes.MacEqualsSymmetric` | protocols/lisp/msg/src/main/java/org/onosproject/lisp/msg/types/LispMacAddress.java:59-63 | equality among MAC addresses is symmetric |
| `LispTypes.MacEqualsTransitive` | protocols/lisp/msg/src/main/java/org/onosproject/lisp/msg/types/LispMacAddress.java:61-62 | equality among MAC addresses is transitive |
| `LispTypes.MacHashConsistentWithEquals` | protocols/lisp/msg/src/main/java/org/onosproject/lisp/msg/types/LispMacAddress.java:48-51 | equal MAC addresses with a non-null MAC have equal hash codes, whatever the MAC's own hash |
| `LispTypes.DnAndMacNeverEqual` | protocols/lisp/msg/src/main/java/org/onosproject/lisp/msg/types/LispMacAddress.java:59-64 | a DN address and a MAC address are never equal, in either direction |

## Findings

| source | as written | input that shows it | evidently intended | confidence | as-written member | corrected member |
|---|---|---|---|---|---|---|
| providers/lisp/mapping/src/main/java/org/onosproject/provider/lisp/mapping/util/MappingEntryBuilder.java:256-258 | `buildTreatments` calls `record.getLocators()` with no null check. The constructor calls it after `buildAddress` and `buildAction`, which both check for a null record. | a null map record: the constructor throws a NullPointerException | a null record gives an entry whose key has no address, with no-action and no treatments, as the two sibling methods and the design intend | high; not executed | `MappingUtil.BuildTreatmentsAsWritten` | `MappingUtil.BuildTreatments` (with `MappingUtil.NullRecordGivesEmptyEntry`) |

The class `MappingEntryBuilder` uses the corrected `BuildTreatments`. For a
non-null record the two agree: `BuildTreatmentsAsWritten` returns
`Success(TreatmentsOf(locators))`, and `BuildTreatments` returns the same
`TreatmentsOf(locators)`.

## Left out

- The random mapping identifier is not modelled. `UUID.randomUUID()` and its
  least significant bits become the `id` parameter of `Build`.
- Logging is left out. The `log.warn` calls only log.
- The provider lifecycle and listener wiring (`LispMappingProvider`) are left
  out: they are OSGi lifecycle code and their handlers are empty.
- `IpPrefix.valueOf` address masking and the library's prefix-length check
  are left out. The translation only builds full-length prefixes (/32 and
  /128), which masking leaves unchanged.
- The packet library's `IpAddress` and `MacAddress` are kept as octet
  sequences, without their validation.
- `LispTypes.LispMacAddress.HashCode`: the MAC's own hash comes from the
  packet library, so it is a function parameter. Hash consistency is proved
  for every such function.
- `JavaLang.StringHashCode` works over Dafny characters, not UTF-16 code
  units. For characters outside the Basic Multilingual Plane, Java hashes two
  surrogates instead.
- Code the model relies on but does not include:
  - `ImmutableByteSequence.copyFrom` is taken to reject a null or empty array
    with an illegal-argument error, as that library documents.
  - `ImmutableList.copyOf` is taken to throw a null-pointer exception on a
    null element.
  - `JsonCodec.get` is taken to return the member only when it is an object
    node.
- `LispCodec.Decode`: Jackson's `asInt` is exact only on int nodes. Every
  other node kind goes through the context's `coerceInt` function, which
  stands for the library's coercion.
- `LispCodec.Decode`: the nested codec is taken never to throw. A nested
  encoder that returns null, which `ObjectNode.set` would store as a JSON
  null, is not modelled.
- LCAF sub-types and their payloads are not modelled. The source translates
  none of them.
- `toString` formatting is left out. It depends on Guava and on the MAC's
  own rendering.
- A null action code in a non-null record is not modelled: the Java `switch`
  would throw on it. A record's action is always one of the ACT codes here.
- Equality of `LispDistinguishedNameAddress` ignores the AFI. Equality of
  `LispMacAddress` compares it. The model cannot show the difference,
  because each class's constructor fixes its AFI and the model has no
  subclasses.
- Fluent chaining of the builder's setters is written as consecutive calls.
  Each setter returns the builder itself, and its ensures clause states this.
- `writeTo` serialises nothing in the source. The model's `WriteTo` has an
  empty frame and writes nothing.
