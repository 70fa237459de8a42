/** The decoded LISP map record that the mapping translation consumes: an
    EID-prefix address, an action code and an ordered list of locators
    (section 6.1.4 of RFC 6830). */
module LispRecords {
  import opened JavaLang
  import opened LispTypes

  /** The ACT codes that section 6.1.4 of RFC 6830 leaves unassigned. */
  type UnassignedActCode = c: nat | 4 <= c < 8 witness 4

  /** The ACT field of a map record. Codes 4 to 7 are unassigned in
      section 6.1.4 of RFC 6830; `Unassigned` stands for any of them. */
  datatype ReplyAction = NoAction | NativelyForward | SendMapRequest | Drop | Unassigned(code: UnassignedActCode)

  /** One routing locator with its unicast and multicast weight and priority. */
  datatype Locator = Locator(
    locatorAfi: Option<AfiAddress>,
    weight: int,
    priority: int,
    multicastWeight: int,
    multicastPriority: int)

  datatype MapRecord = MapRecord(
    eidPrefixAfi: Option<AfiAddress>,
    action: ReplyAction,
    locators: seq<Locator>)
}
