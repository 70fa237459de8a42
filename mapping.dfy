/** The protocol-neutral mapping values the translation produces: mapping
    addresses, actions, treatments, keys, values and entries. */
module Mapping {
  import opened JavaLang
  import opened LispTypes

  /** An IP prefix: an address and a prefix length. The masking the packet
      library applies is not part of this model; the translation only builds
      full-length prefixes, which it leaves unchanged. */
  datatype IpPrefix = IpPrefix(address: IpAddress, prefixLength: nat)

  datatype MappingAddress =
    | Ipv4MappingAddress(prefix: IpPrefix)
    | Ipv6MappingAddress(prefix: IpPrefix)
    | AsMappingAddress(asNumber: string)
    | DnMappingAddress(name: Option<string>)
    | EthMappingAddress(mac: Option<MacAddress>)

  datatype MappingAction = NoMappingAction | ForwardMappingAction | NativeForwardMappingAction | DropMappingAction

  /** A treatment: an optional address with the locator's four numbers. */
  datatype MappingTreatment = MappingTreatment(
    address: Option<MappingAddress>,
    unicastWeight: int,
    unicastPriority: int,
    multicastWeight: int,
    multicastPriority: int)

  datatype MappingKey = MappingKey(address: Option<MappingAddress>)

  datatype MappingValue = MappingValue(action: MappingAction, treatments: seq<MappingTreatment>)

  datatype MappingEntryState = PendingAdd | Added | PendingRemove | Removed | Failed

  datatype DeviceId = DeviceId(uri: string)

  datatype MappingEntry = MappingEntry(
    id: Int64,
    deviceId: DeviceId,
    key: MappingKey,
    value: MappingValue,
    state: MappingEntryState)
}
