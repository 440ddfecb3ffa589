/**
 * The check the integration runs on a stored configuration entry before it
 * starts the server: host, port and slave id must be present, the host a
 * non-empty string, port and slave id integers in range. Entry data is a
 * dictionary of dynamically typed values; as in Python, a boolean counts as
 * an integer (`True` is 1, `False` is 0).
 */
module EntryValidation {
  import opened Catalog
  import Utils

  /** A dynamically typed configuration value. */
  datatype Value =
    | Str(s: string)
    | Int(i: int)
    | Bool(b: bool)
    | Float(r: real)
    | Mapping(m: map<string, string>)
    | NoneValue

  /** `isinstance(v, int)`: integers and booleans. */
  predicate IsInt(v: Value)
  {
    v.Int? || v.Bool?
  }

  /** The integer an `int` instance stands for. */
  function IntValue(v: Value): int
    requires IsInt(v)
  {
    match v
    case Int(i) => i
    case Bool(b) => if b then 1 else 0
  }

  /** An integer value within `lo..hi`. */
  predicate IntInRange(v: Value, lo: int, hi: int)
  {
    IsInt(v) && lo <= IntValue(v) <= hi
  }

  /**
   * `_validate_entry_data`: every required field present, then the host,
   * then the port, then the slave id, stopping at the first failure.
   */
  function ValidateEntryData(data: map<string, Value>): (ok: bool)
    ensures ok <==> ConfHost in data && ConfPort in data && ConfSlaveId in data
                    && data[ConfHost].Str? && data[ConfHost].s != ""
                    && IntInRange(data[ConfPort], 1, Utils.MaxPort)
                    && IntInRange(data[ConfSlaveId], 1, Utils.MaxSlaveId)
  {
    if ConfHost !in data || ConfPort !in data || ConfSlaveId !in data then false
    else if !data[ConfHost].Str? || data[ConfHost].s == "" then false
    else if !IsInt(data[ConfPort]) || !(1 <= IntValue(data[ConfPort]) <= 65535) then false
    else if !IsInt(data[ConfSlaveId]) || !(1 <= IntValue(data[ConfSlaveId]) <= 247) then false
    else true
  }

  /** A missing field rejects the entry, whatever the others hold. */
  lemma MissingFieldRejected(data: map<string, Value>, field: string)
    requires field in [ConfHost, ConfPort, ConfSlaveId] && field !in data
    ensures !ValidateEntryData(data)
  {
  }

  /** A port or slave id given as a float is rejected, even when it is integral. */
  lemma FloatPortRejected(data: map<string, Value>, field: string)
    requires field == ConfPort || field == ConfSlaveId
    requires field in data && data[field].Float?
    ensures !ValidateEntryData(data)
  {
  }

  /** Python's `True` passes as port 1 and slave id 1. */
  lemma BooleanFieldsAccepted()
    ensures ValidateEntryData(map[ConfHost := Str("localhost"), ConfPort := Bool(true), ConfSlaveId := Bool(true)])
  {
  }

  /** Extra fields, such as the update interval or the mappings, do not affect the verdict. */
  lemma ExtraFieldsIgnored(data: map<string, Value>, key: string, v: Value)
    requires key != ConfHost && key != ConfPort && key != ConfSlaveId
    ensures ValidateEntryData(data[key := v]) == ValidateEntryData(data)
  {
  }

  /** The entry data the configuration flow stores: the network form plus the mappings. */
  function FlowEntryData(host: string, port: int, slaveId: int, updateInterval: int,
                         mappings: map<string, string>): map<string, Value>
  {
    map[ConfHost := Str(host), ConfPort := Int(port), ConfSlaveId := Int(slaveId),
        ConfUpdateInterval := Int(updateInterval), ConfEntityMappings := Mapping(mappings)]
  }

  /**
   * Every entry the configuration flow creates passes the setup check: the
   * network validator already demands the same ranges, and a valid host is
   * never empty provided the address parser rejects the empty string.
   */
  lemma FlowEntriesValid(host: string, port: int, slaveId: int, updateInterval: int,
                         mappings: map<string, string>, isIpAddress: Utils.IpParser)
    requires !isIpAddress("")
    requires Utils.ValidateNetworkSettings(host, port, slaveId, isIpAddress) == map[]
    ensures ValidateEntryData(FlowEntryData(host, port, slaveId, updateInterval, mappings))
  {
    var data := FlowEntryData(host, port, slaveId, updateInterval, mappings);
    assert data[ConfHost] == Str(host) && data[ConfPort] == Int(port) && data[ConfSlaveId] == Int(slaveId);
  }
}
