/**
 * The configuration helpers: host, port and slave-id validation, the device
 * class a mapping type asks the host for, validation of an entity mapping
 * against the host's state store, and the parser that lifts
 * `entity_mappings.<type>` form fields into a mapping. Python's
 * `ipaddress.ip_address` is the predicate `isIpAddress`, left abstract.
 */
module Utils {
  import opened Wrappers
  import opened Catalog
  import opened Resolution
  import opened Text

  /** `ipaddress.ip_address(host)` succeeds. */
  type IpParser = string -> bool

  /** The largest port and slave id the validators accept. */
  const MaxPort := 65535
  const MaxSlaveId := 247

  // ---------------------------------------------------------------- hosts

  /**
   * `is_valid_host`: the wildcard address and `localhost` are accepted
   * outright; every other host is decided by the IP-address parser.
   */
  function IsValidHost(host: string, isIpAddress: IpParser): (ok: bool)
    ensures host == DefaultHost || host == "localhost" ==> ok
    ensures ok != isIpAddress(host) ==> host == DefaultHost || host == "localhost"
  {
    if host == "0.0.0.0" || host == "localhost" then true
    else isIpAddress(host)
  }

  /** Whatever the parser says, the two special host names are valid. */
  lemma SpecialHostsValid(isIpAddress: IpParser)
    ensures IsValidHost(DefaultHost, isIpAddress) && IsValidHost("localhost", isIpAddress)
  {
  }

  // --------------------------------------------------------- device class

  /** The device classes tried by `get_device_class_for_entity`, in order. */
  const DeviceClasses: seq<string> := ["voltage", "current", "power", "energy", "frequency"]

  /** `get_device_class_for_entity`: the first class whose name occurs in the type. */
  function DeviceClassForEntity(entityType: string): (c: Option<string>)
    ensures c == FirstContained(entityType, DeviceClasses)
  {
    if Contains(entityType, "voltage") then Some("voltage")
    else if Contains(entityType, "current") then Some("current")
    else if Contains(entityType, "power") then Some("power")
    else if Contains(entityType, "energy") then Some("energy")
    else if Contains(entityType, "frequency") then Some("frequency")
    else None
  }

  /**
   * Reference definition of a first-match search: the first candidate that
   * occurs in `s`, if any.
   */
  function FirstContained(s: string, candidates: seq<string>): (c: Option<string>)
    ensures c.None? <==> forall j :: 0 <= j < |candidates| ==> !Contains(s, candidates[j])
    ensures c.Some? ==> exists i :: 0 <= i < |candidates| && candidates[i] == c.value && Contains(s, c.value)
                          && forall j :: 0 <= j < i ==> !Contains(s, candidates[j])
    decreases |candidates|
  {
    if |candidates| == 0 then None
    else if Contains(s, candidates[0]) then Some(candidates[0])
    else
      var rest := FirstContained(s, candidates[1..]);
      assert forall j :: 1 <= j < |candidates| ==> candidates[j] == candidates[1..][j - 1];
      if rest.Some? then
        var i :| 0 <= i < |candidates[1..]| && candidates[1..][i] == rest.value && Contains(s, rest.value)
                 && forall j :: 0 <= j < i ==> !Contains(s, candidates[1..][j]);
        assert candidates[i + 1] == rest.value;
        rest
      else rest
  }

  /** The device class the host is asked for, derived from a measurement's unit. */
  function UnitClass(unit: string): string
  {
    if unit == "V" then "voltage"
    else if unit == "A" then "current"
    else if unit == "kWh" then "energy"
    else if unit == "Hz" then "frequency"
    else "power"
  }

  lemma StartsContains(s: string, prefix: string)
    requires StartsWith(s, prefix)
    ensures Contains(s, prefix)
  {
    assert OccursAt(s, prefix, 0);
  }

  lemma VoltageFamily(s: string)
    requires StartsWith(s, "voltage")
    ensures DeviceClassForEntity(s) == Some("voltage")
  {
    StartsContains(s, "voltage");
  }

  lemma CurrentFamily(s: string)
    requires StartsWith(s, "current") && 'v' !in s
    ensures DeviceClassForEntity(s) == Some("current")
  {
    MissingChar(s, "voltage", 'v');
    StartsContains(s, "current");
  }

  lemma PowerFamily(s: string, i: nat)
    requires OccursAt(s, "power", i) && 'g' !in s && 'u' !in s
    ensures DeviceClassForEntity(s) == Some("power")
  {
    MissingChar(s, "voltage", 'g');
    MissingChar(s, "current", 'u');
  }

  lemma EnergyFamily(suffix: string)
    requires 'v' !in suffix && 'c' !in suffix && 'w' !in suffix
    ensures DeviceClassForEntity("energy_" + suffix) == Some("energy")
  {
    var s := "energy_" + suffix;
    assert forall c :: c in s ==> c in "energy_" || c in suffix;
    MissingChar(s, "voltage", 'v');
    MissingChar(s, "current", 'c');
    MissingChar(s, "power", 'w');
    assert s[..6] == "energy";
    StartsContains(s, "energy");
  }

  lemma FrequencyFamily(suffix: string)
    requires 'v' !in suffix && 't' !in suffix && 'p' !in suffix && 'g' !in suffix
    ensures DeviceClassForEntity("frequency" + suffix) == Some("frequency")
  {
    var s := "frequency" + suffix;
    assert forall c :: c in s ==> c in "frequency" || c in suffix;
    MissingChar(s, "voltage", 'v');
    MissingChar(s, "current", 't');
    MissingChar(s, "power", 'p');
    MissingChar(s, "energy", 'g');
    assert s[..9] == "frequency";
    StartsContains(s, "frequency");
  }

  lemma VoltageKeys(n: Name)
    requires n.VoltageL1L2? || n.VoltageL2L3? || n.VoltageL3L1? || n.VoltageL1? || n.VoltageL2? || n.VoltageL3?
    ensures DeviceClassForEntity(Key(n)) == Some("voltage")
  {
    match n
    case VoltageL1L2 => VoltageFamily(Key(n));
    case VoltageL2L3 => VoltageFamily(Key(n));
    case VoltageL3L1 => VoltageFamily(Key(n));
    case VoltageL1 => VoltageFamily(Key(n));
    case VoltageL2 => VoltageFamily(Key(n));
    case VoltageL3 => VoltageFamily(Key(n));
  }

  lemma CurrentKeys(n: Name)
    requires n.CurrentL1? || n.CurrentL2? || n.CurrentL3? || n.CurrentNeutral?
    ensures DeviceClassForEntity(Key(n)) == Some("current")
  {
    match n
    case CurrentL1 => CurrentFamily(Key(n));
    case CurrentL2 => CurrentFamily(Key(n));
    case CurrentL3 => CurrentFamily(Key(n));
    case CurrentNeutral => CurrentFamily(Key(n));
  }

  lemma PowerPrefixed(prefix: string, suffix: string)
    requires prefix == "power_" || prefix == "reactive_power_"
    requires 'g' !in suffix && 'u' !in suffix
    ensures DeviceClassForEntity(prefix + suffix) == Some("power")
  {
    var s := prefix + suffix;
    var i := |prefix| - 6;
    assert s[i..i + 5] == prefix[i..i + 5];
    assert forall c :: c in s ==> c in prefix || c in suffix;
    PowerFamily(s, i);
  }

  lemma ActivePowerKeys(n: Name)
    requires n.PowerL1? || n.PowerL2? || n.PowerL3? || n.PowerTotal?
    ensures DeviceClassForEntity(Key(n)) == Some("power")
  {
    match n
    case PowerL1 => assert Key(n) == "power_" + "l1"; PowerPrefixed("power_", "l1");
    case PowerL2 => assert Key(n) == "power_" + "l2"; PowerPrefixed("power_", "l2");
    case PowerL3 => assert Key(n) == "power_" + "l3"; PowerPrefixed("power_", "l3");
    case PowerTotal => assert Key(n) == "power_" + "total"; PowerPrefixed("power_", "total");
  }

  lemma ReactivePowerKeys(n: Name)
    requires n.ReactivePowerL1? || n.ReactivePowerL2? || n.ReactivePowerL3? || n.ReactivePowerTotal?
    ensures DeviceClassForEntity(Key(n)) == Some("power")
  {
    match n
    case ReactivePowerL1 => assert Key(n) == "reactive_power_" + "l1"; PowerPrefixed("reactive_power_", "l1");
    case ReactivePowerL2 => assert Key(n) == "reactive_power_" + "l2"; PowerPrefixed("reactive_power_", "l2");
    case ReactivePowerL3 => assert Key(n) == "reactive_power_" + "l3"; PowerPrefixed("reactive_power_", "l3");
    case ReactivePowerTotal => assert Key(n) == "reactive_power_" + "total"; PowerPrefixed("reactive_power_", "total");
  }

  lemma PowerFactorPrefixed(suffix: string)
    requires 'g' !in suffix && 'u' !in suffix
    ensures DeviceClassForEntity("power_factor_" + suffix) == Some("power")
  {
    assert "power_" + ("factor_" + suffix) == "power_factor_" + suffix;
    PowerPrefixed("power_", "factor_" + suffix);
  }

  lemma PowerFactorKeys(n: Name)
    requires n.PowerFactorL1? || n.PowerFactorL2? || n.PowerFactorL3? || n.PowerFactorTotal?
    ensures DeviceClassForEntity(Key(n)) == Some("power")
  {
    match n
    case PowerFactorL1 => assert Key(n) == "power_factor_" + "l1"; PowerFactorPrefixed("l1");
    case PowerFactorL2 => assert Key(n) == "power_factor_" + "l2"; PowerFactorPrefixed("l2");
    case PowerFactorL3 => assert Key(n) == "power_factor_" + "l3"; PowerFactorPrefixed("l3");
    case PowerFactorTotal => assert Key(n) == "power_factor_" + "total"; PowerFactorPrefixed("total");
  }

  /**
   * For every voltage, current and power measurement the substring search
   * picks the device class that matches the register's unit; in particular
   * the reactive power and the power factor fall under "power". The energy
   * and frequency keys are covered by `EnergyFamily` and `FrequencyFamily`.
   */
  lemma DeviceClassOfKey(n: Name)
    requires !n.EnergyImportTotal? && !n.EnergyExportTotal? && !n.Frequency?
    ensures DeviceClassForEntity(Key(n)) == Some(UnitClass(Unit(n)))
  {
    match n
    case VoltageL1L2 | VoltageL2L3 | VoltageL3L1 | VoltageL1 | VoltageL2 | VoltageL3 => VoltageKeys(n);
    case CurrentL1 | CurrentL2 | CurrentL3 | CurrentNeutral => CurrentKeys(n);
    case PowerL1 | PowerL2 | PowerL3 | PowerTotal => ActivePowerKeys(n);
    case ReactivePowerL1 | ReactivePowerL2 | ReactivePowerL3 | ReactivePowerTotal => ReactivePowerKeys(n);
    case PowerFactorL1 | PowerFactorL2 | PowerFactorL3 | PowerFactorTotal => PowerFactorKeys(n);
  }

  // ----------------------------------------------------- network settings

  /**
   * `validate_network_settings`: host, then port, then slave id; the first
   * failing check names the one error returned.
   */
  function ValidateNetworkSettings(host: string, port: int, slaveId: int, isIpAddress: IpParser)
    : (errors: map<string, string>)
    ensures |errors| <= 1
    ensures errors == map[] <==> IsValidHost(host, isIpAddress) && 1 <= port <= MaxPort && 1 <= slaveId <= MaxSlaveId
    ensures !IsValidHost(host, isIpAddress) ==> errors == map[ConfHost := "invalid_host"]
    ensures errors.Keys <= {ConfHost, ConfPort, ConfSlaveId}
    ensures ConfPort in errors ==> IsValidHost(host, isIpAddress) && errors[ConfPort] == "invalid_port"
    ensures ConfSlaveId in errors ==> IsValidHost(host, isIpAddress) && 1 <= port <= MaxPort
                                      && errors[ConfSlaveId] == "invalid_slave_id"
    ensures IsValidHost(host, isIpAddress) && !(1 <= port <= MaxPort) ==> errors == map[ConfPort := "invalid_port"]
    ensures IsValidHost(host, isIpAddress) && 1 <= port <= MaxPort && !(1 <= slaveId <= MaxSlaveId) ==>
              errors == map[ConfSlaveId := "invalid_slave_id"]
  {
    if !IsValidHost(host, isIpAddress) then map[ConfHost := "invalid_host"]
    else if !(1 <= port <= 65535) then map[ConfPort := "invalid_port"]
    else if !(1 <= slaveId <= 247) then map[ConfSlaveId := "invalid_slave_id"]
    else map[]
  }

  /** The form's defaults pass the validator, and the default update interval lies in the form's range 1..300. */
  lemma DefaultsValid(isIpAddress: IpParser)
    ensures ValidateNetworkSettings(DefaultHost, DefaultPort, DefaultSlaveId, isIpAddress) == map[]
    ensures 1 <= DefaultUpdateInterval <= 300
  {
  }

  // ----------------------------------------------------- entity mappings

  /** Some required type is unmapped or mapped to the empty id. */
  predicate MissingRequired(mappings: map<string, string>)
  {
    exists t :: t in RequiredEntities && !IsMapped(mappings, Key(t))
  }

  /** The mapping of `entityType` names a non-empty id the state store does not know. */
  predicate UnknownEntity(states: States, mappings: map<string, string>, entityType: string)
  {
    entityType in mappings && mappings[entityType] != "" && mappings[entityType] !in states
  }

  /** The errors `validate_entity_mappings` reports for a mapping. */
  function EntityMappingErrors(states: States, mappings: map<string, string>): map<string, string>
  {
    if MissingRequired(mappings) then map["base" := "missing_required_entities"]
    else if exists k | k in mappings :: UnknownEntity(states, mappings, k) then map["base" := "invalid_entities"]
    else map[]
  }

  /** The list comprehension of the required types that are unmapped or mapped to the empty id. */
  method MissingRequiredEntities(mappings: map<string, string>) returns (missingRequired: seq<Name>)
    ensures forall t :: t in missingRequired <==> t in RequiredEntities && !IsMapped(mappings, Key(t))
  {
    missingRequired := [];
    for i := 0 to |RequiredEntities|
      invariant forall t :: t in missingRequired <==> t in RequiredEntities[..i] && !IsMapped(mappings, Key(t))
    {
      var entityType := RequiredEntities[i];
      if !(Key(entityType) in mappings && mappings[Key(entityType)] != "") {
        missingRequired := missingRequired + [entityType];
      }
    }
    assert RequiredEntities[..|RequiredEntities|] == RequiredEntities;
  }

  /** The loop collecting one `"<type>: <id>"` line per non-empty mapped id the state store does not know. */
  method InvalidEntities(states: States, mappings: map<string, string>) returns (invalidEntities: seq<string>)
    ensures |invalidEntities| > 0 <==> exists k | k in mappings :: UnknownEntity(states, mappings, k)
  {
    invalidEntities := [];
    var remaining := mappings.Keys;
    ghost var seen: set<string> := {};
    while remaining != {}
      invariant remaining + seen == mappings.Keys && remaining !! seen
      invariant |invalidEntities| > 0 <==> exists k | k in seen :: UnknownEntity(states, mappings, k)
      decreases |remaining|
    {
      var entityType :| entityType in remaining;
      var entityId := mappings[entityType];
      if entityId != "" && entityId !in states {
        invalidEntities := invalidEntities + [entityType + ": " + entityId];
      }
      remaining := remaining - {entityType};
      seen := seen + {entityType};
    }
  }

  /**
   * `validate_entity_mappings`: first collect the required types that are
   * unmapped; if there are any, report that alone. Otherwise collect the
   * mapped ids unknown to the state store.
   */
  method ValidateEntityMappings(states: States, mappings: map<string, string>) returns (errors: map<string, string>)
    ensures errors == EntityMappingErrors(states, mappings)
  {
    errors := map[];
    var missingRequired := MissingRequiredEntities(mappings);
    if |missingRequired| > 0 {
      assert missingRequired[0] in missingRequired;
      errors := errors["base" := "missing_required_entities"];
      return;
    }
    var invalidEntities := InvalidEntities(states, mappings);
    if |invalidEntities| > 0 {
      errors := errors["base" := "invalid_entities"];
    }
  }

  /**
   * A mapping passes validation exactly when every required type is mapped
   * and every non-empty mapped id is known to the state store; at most one
   * error is ever reported, under "base", and a missing required type hides
   * any unknown entity.
   */
  lemma EntityMappingErrorsIff(states: States, mappings: map<string, string>)
    ensures EntityMappingErrors(states, mappings) == map[]
        <==> (forall t :: t in RequiredEntities ==> IsMapped(mappings, Key(t)))
             && (forall k :: k in mappings && mappings[k] != "" ==> mappings[k] in states)
    ensures EntityMappingErrors(states, mappings).Keys <= {"base"}
    ensures MissingRequired(mappings)
        ==> EntityMappingErrors(states, mappings) == map["base" := "missing_required_entities"]
  {
    var errors := EntityMappingErrors(states, mappings);
    if MissingRequired(mappings) || exists k | k in mappings :: UnknownEntity(states, mappings, k) {
      assert "base" in errors;
    } else {
      forall k | k in mappings && mappings[k] != ""
        ensures mappings[k] in states
      {
        assert !UnknownEntity(states, mappings, k);
      }
    }
  }

  /**
   * After validation, the health check can only fail on what the host
   * reports (a sentinel or a non-numeric state), never on a missing entity,
   * and every required type is checked.
   */
  lemma ValidatedMappingsHealth(states: States, mappings: map<string, string>, toFloat: Parser)
    requires EntityMappingErrors(states, mappings) == map[]
    ensures CheckMeterHealth(mappings, states, toFloat)
        <==> exists t :: t in RequiredEntities && Key(t) in mappings && mappings[Key(t)] in states
               && (IsSentinel(states[mappings[Key(t)]]) || toFloat(states[mappings[Key(t)]]).None?)
  {
    EntityMappingErrorsIff(states, mappings);
  }

  // ------------------------------------------------------- parsing a form

  /** The prefix of the form fields that carry an entity mapping. */
  const MappingPrefix := ConfEntityMappings + "."

  /** A form's fields in the order the form submits them. */
  type FormInput = seq<(string, string)>

  /** The mapping one form field contributes, if any: its type and its stripped id. */
  function FieldMapping(field: (string, string)): Option<(string, string)>
  {
    var (key, value) := field;
    if StartsWith(key, MappingPrefix) && Strip(value) != "" then
      Some((ReplaceAll(key, MappingPrefix, ""), Strip(value)))
    else None
  }

  /** The mapping built from a sequence of contributions, a later one overriding an earlier one. */
  function Collect(contributions: seq<Option<(string, string)>>): map<string, string>
  {
    if |contributions| == 0 then map[]
    else
      var previous := Collect(contributions[..|contributions| - 1]);
      match contributions[|contributions| - 1]
      case Some((entityType, entityId)) => previous[entityType := entityId]
      case None => previous
  }

  /** The contribution of every field of a form, in order. */
  function Contributions(input: FormInput): (contributions: seq<Option<(string, string)>>)
    ensures |contributions| == |input|
    ensures forall i :: 0 <= i < |input| ==> contributions[i] == FieldMapping(input[i])
  {
    seq(|input|, i requires 0 <= i < |input| => FieldMapping(input[i]))
  }

  /** The mapping `parse_entity_mappings` builds from a form. */
  function ParsedMappings(input: FormInput): map<string, string>
  {
    Collect(Contributions(input))
  }

  /**
   * `parse_entity_mappings`: every field with the mapping prefix and a
   * non-blank value maps the type named by the rest of its key to its
   * stripped value; a later field overrides an earlier one for the same type.
   */
  method ParseEntityMappings(userInput: FormInput) returns (entityMappings: map<string, string>)
    ensures entityMappings == ParsedMappings(userInput)
  {
    ghost var contributions := Contributions(userInput);
    entityMappings := map[];
    for i := 0 to |userInput|
      invariant entityMappings == Collect(contributions[..i])
    {
      assert contributions[..i + 1][..i] == contributions[..i];
      var (key, value) := userInput[i];
      if StartsWith(key, MappingPrefix) {
        var entityType := ReplaceAll(key, MappingPrefix, "");
        if Strip(value) != "" {
          entityMappings := entityMappings[entityType := Strip(value)];
        }
      }
    }
    assert contributions[..|userInput|] == contributions;
  }

  /** The contribution maps `entityType`. */
  predicate Gives(contribution: Option<(string, string)>, entityType: string)
  {
    contribution.Some? && contribution.value.0 == entityType
  }

  /** A type is collected exactly when some contribution maps it. */
  lemma {:induction false} CollectMember(contributions: seq<Option<(string, string)>>, entityType: string)
    ensures entityType in Collect(contributions)
        <==> exists i :: 0 <= i < |contributions| && Gives(contributions[i], entityType)
    decreases |contributions|
  {
    if |contributions| > 0 {
      var previous := contributions[..|contributions| - 1];
      CollectMember(previous, entityType);
      assert forall j :: 0 <= j < |previous| ==> previous[j] == contributions[j];
    }
  }

  /** The id collected for a type comes from the last contribution mapping it. */
  lemma {:induction false} CollectLastWins(contributions: seq<Option<(string, string)>>, entityType: string)
    requires entityType in Collect(contributions)
    ensures exists i :: 0 <= i < |contributions| && Gives(contributions[i], entityType)
                        && (forall j :: i < j < |contributions| ==> !Gives(contributions[j], entityType))
                        && Collect(contributions)[entityType] == contributions[i].value.1
    decreases |contributions|
  {
    var last := |contributions| - 1;
    if !Gives(contributions[last], entityType) {
      var previous := contributions[..last];
      CollectLastWins(previous, entityType);
      var i :| 0 <= i < |previous| && Gives(previous[i], entityType)
               && (forall j :: i < j < |previous| ==> !Gives(previous[j], entityType))
               && Collect(previous)[entityType] == previous[i].value.1;
      assert previous[i] == contributions[i];
      assert forall j :: i < j < |previous| ==> previous[j] == contributions[j];
    }
  }

  /** Field `i` of the form is the last one contributing a mapping for `entityType`. */
  predicate LastFieldFor(input: FormInput, entityType: string, i: int)
  {
    0 <= i < |input| && Gives(FieldMapping(input[i]), entityType)
    && forall j :: i < j < |input| ==> !Gives(FieldMapping(input[j]), entityType)
  }

  /**
   * A type is in the parsed mapping exactly when some field contributes it;
   * its id is the stripped value of the last such field, so a later field
   * wins, and it is never blank and carries no surrounding whitespace.
   */
  lemma ParsedMappingsAt(input: FormInput, entityType: string)
    ensures entityType in ParsedMappings(input)
        <==> exists i :: 0 <= i < |input| && Gives(FieldMapping(input[i]), entityType)
    ensures entityType in ParsedMappings(input) ==>
      exists i :: LastFieldFor(input, entityType, i)
                  && ParsedMappings(input)[entityType] == Strip(input[i].1)
    ensures entityType in ParsedMappings(input) ==>
      ParsedMappings(input)[entityType] != "" && IsStripped(ParsedMappings(input)[entityType])
  {
    var contributions := Contributions(input);
    CollectMember(contributions, entityType);
    if entityType in ParsedMappings(input) {
      CollectLastWins(contributions, entityType);
      var i :| 0 <= i < |contributions| && Gives(contributions[i], entityType)
               && (forall j :: i < j < |contributions| ==> !Gives(contributions[j], entityType))
               && Collect(contributions)[entityType] == contributions[i].value.1;
      assert LastFieldFor(input, entityType, i);
    }
  }

  /** No measurement key contains a dot, so none contains the mapping prefix. */
  lemma KeyHasNoDot(t: Name)
    ensures '.' !in Key(t)
  {
    match t
    case VoltageL1L2 | VoltageL2L3 | VoltageL3L1 | VoltageL1 | VoltageL2 | VoltageL3 => VoltageKeysHaveNoDot(t);
    case CurrentL1 | CurrentL2 | CurrentL3 | CurrentNeutral | PowerL1 | PowerL2 | PowerL3 | PowerTotal => CurrentAndPowerKeysHaveNoDot(t);
    case _ => OtherKeysHaveNoDot(t);
  }
  lemma VoltageKeysHaveNoDot(t: Name)
    requires t.VoltageL1L2? || t.VoltageL2L3? || t.VoltageL3L1? || t.VoltageL1? || t.VoltageL2? || t.VoltageL3?
    ensures '.' !in Key(t)
  {
  }
  lemma CurrentAndPowerKeysHaveNoDot(t: Name)
    requires t.CurrentL1? || t.CurrentL2? || t.CurrentL3? || t.CurrentNeutral? || t.PowerL1? || t.PowerL2? || t.PowerL3? || t.PowerTotal?
    ensures '.' !in Key(t)
  {
  }
  lemma OtherKeysHaveNoDot(t: Name)
    requires !(t.VoltageL1L2? || t.VoltageL2L3? || t.VoltageL3L1? || t.VoltageL1? || t.VoltageL2? || t.VoltageL3?)
    requires !(t.CurrentL1? || t.CurrentL2? || t.CurrentL3? || t.CurrentNeutral? || t.PowerL1? || t.PowerL2? || t.PowerL3? || t.PowerTotal?)
    ensures '.' !in Key(t)
  {
  }

  /** Every form field for a mapping type lands under that type's own key. */
  lemma FormKeyParses(t: Name)
    ensures ReplaceAll(MappingPrefix + Key(t), MappingPrefix, "") == Key(t)
    ensures StartsWith(MappingPrefix + Key(t), MappingPrefix)
  {
    KeyHasNoDot(t);
    assert '.' in MappingPrefix;
    MissingChar(Key(t), MappingPrefix, '.');
    RemovePrefix(MappingPrefix, Key(t));
    assert (MappingPrefix + Key(t))[..|MappingPrefix|] == MappingPrefix;
  }
}
