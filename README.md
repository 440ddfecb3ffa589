# DTSU666 meter emulator: register engine

This project models the core of a Home Assistant integration that emulates a
CHINT DTSU666 three-phase energy meter, served over Modbus on UDP. The
integration keeps a block of 10000 holding registers. Once per update interval
it does three things:

- It reads the states of the Home Assistant entities mapped to the meter's
  measurements.
- It fills any measurement that is still zero from physically consistent
  rules: voltages from the phase 1 voltage, phase powers from the total power,
  currents from power and voltage, and the power factor from active and
  reactive power.
- It writes every measurement into its register as a scaled, truncated 16-bit
  word.

When a mapped *required* measurement (total power, phase 1 voltage,
frequency) has no usable state, the meter "fails": every catalog register is
zeroed and the caches are cleared until the entities recover. The
configuration side does four things:

- It validates host, port and slave id.
- It parses `entity_mappings.<type>` form fields into a mapping.
- It validates a mapping against the host's state store.
- It merges an options form into the stored mapping.

Before starting, the integration checks the stored entry.

Modules, one per concern:

- `Catalog`: the register map, mapping types, required entities and default
  values. The 25 measurements are the `Name` datatype, and address, scale,
  unit, key and default are functions of it.
- `Encoding`: the word a value is stored as, and how a client reads it back.
- `Resolution`: the health check, and defaults overridden by readable mapped
  states.
- `Derivation`: the zero-filling rules, as specification functions and as the
  step-by-step methods the server runs.
- `Server`: the `MeterServer` class, with its register block (`array`), its
  caches (`map` fields) and its failed flag. It also holds the update cycle,
  failure simulation and getters.
- `Text`: Python's `strip`, `startswith`, `in` and `replace` on strings.
- `Utils`: host, network, device-class and entity-mapping validation, and
  form parsing.
- `EntryValidation`: the setup-time check of a stored entry.
- `ConfigFlow`: the flow's gates and the options merge.

Several things the engine gets from its platform are parameters:

- The state store is a `map<string, string>` from entity id to state.
- Python's `float()` on a state string is a parameter `toFloat`, an arbitrary
  partial function.
- `** 0.5` is a parameter `sqrt`, constrained to be a square root.
- `ipaddress.ip_address` is a parameter `isIpAddress`.

## Model

| member | source | states |
|---|---|---|
| Catalog.Addr | custom_components/dtsu666_emulator/const.py:21-62 | every register address lies inside the 10000-word block |
| Catalog.Scale | custom_components/dtsu666_emulator/const.py:21-62 | every register's scale is 0.1, 0.01 or 0.001, hence positive |
| Catalog.DefaultValue | custom_components/dtsu666_emulator/const.py:91-129 | every default, divided by its scale, is a non-negative signed 16-bit quantity |
| Catalog.AddrInverse | custom_components/dtsu666_emulator/const.py:21-62 | decoding a measurement's address finds that measurement |
| Catalog.AddressesDistinct | custom_components/dtsu666_emulator/const.py:21-62 | no two measurements share a register |
| Catalog.AddressOwned | custom_components/dtsu666_emulator/const.py:21-62 | a measurement's register belongs to it alone |
| Catalog.KeyInjective | custom_components/dtsu666_emulator/const.py:21-62 | the 25 register-map keys are pairwise distinct |
| Catalog.KeyUnique | custom_components/dtsu666_emulator/const.py:21-62 | a key names exactly one measurement |
| Catalog.AllNamesComplete | custom_components/dtsu666_emulator/const.py:21-62 | the catalog's listing contains every measurement |
| Catalog.NameOf | custom_components/dtsu666_emulator/modbus_server.py:155 | `key in REGISTER_MAP` as a lookup: a found measurement has that key, and `None` means no measurement has it |
| Catalog.NameOfKey | custom_components/dtsu666_emulator/modbus_server.py:155-160 | looking up a measurement's own key finds that measurement |
| Catalog.RequiredAreMappable | custom_components/dtsu666_emulator/const.py:65-88 | each required entity is one of the mapping types |
| Encoding.Trunc | custom_components/dtsu666_emulator/modbus_server.py:165 | `int()` truncates toward zero: the result is the integer within one unit below a non-negative or above a negative argument |
| Encoding.ToWord | custom_components/dtsu666_emulator/modbus_server.py:167-172 | the stored word is in [0, 65535]. In-range values are kept, and negatives down to -65536 are stored as their two's complement. Larger values saturate at 65535, and values below -65536 become 0 |
| Encoding.EncodeRegister | custom_components/dtsu666_emulator/modbus_server.py:165-172 | the word written is a 16-bit word. It is the whole part of value/scale when that fits in [0, 65535], and the two's complement of the whole part when value/scale is in (-65536, -1]. It is 0 in (-1, 0) and at or below -65536, and saturates at 65535 at or above 65536 |
| Encoding.ScaleToWord | custom_components/dtsu666_emulator/modbus_server.py:165-172 | the three statements of one register write compute `EncodeRegister` |
| Encoding.Signed16 | custom_components/dtsu666_emulator/modbus_server.py:167-169 | reading a word as signed gives a value in [-32768, 32767] congruent to the word modulo 2^16 |
| Encoding.SignedRoundTrip | custom_components/dtsu666_emulator/modbus_server.py:167-172 | every signed 16-bit raw value survives encoding followed by signed decoding |
| Encoding.TruncWithinOne | custom_components/dtsu666_emulator/modbus_server.py:165 | truncation loses strictly less than one unit |
| Encoding.DecodeWithinResolution | custom_components/dtsu666_emulator/modbus_server.py:162-172 | for a value whose scaled raw value fits 16 bits signed, the decoded word times the scale is within one resolution step of it |
| Encoding.EncodeVoltageExample | custom_components/dtsu666_emulator/modbus_server.py:165-172 | 230.0 V at scale 0.1 is stored as 2300 |
| Encoding.EncodeNegativeCurrentExample | custom_components/dtsu666_emulator/modbus_server.py:165-172 | -5.0 A at scale 0.001 is stored as 60536, which a client reads as -5000 |
| Resolution.CheckMeterHealth | custom_components/dtsu666_emulator/modbus_server.py:193-212 | the meter should fail exactly when some required type is mapped to a non-empty id whose state is missing, a sentinel or not numeric |
| Resolution.FirstUnreadableIff | custom_components/dtsu666_emulator/modbus_server.py:195-212 | the early-returning loop over the required types agrees with the existential condition above, for any list of types |
| Resolution.UnmappedRequiredNeverFail | custom_components/dtsu666_emulator/modbus_server.py:196-198 | with no required type mapped the meter never fails, whatever the states |
| Resolution.MappedValues | custom_components/dtsu666_emulator/modbus_server.py:226-245 | the resolved values cover every catalog measurement |
| Resolution.MappedValueSource | custom_components/dtsu666_emulator/modbus_server.py:231-245 | a measurement takes its mapped entity's parsed state exactly when that mapping is non-empty and the state is present, not a sentinel and numeric; otherwise it keeps its default |
| Resolution.MappedValuesPointwise | custom_components/dtsu666_emulator/modbus_server.py:231-245 | any map that agrees with the per-measurement resolution rule is the resolver's result |
| Resolution.ExtraMappingsIgnored | custom_components/dtsu666_emulator/modbus_server.py:235-236 | mapping entries whose key is not a register name do not affect the resolved values |
| Derivation.DerivedAt | custom_components/dtsu666_emulator/modbus_server.py:252-307 | at every key, the pass writes only derivable keys and keeps values that were non-zero |
| Derivation.DerivedFrame | custom_components/dtsu666_emulator/modbus_server.py:252-307 | the pass keeps every key, adds only derivable keys, never changes a non-zero value, and leaves non-derivable keys as they were |
| Derivation.DerivedVoltages | custom_components/dtsu666_emulator/modbus_server.py:256-271 | a line-to-line voltage that was zero becomes 1.732 times a positive phase 1 voltage, and a phase 2 or 3 voltage that was zero becomes that voltage |
| Derivation.DerivedPhasePowers | custom_components/dtsu666_emulator/modbus_server.py:273-281 | a phase power that was zero becomes a third of a positive total power |
| Derivation.PhasePowerAt | custom_components/dtsu666_emulator/modbus_server.py:273-281 | the phase power rule, for one phase |
| Derivation.DerivedCurrents | custom_components/dtsu666_emulator/modbus_server.py:283-294 | a phase current that was zero becomes power*1000/voltage from the phase power and voltage produced earlier in the same pass, when both are positive |
| Derivation.DerivedCurrentAt | custom_components/dtsu666_emulator/modbus_server.py:283-294 | the current rule, for one phase |
| Derivation.DerivedPowerFactor | custom_components/dtsu666_emulator/modbus_server.py:296-305 | a total power factor that was zero becomes the rule's value for the total active and reactive power |
| Derivation.PowerFactorBounds | custom_components/dtsu666_emulator/modbus_server.py:296-305 | the derived power factor is in [0, 1]. It is 0 (left alone) unless active power is positive, 1 when reactive power is not positive, and otherwise active power over the apparent power, whose square is P² + Q² |
| Derivation.RootIsUnique | custom_components/dtsu666_emulator/modbus_server.py:302 | the square root parameter is determined on non-negative arguments |
| Derivation.PowerFactorExample | custom_components/dtsu666_emulator/modbus_server.py:300-303 | 3 kW active and 4 kVAr reactive power give power factor 0.6 |
| Derivation.ExampleVoltages | custom_components/dtsu666_emulator/modbus_server.py:256-271 | from 230 V on phase 1, all three line-to-line voltages become 398.36 V, and phases 2 and 3 become 230 V |
| Derivation.ExamplePhasePowers | custom_components/dtsu666_emulator/modbus_server.py:273-281 | a 9 kW total splits into 3 kW on each of the three phases |
| Derivation.ExampleCurrent | custom_components/dtsu666_emulator/modbus_server.py:283-294 | 3 kW at 230 V gives a phase current of 3000/230 A |
| Derivation.ExamplePowerFactor | custom_components/dtsu666_emulator/modbus_server.py:296-305 | positive active power with no reactive power gives power factor 1 |
| Derivation.CalculateDerivedValues | custom_components/dtsu666_emulator/modbus_server.py:252-307 | the method applying the rules in source order computes the specification `Derived` |
| Derivation.FillVoltages | custom_components/dtsu666_emulator/modbus_server.py:256-271 | the voltage statements compute the voltage stage |
| Derivation.FillLineVoltages | custom_components/dtsu666_emulator/modbus_server.py:259-265 | the three line-to-line statements compute the zero-fill of those keys |
| Derivation.FillPhaseVoltages | custom_components/dtsu666_emulator/modbus_server.py:267-271 | the phase 2 and 3 statements compute the zero-fill of those keys |
| Derivation.SplitTotalPower | custom_components/dtsu666_emulator/modbus_server.py:273-281 | the phase power statements compute the power stage |
| Derivation.FillCurrents | custom_components/dtsu666_emulator/modbus_server.py:283-294 | the loop over the three phases computes the current stage, phase by phase |
| Derivation.FillPowerFactor | custom_components/dtsu666_emulator/modbus_server.py:296-305 | the power factor statements compute the power factor rule |
| Server.ResolvedCoversCatalog | custom_components/dtsu666_emulator/modbus_server.py:226-250 | a healthy cycle resolves a value for every catalog measurement |
| Server.ResolvedUnderived | custom_components/dtsu666_emulator/modbus_server.py:226-250 | a measurement no rule derives is published as its readable mapped state, or else as its default |
| Server.DefaultPublishedExactly | custom_components/dtsu666_emulator/modbus_server.py:165-172 | every default is stored as its truncated quotient by the scale, a word in 0..32767, so the two's-complement shift and the clamp never touch it |
| Server.BlankCatalogRegisters | custom_components/dtsu666_emulator/modbus_server.py:218-220 | every catalog register becomes zero and every other word of the block is unchanged |
| Server.MeterServer.constructor | custom_components/dtsu666_emulator/modbus_server.py:21-44 | the configuration is stored, there is no block yet, the server is neither running nor failed, and the caches are empty |
| Server.MeterServer.Start | custom_components/dtsu666_emulator/modbus_server.py:46-50 | starting allocates a fresh zeroed block of 10000 words and marks the server running |
| Server.MeterServer.Stop | custom_components/dtsu666_emulator/modbus_server.py:98-116 | stopping clears the running flag only and keeps the cache invariant |
| Server.MeterServer.CachedWordReadsBack | custom_components/dtsu666_emulator/modbus_server.py:178-179 | a cached word, read as signed and scaled, is within one resolution step of the cached value |
| Server.MeterServer.GetRegisterValue | custom_components/dtsu666_emulator/modbus_server.py:309-311 | the cached value of a named measurement when a healthy cycle published it. It is `None` for an unknown name and whenever the meter is failed |
| Server.MeterServer.GetRawRegisterValue | custom_components/dtsu666_emulator/modbus_server.py:313-315 | a word is present exactly when the value is, is a 16-bit word, and is the encoding of the cached value |
| Server.MeterServer.IsMeterFailed | custom_components/dtsu666_emulator/modbus_server.py:322-324 | a failed meter reports no value and no word for any name |
| Server.MeterServer.SimulateMeterFailure | custom_components/dtsu666_emulator/modbus_server.py:214-224 | with a block, the catalog registers are zeroed (nothing else in the block changes) and both caches are cleared. Without a block nothing changes |
| Server.MeterServer.WriteRegister | custom_components/dtsu666_emulator/modbus_server.py:158-179 | exactly one word changes: the measurement's register now holds the encoded value. Both caches are updated for that measurement and stay consistent |
| Server.MeterServer.PublishRegisters | custom_components/dtsu666_emulator/modbus_server.py:153-191 | every given measurement is cached with its value and its register holds its cached word. The register of every measurement not given keeps its word, other cache entries are kept, and only catalog registers change |
| Server.MeterServer.GetAllRegisterValues | custom_components/dtsu666_emulator/modbus_server.py:226-250 | the method computes the resolved-then-derived values |
| Server.MeterServer.ResolveMapped | custom_components/dtsu666_emulator/modbus_server.py:228-245 | the loop over the mapping computes the resolver's result |
| Server.MeterServer.ApplyMapping | custom_components/dtsu666_emulator/modbus_server.py:234-245 | one mapping entry replaces its measurement's value only when the entity is readable, and leaves every other value alone |
| Server.MeterServer.UpdateRegisters | custom_components/dtsu666_emulator/modbus_server.py:130-191 | a cycle without a block changes nothing, and an unhealthy cycle on a failed meter changes nothing. An unhealthy cycle on a healthy meter fails it (catalog registers zeroed, caches cleared). A healthy cycle clears the flag and publishes every resolved and derived value to its register, changing only catalog registers |
| Server.MeterServer.PublishAll | custom_components/dtsu666_emulator/modbus_server.py:150-191 | the healthy cycle caches exactly the resolved and derived values and publishes them, changing only catalog registers |
| Text.LeadingSpaces | custom_components/dtsu666_emulator/utils.py:98-99 | the length of the maximal whitespace run at the start |
| Text.TrailingSpaces | custom_components/dtsu666_emulator/utils.py:98-99 | the length of the maximal whitespace run at the end |
| Text.Strip | custom_components/dtsu666_emulator/utils.py:98-99 | `strip()` gives a string with no whitespace at either end, no longer than its input |
| Text.StripTrims | custom_components/dtsu666_emulator/utils.py:98-99 | `strip()` keeps a contiguous slice and removes only whitespace around it; the result is empty exactly when the input is all whitespace |
| Text.StripIdempotent | custom_components/dtsu666_emulator/config_flow.py:195-197 | stripping twice is stripping once |
| Text.MissingChar | custom_components/dtsu666_emulator/utils.py:29-38 | a string lacking one character of a pattern does not contain the pattern |
| Text.ReplaceAbsent | custom_components/dtsu666_emulator/utils.py:96 | `replace` of a pattern that does not occur changes nothing |
| Text.RemovePrefix | custom_components/dtsu666_emulator/utils.py:95-96 | replacing a prefix that does not recur in the rest yields the rest |
| Utils.IsValidHost | custom_components/dtsu666_emulator/utils.py:15-24 | "0.0.0.0" and "localhost" are valid, and any other host is valid exactly when it parses as an IP address |
| Utils.SpecialHostsValid | custom_components/dtsu666_emulator/utils.py:17-18 | the two special hosts are valid whatever the address parser does |
| Utils.DeviceClassForEntity | custom_components/dtsu666_emulator/utils.py:27-39 | the device class is the first of voltage, current, power, energy, frequency that occurs in the type, or none |
| Utils.FirstContained | custom_components/dtsu666_emulator/utils.py:27-39 | reference first-match search: `None` exactly when no candidate occurs, else an occurring candidate with no earlier one occurring |
| Utils.DeviceClassOfKey | custom_components/dtsu666_emulator/utils.py:27-39 | for every voltage, current, power, reactive power and power factor key, the substring search returns the class of the register's unit |
| Utils.VoltageFamily | custom_components/dtsu666_emulator/utils.py:29-30 | a type starting with "voltage" has class voltage |
| Utils.CurrentFamily | custom_components/dtsu666_emulator/utils.py:31-32 | a type starting with "current" and containing no 'v' has class current |
| Utils.PowerFamily | custom_components/dtsu666_emulator/utils.py:33-34 | a type containing "power" but no 'g' and no 'u' has class power |
| Utils.EnergyFamily | custom_components/dtsu666_emulator/utils.py:35-36 | "energy_" followed by anything without 'v', 'c' or 'w' (so both energy keys) has class energy |
| Utils.FrequencyFamily | custom_components/dtsu666_emulator/utils.py:37-38 | "frequency" followed by anything without 'v', 't', 'p' or 'g' (so the frequency key) has class frequency |
| Utils.ValidateNetworkSettings | custom_components/dtsu666_emulator/utils.py:42-55 | there is at most one error, and none exactly when the host is valid, the port is in 1..65535 and the slave id is in 1..247. The host is checked first, then the port, then the slave id |
| Utils.DefaultsValid | custom_components/dtsu666_emulator/const.py:14-17 | the default host, port and slave id pass validation, and the default interval lies in the form's range 1..300 |
| Utils.MissingRequiredEntities | custom_components/dtsu666_emulator/utils.py:66-69 | the comprehension lists exactly the required types that are unmapped or mapped to an empty id |
| Utils.InvalidEntities | custom_components/dtsu666_emulator/utils.py:77-80 | some line is collected exactly when some non-empty mapped id is unknown to the state store |
| Utils.ValidateEntityMappings | custom_components/dtsu666_emulator/utils.py:58-86 | the method computes the specified errors: a missing required type reported alone, then unknown entities |
| Utils.EntityMappingErrorsIff | custom_components/dtsu666_emulator/utils.py:58-86 | a mapping validates exactly when every required type is mapped and every non-empty mapped id is known. Errors appear only under "base", and a missing required type is reported as such |
| Utils.ValidatedMappingsHealth | custom_components/dtsu666_emulator/utils.py:58-86 | after validation the health check fails exactly when a required entity's state is a sentinel or not numeric |
| Utils.ParseEntityMappings | custom_components/dtsu666_emulator/utils.py:89-101 | the loop over the form computes the specified parsed mapping |
| Utils.CollectMember | custom_components/dtsu666_emulator/utils.py:94-99 | a type is collected exactly when some field contributes it |
| Utils.CollectLastWins | custom_components/dtsu666_emulator/utils.py:94-99 | a collected type's id comes from the last field contributing it |
| Utils.ParsedMappingsAt | custom_components/dtsu666_emulator/utils.py:89-101 | a type is parsed exactly when some prefixed field with a non-blank value names it. Its id is the stripped value of the last such field, never blank and never padded |
| Utils.KeyHasNoDot | custom_components/dtsu666_emulator/const.py:21-62 | no register key contains a dot |
| Utils.FormKeyParses | custom_components/dtsu666_emulator/utils.py:95-96 | the form field of each mapping type passes the prefix test and is parsed back to that type's key |
| EntryValidation.ValidateEntryData | custom_components/dtsu666_emulator/__init__.py:66-94 | an entry passes exactly when host, port and slave id are present, the host is a non-empty string, and port and slave id are integers (booleans included) in 1..65535 and 1..247 |
| EntryValidation.MissingFieldRejected | custom_components/dtsu666_emulator/__init__.py:69-73 | a missing required field rejects the entry |
| EntryValidation.FloatPortRejected | custom_components/dtsu666_emulator/__init__.py:80-88 | a port or slave id stored as a float is rejected, whatever its value, even when integral |
| EntryValidation.BooleanFieldsAccepted | custom_components/dtsu666_emulator/__init__.py:80-88 | `True` passes as port 1 and slave id 1 |
| EntryValidation.ExtraFieldsIgnored | custom_components/dtsu666_emulator/__init__.py:66-94 | fields other than host, port and slave id do not affect the verdict |
| EntryValidation.FlowEntriesValid | custom_components/dtsu666_emulator/config_flow.py:47-91 | every entry the configuration flow creates passes the setup check |
| ConfigFlow.MergeEntityMappings | custom_components/dtsu666_emulator/config_flow.py:187-199 | the loop over the mapping types computes the specified merge |
| ConfigFlow.MergedEntryIdempotent | custom_components/dtsu666_emulator/config_flow.py:193-199 | applying one field's rule twice equals applying it once |
| ConfigFlow.MergeOneAt | custom_components/dtsu666_emulator/config_flow.py:192-199 | one iteration changes only its own type's entry |
| ConfigFlow.MergeTypesAt | custom_components/dtsu666_emulator/config_flow.py:192-199 | after the loop, a visited type's entry has been merged and an unvisited one is as it was |
| ConfigFlow.MergeTypesOther | custom_components/dtsu666_emulator/config_flow.py:186-199 | keys of no visited type keep their entries |
| ConfigFlow.MergedRule | custom_components/dtsu666_emulator/config_flow.py:185-199 | a type whose field was not submitted keeps its entry, a non-blank field sets the stripped value, and a blank field removes the entry. Keys of no mapping type are untouched |
| ConfigFlow.MergeIdempotent | custom_components/dtsu666_emulator/config_flow.py:185-199 | submitting the same options form twice changes nothing the second time |
| ConfigFlow.UserStep | custom_components/dtsu666_emulator/config_flow.py:47-57 | the flow advances, keeping the submitted data, exactly when a form was submitted and its network settings validate. Otherwise the form is shown again with at most one error, and with none when nothing was submitted |
| ConfigFlow.EntitiesStep | custom_components/dtsu666_emulator/config_flow.py:76-91 | the parsed mapping is saved exactly when it validates; otherwise the form is shown again with the validator's errors |
| ConfigFlow.OptionsEntitiesStep | custom_components/dtsu666_emulator/config_flow.py:179-209 | the merged mapping is saved exactly when it validates, and a saved mapping maps every required type; otherwise the form is shown again with the validator's errors |

## Left out

- The asynchronous lifecycle is not modelled: the server and update tasks, the pymodbus device identity, context and UDP server (modbus_server.py:46-116). `Start` only allocates the block and sets the flag, and `Stop` only clears the flag.
- The periodic update loop and its sleep (modbus_server.py:118-128) are not modelled, because they are timing. One call of `UpdateRegisters` is one iteration.
- The Modbus wire protocol and any address offset the pymodbus context applies are not modelled. Addresses index the block directly.
- Logging is left out, and so are the `try`/`except` blocks around each register write and around the entry check. Within the model, no statement they guard can raise.
- Floating point is modelled by exact reals. Rounding in `value / scale`, in `* 1.732` and in the square root is not captured. For example, in doubles `0.95 / 0.001` is 949.999…, so the program publishes 949 for the default power factor, where `Server.DefaultPublishedExactly` gives 950.
- Non-finite states are not modelled. A state such as "nan" or "inf" passes `float()` and the health check, but `int()` then raises on it. The exception is caught, so that register keeps its old word and neither cache is updated for it. In the model, `toFloat` returns only finite reals, so every readable state is written.
- Python's `float()` on a state string and `ipaddress.ip_address` are opaque parameters. `** 0.5` is a parameter assumed to be an exact square root.
- `Text.Strip` removes only space, tab, line feed, carriage return, vertical tab and form feed. Python's `strip()` also removes the ASCII separators `\x1c`–`\x1f` and Unicode whitespace.
- Form values are modelled as strings. A `None` or non-string form value, which the `value and value.strip()` test would also treat as blank, is not modelled.
- `Utils.ParseEntityMappings` takes the form as an ordered sequence of fields, because a Python dict keeps insertion order. `ConfigFlow.MergeEntityMappings` takes it as a map, since it only looks fields up.
- The options step also calls `parse_entity_mappings` on the form (config_flow.py:191) but never uses the result, so the model leaves that call out.
- The rest of the configuration flow is Home Assistant plumbing and is not modelled: form schemas, selectors, menus, the network-options step (config_flow.py:143-177) and the update-interval step (config_flow.py:237-256). `Utils.DefaultsValid` covers the schema's range for the interval.
- The sensor platform (sensor.py) is outside the register engine and is not modelled.
- The `register_name not in REGISTER_MAP` skip in the write loop (modbus_server.py:155-156) cannot fire in the model. Values are keyed by the `Name` enumeration, so every written key is a register.
- `is_running` (modbus_server.py:317-320) returns the field as it is and is read directly as `running`.
- Utils.DeviceClassOfKey: covers the voltage, current, power, reactive power and power factor keys. The two energy keys and the frequency key are covered by `Utils.EnergyFamily` and `Utils.FrequencyFamily`, which apply to them directly; the combined per-key statement was too costly to prove.
- EntryValidation.FlowEntriesValid: needs the address parser to reject the empty string, as `ipaddress.ip_address("")` does. Without that, the network validator alone does not exclude an empty host.
- The encoder clamps after the two's-complement shift (modbus_server.py:168-172), so the clamp is not a signed clamp.
- The power factor is derived only when active power is positive, and it is not capped (modbus_server.py:300-305).
- A failing cycle has no backoff: the loop sleeps the same update interval after an error (modbus_server.py:126-128).
