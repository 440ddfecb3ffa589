/**
 * How the engine reads the host platform: the health check over the required
 * measurements and the first phase of value resolution (defaults overridden by
 * readable mapped entities). The host's state store is a map from entity id to
 * state string, an absent id standing for "no state"; Python's `float()` is
 * the parser `toFloat`, which the model treats as an arbitrary partial function.
 */
module Resolution {
  import opened Wrappers
  import opened Catalog

  /** Entity id -> state string, as the host reports it. */
  type States = map<string, string>

  /** Python's `float()` on a state string: `None` where it raises. */
  type Parser = string -> Option<real>

  /** The two sentinel states of an entity without a usable value. */
  predicate IsSentinel(state: string)
  {
    state == "unknown" || state == "unavailable"
  }

  /** `entity_mappings.get(t)` is truthy: the type is mapped to a non-empty entity id. */
  predicate IsMapped(mappings: map<string, string>, t: string)
  {
    t in mappings && mappings[t] != ""
  }

  /** The entity has a state that is not a sentinel and parses as a number. */
  predicate Readable(states: States, id: string, toFloat: Parser)
  {
    id in states && !IsSentinel(states[id]) && toFloat(states[id]).Some?
  }

  /**
   * The loop of the health check over `required`, in order, returning at the
   * first mapped type whose entity is missing, a sentinel or non-numeric.
   * Unmapped types are skipped.
   */
  function FirstUnreadable(mappings: map<string, string>, states: States, toFloat: Parser,
                           required: seq<Name>): (fail: bool)
    decreases |required|
  {
    if required == [] then false
    else
      var t := Key(required[0]);
      if !IsMapped(mappings, t) then FirstUnreadable(mappings, states, toFloat, required[1..])
      else
        var id := mappings[t];
        if id !in states || IsSentinel(states[id]) then true
        else if toFloat(states[id]).None? then true
        else FirstUnreadable(mappings, states, toFloat, required[1..])
  }

  /** True when the meter should fail: some required measurement is mapped but unreadable. */
  function CheckMeterHealth(mappings: map<string, string>, states: States, toFloat: Parser): (fail: bool)
    ensures fail <==> exists t :: t in RequiredEntities && IsMapped(mappings, Key(t)) && !Readable(states, mappings[Key(t)], toFloat)
  {
    FirstUnreadableIff(mappings, states, toFloat, RequiredEntities);
    FirstUnreadable(mappings, states, toFloat, RequiredEntities)
  }

  lemma {:induction false} FirstUnreadableIff(mappings: map<string, string>, states: States, toFloat: Parser,
                                              required: seq<Name>)
    ensures FirstUnreadable(mappings, states, toFloat, required)
        <==> exists t :: t in required && IsMapped(mappings, Key(t)) && !Readable(states, mappings[Key(t)], toFloat)
    decreases |required|
  {
    if required != [] {
      FirstUnreadableIff(mappings, states, toFloat, required[1..]);
      assert forall t :: t in required <==> t == required[0] || t in required[1..];
    }
  }

  /** With no required measurement mapped, the meter never fails, whatever the host reports. */
  lemma UnmappedRequiredNeverFail(mappings: map<string, string>, states: States, toFloat: Parser)
    requires forall t :: t in RequiredEntities ==> !IsMapped(mappings, Key(t))
    ensures !CheckMeterHealth(mappings, states, toFloat)
  {
  }

  /** The mapped entity's value replaces the default for `name`. */
  predicate Overrides(mappings: map<string, string>, states: States, toFloat: Parser, name: Name)
  {
    IsMapped(mappings, Key(name)) && Readable(states, mappings[Key(name)], toFloat)
  }

  /** The value `name` resolves to: its readable mapped state, or else its default. */
  function ResolvedValue(mappings: map<string, string>, states: States, toFloat: Parser, name: Name): real
  {
    if Overrides(mappings, states, toFloat, name) then toFloat(states[mappings[Key(name)]]).value
    else DefaultValue(name)
  }

  /**
   * The values before derivation: every catalog measurement, taking the parsed
   * state of its mapped entity when that is readable and its default otherwise.
   */
  function MappedValues(mappings: map<string, string>, states: States, toFloat: Parser): (values: map<Name, real>)
    ensures forall n :: n in values
  {
    map n: Name :: ResolvedValue(mappings, states, toFloat, n)
  }

  /**
   * A measurement differs from its default only through a readable mapping:
   * the mapped state overrides the default exactly when the mapping names a
   * non-empty entity whose state is present, not a sentinel and numeric.
   */
  lemma MappedValueSource(mappings: map<string, string>, states: States, toFloat: Parser, name: Name)
    ensures var v := MappedValues(mappings, states, toFloat)[name];
      && (Overrides(mappings, states, toFloat, name) ==> v == toFloat(states[mappings[Key(name)]]).value)
      && (!Overrides(mappings, states, toFloat, name) ==> v == DefaultValue(name))
      && (!IsMapped(mappings, Key(name)) ==> v == DefaultValue(name))
  {
  }

  /** A map holding the resolved value of every measurement is the resolver's result. */
  lemma MappedValuesPointwise(mappings: map<string, string>, states: States, toFloat: Parser,
                              values: map<Name, real>)
    requires forall n :: n in values && values[n] == ResolvedValue(mappings, states, toFloat, n)
    ensures values == MappedValues(mappings, states, toFloat)
  {
  }

  /** Mapping keys outside the catalog are ignored. */
  lemma ExtraMappingsIgnored(m1: map<string, string>, m2: map<string, string>, states: States, toFloat: Parser)
    requires forall n: Name :: Key(n) in m1 <==> Key(n) in m2
    requires forall n: Name :: Key(n) in m1 ==> m1[Key(n)] == m2[Key(n)]
    ensures MappedValues(m1, states, toFloat) == MappedValues(m2, states, toFloat)
  {
    assert forall n :: MappedValues(m1, states, toFloat)[n] == MappedValues(m2, states, toFloat)[n];
  }
}
