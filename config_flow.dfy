/**
 * The configuration flow's decisions: the first step advances only when the
 * network settings validate, the entity steps save a mapping only when it
 * validates, and the options flow merges a submitted entity form into the
 * existing mapping type by type. Showing forms, selectors and the host's
 * entry store are outside the model; a step's outcome says which form is
 * shown again (with its errors) or what is saved.
 */
module ConfigFlow {
  import opened Wrappers
  import opened Catalog
  import opened Resolution
  import opened Text
  import opened Utils

  /** A submitted form: field name -> value; a field that was not submitted is absent. */
  type Form = map<string, string>

  /** The form field that carries the mapping of type `t`. */
  function FormKey(t: Name): string
  {
    MappingPrefix + Key(t)
  }

  /** The entry under key `k`, if any. */
  function Lookup(m: map<string, string>, k: string): Option<string>
  {
    if k in m then Some(m[k]) else None
  }

  // ---------------------------------------------------------------- merge

  /**
   * The entry type `t` has after the merge, given the entry it had: kept when
   * its field was not submitted, set to the stripped value when that is not
   * blank, removed otherwise.
   */
  function MergedEntry(previous: Option<string>, form: Form, t: Name): Option<string>
  {
    if FormKey(t) !in form then previous
    else if Strip(form[FormKey(t)]) != "" then Some(Strip(form[FormKey(t)]))
    else None
  }

  /** One iteration of the merge loop, for type `t`. */
  function MergeOne(mappings: map<string, string>, form: Form, t: Name): map<string, string>
  {
    if FormKey(t) !in form then mappings
    else if Strip(form[FormKey(t)]) != "" then mappings[Key(t) := Strip(form[FormKey(t)])]
    else mappings - {Key(t)}
  }

  /** The merge loop run over `types`, in order, starting from `current`. */
  function MergeTypes(current: map<string, string>, form: Form, types: seq<Name>): map<string, string>
  {
    if |types| == 0 then current
    else MergeOne(MergeTypes(current, form, types[..|types| - 1]), form, types[|types| - 1])
  }

  /** The options flow's merge of a submitted entity form into the stored mapping. */
  function Merged(current: map<string, string>, form: Form): map<string, string>
  {
    MergeTypes(current, form, EntityMappingTypes)
  }

  /**
   * The merge in the options flow's entity step: start from a copy of the
   * stored mapping, then for every mapping type whose field was submitted
   * either set the stripped value or drop the entry.
   */
  method MergeEntityMappings(current: map<string, string>, userInput: Form) returns (entityMappings: map<string, string>)
    ensures entityMappings == Merged(current, userInput)
  {
    entityMappings := current;
    for i := 0 to |EntityMappingTypes|
      invariant entityMappings == MergeTypes(current, userInput, EntityMappingTypes[..i])
    {
      assert EntityMappingTypes[..i + 1][..i] == EntityMappingTypes[..i];
      var entityType := EntityMappingTypes[i];
      var formKey := MappingPrefix + Key(entityType);
      if formKey in userInput {
        var value := userInput[formKey];
        if Strip(value) != "" {
          entityMappings := entityMappings[Key(entityType) := Strip(value)];
        } else {
          entityMappings := entityMappings - {Key(entityType)};
        }
      }
    }
    assert EntityMappingTypes[..|EntityMappingTypes|] == EntityMappingTypes;
  }

  /** Merging the same field twice is the same as merging it once. */
  lemma MergedEntryIdempotent(previous: Option<string>, form: Form, t: Name)
    ensures MergedEntry(MergedEntry(previous, form, t), form, t) == MergedEntry(previous, form, t)
  {
    if FormKey(t) in form && Strip(form[FormKey(t)]) != "" {
      StripIdempotent(form[FormKey(t)]);
    }
  }

  /** One iteration sets the entry of its own type and no other. */
  lemma MergeOneAt(mappings: map<string, string>, form: Form, t: Name, n: Name)
    ensures Lookup(MergeOne(mappings, form, t), Key(n))
         == if t == n then MergedEntry(Lookup(mappings, Key(n)), form, n) else Lookup(mappings, Key(n))
  {
    if t != n {
      KeyInjective(t, n);
    }
  }

  /** The entry of a type after the loop: merged if the type was visited, as it was otherwise. */
  lemma {:induction false} MergeTypesAt(current: map<string, string>, form: Form, types: seq<Name>, n: Name)
    ensures Lookup(MergeTypes(current, form, types), Key(n))
         == if n in types then MergedEntry(Lookup(current, Key(n)), form, n) else Lookup(current, Key(n))
    decreases |types|
  {
    if |types| > 0 {
      var previous := types[..|types| - 1];
      var t := types[|types| - 1];
      MergeTypesAt(current, form, previous, n);
      MergeOneAt(MergeTypes(current, form, previous), form, t, n);
      assert n in types <==> n in previous || n == t;
      if t == n && n in previous {
        MergedEntryIdempotent(Lookup(current, Key(n)), form, n);
      }
    }
  }

  /** Keys that belong to none of the visited types are left alone. */
  lemma {:induction false} MergeTypesOther(current: map<string, string>, form: Form, types: seq<Name>, k: string)
    requires forall t :: t in types ==> Key(t) != k
    ensures Lookup(MergeTypes(current, form, types), k) == Lookup(current, k)
    decreases |types|
  {
    if |types| > 0 {
      var previous := types[..|types| - 1];
      assert types[|types| - 1] in types;
      MergeTypesOther(current, form, previous, k);
    }
  }

  /**
   * The merge rule: a mapping type whose field was not submitted keeps its
   * entry, a non-blank field sets the stripped value, a blank field removes
   * the entry, and keys of no mapping type are untouched.
   */
  lemma MergedRule(current: map<string, string>, form: Form)
    ensures forall t :: t in EntityMappingTypes && FormKey(t) !in form
                ==> Lookup(Merged(current, form), Key(t)) == Lookup(current, Key(t))
    ensures forall t :: t in EntityMappingTypes && FormKey(t) in form && Strip(form[FormKey(t)]) != ""
                ==> Lookup(Merged(current, form), Key(t)) == Some(Strip(form[FormKey(t)]))
    ensures forall t :: t in EntityMappingTypes && FormKey(t) in form && Strip(form[FormKey(t)]) == ""
                ==> Key(t) !in Merged(current, form)
    ensures forall k :: (forall t :: t in EntityMappingTypes ==> Key(t) != k)
                ==> Lookup(Merged(current, form), k) == Lookup(current, k)
  {
    forall t | t in EntityMappingTypes
      ensures Lookup(Merged(current, form), Key(t)) == MergedEntry(Lookup(current, Key(t)), form, t)
    {
      MergeTypesAt(current, form, EntityMappingTypes, t);
    }
    forall k | forall t :: t in EntityMappingTypes ==> Key(t) != k
      ensures Lookup(Merged(current, form), k) == Lookup(current, k)
    {
      MergeTypesOther(current, form, EntityMappingTypes, k);
    }
  }

  /** Two maps with the same lookups are equal. */
  lemma LookupExtensional(a: map<string, string>, b: map<string, string>)
    requires forall k :: Lookup(a, k) == Lookup(b, k)
    ensures a == b
  {
    assert forall k :: k in a <==> Lookup(a, k).Some?;
    assert forall k :: k in a ==> a[k] == Lookup(a, k).value;
  }

  /** Submitting the same entity form twice changes nothing the second time. */
  lemma MergeIdempotent(current: map<string, string>, form: Form)
    ensures Merged(Merged(current, form), form) == Merged(current, form)
  {
    var once := Merged(current, form);
    forall k
      ensures Lookup(Merged(once, form), k) == Lookup(once, k)
    {
      if exists t :: t in EntityMappingTypes && Key(t) == k {
        var t :| t in EntityMappingTypes && Key(t) == k;
        MergeTypesAt(once, form, EntityMappingTypes, t);
        MergeTypesAt(current, form, EntityMappingTypes, t);
        MergedEntryIdempotent(Lookup(current, k), form, t);
      } else {
        MergeTypesOther(once, form, EntityMappingTypes, k);
      }
    }
    LookupExtensional(Merged(once, form), once);
  }

  // ---------------------------------------------------------------- gates

  /** The fields of the first form. */
  datatype NetworkForm = NetworkForm(host: string, port: int, slaveId: int, updateInterval: int)

  /** What the first step does: show its form again with errors, or go on to the entity step with the data kept. */
  datatype UserStepResult = ShowUserForm(errors: map<string, string>) | ToEntities(data: NetworkForm)

  /** What an entity step does: show its form again with errors, or save the mapping. */
  datatype EntitiesResult = ShowEntitiesForm(errors: map<string, string>) | SaveMappings(mappings: map<string, string>)

  /**
   * The first step of the flow: with no input the empty form is shown; a
   * submitted form advances exactly when the network settings validate, and
   * otherwise comes back with the validator's error.
   */
  function UserStep(userInput: Option<NetworkForm>, isIpAddress: IpParser): (r: UserStepResult)
    ensures r.ToEntities? <==>
              userInput.Some?
              && ValidateNetworkSettings(userInput.value.host, userInput.value.port, userInput.value.slaveId, isIpAddress) == map[]
    ensures r.ToEntities? ==> r.data == userInput.value
    ensures r.ShowUserForm? ==> |r.errors| <= 1 && (userInput.None? <==> r.errors == map[])
  {
    match userInput
    case None => ShowUserForm(map[])
    case Some(form) =>
      var errors := ValidateNetworkSettings(form.host, form.port, form.slaveId, isIpAddress);
      if errors == map[] then ToEntities(form) else ShowUserForm(errors)
  }

  /**
   * The entity step of the first flow: the submitted fields are parsed and
   * the mapping is saved exactly when it validates against the state store.
   */
  method EntitiesStep(userInput: Option<FormInput>, states: States) returns (r: EntitiesResult)
    ensures r.SaveMappings? <==> userInput.Some? && EntityMappingErrors(states, ParsedMappings(userInput.value)) == map[]
    ensures r.SaveMappings? ==> r.mappings == ParsedMappings(userInput.value)
    ensures r.ShowEntitiesForm? ==> r.errors == if userInput.None? then map[]
                                                 else EntityMappingErrors(states, ParsedMappings(userInput.value))
  {
    var errors: map<string, string> := map[];
    if userInput.Some? {
      var entityMappings := ParseEntityMappings(userInput.value);
      errors := ValidateEntityMappings(states, entityMappings);
      if errors == map[] {
        return SaveMappings(entityMappings);
      }
    }
    return ShowEntitiesForm(errors);
  }

  /**
   * The options flow's entity step: the submitted form is merged into the
   * stored mapping and the entry is updated exactly when the result
   * validates; an updated mapping therefore maps every required type.
   */
  method OptionsEntitiesStep(current: map<string, string>, userInput: Option<Form>, states: States)
    returns (r: EntitiesResult)
    ensures r.SaveMappings? <==> userInput.Some? && EntityMappingErrors(states, Merged(current, userInput.value)) == map[]
    ensures r.SaveMappings? ==> r.mappings == Merged(current, userInput.value)
    ensures r.SaveMappings? ==> forall t :: t in RequiredEntities ==> IsMapped(r.mappings, Key(t))
    ensures r.ShowEntitiesForm? ==> r.errors == if userInput.None? then map[]
                                                 else EntityMappingErrors(states, Merged(current, userInput.value))
  {
    var errors: map<string, string> := map[];
    if userInput.Some? {
      var entityMappings := MergeEntityMappings(current, userInput.value);
      errors := ValidateEntityMappings(states, entityMappings);
      if errors == map[] {
        EntityMappingErrorsIff(states, entityMappings);
        return SaveMappings(entityMappings);
      }
    }
    return ShowEntitiesForm(errors);
  }
}
