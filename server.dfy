/**
 * The meter emulator's state machine: a 10000-word register block, the caches
 * of the last published values and words, and the failed flag. One update
 * cycle either blanks the catalog registers (the meter stops answering with
 * data), stays silent while failed, or resolves, derives and publishes every
 * catalog measurement.
 */
module Server {
  import opened Wrappers
  import opened Catalog
  import opened Encoding
  import opened Resolution
  import opened Derivation

  /** The values of one healthy cycle: defaults overridden by readable mappings, then derived. */
  function ResolvedValues(mappings: map<string, string>, states: States, toFloat: Parser,
                          sqrt: real -> real): map<Name, real>
    requires IsSquareRoot(sqrt)
  {
    Derived(MappedValues(mappings, states, toFloat), sqrt)
  }

  /** A healthy cycle resolves every catalog measurement, so it publishes every catalog register. */
  lemma ResolvedCoversCatalog(mappings: map<string, string>, states: States, toFloat: Parser, sqrt: real -> real)
    requires IsSquareRoot(sqrt)
    ensures forall n :: n in ResolvedValues(mappings, states, toFloat, sqrt)
  {
    var values := MappedValues(mappings, states, toFloat);
    forall n
      ensures n in Derived(values, sqrt)
    {
      DerivedAt(values, sqrt, n);
    }
  }

  /**
   * A measurement no derivation rule writes is published as resolved: the
   * readable mapped state, or else its default.
   */
  lemma ResolvedUnderived(mappings: map<string, string>, states: States, toFloat: Parser, sqrt: real -> real,
                          name: Name)
    requires !Derivable(name)
    requires IsSquareRoot(sqrt)
    ensures name in ResolvedValues(mappings, states, toFloat, sqrt)
    ensures ResolvedValues(mappings, states, toFloat, sqrt)[name] ==
              if Overrides(mappings, states, toFloat, name) then toFloat(states[mappings[Key(name)]]).value
              else DefaultValue(name)
  {
    var values := MappedValues(mappings, states, toFloat);
    MappedValueSource(mappings, states, toFloat, name);
    DerivedAt(values, sqrt, name);
  }

  /**
   * A default value that nothing overrides and no rule rewrites is published
   * as its exact fixed-point quotient, a non-negative signed 16-bit number.
   */
  lemma DefaultPublishedExactly(name: Name)
    ensures EncodeRegister(DefaultValue(name), Scale(name)) == Trunc(DefaultValue(name) / Scale(name))
    ensures 0 <= EncodeRegister(DefaultValue(name), Scale(name)) <= 32767
  {
    var q := DefaultValue(name) / Scale(name);
    assert 0.0 <= q <= 32767.0;
    assert 0 <= Trunc(q) <= 32767;
  }

  /** Two maps with the same keys and the same value at each key are equal. */
  lemma SameEntries<K, V>(a: map<K, V>, b: map<K, V>)
    requires forall k :: k in a <==> k in b
    requires forall k :: k in a ==> a[k] == b[k]
    ensures a == b
  {
  }

  /** Every word outside the catalog's addresses is as it was. */
  ghost predicate OnlyCatalogChanged(before: seq<int>, after: seq<int>)
  {
    |after| == |before| &&
    forall a :: 0 <= a < |after| && NameAt(a).None? ==> after[a] == before[a]
  }

  /** `after` is `before` with every catalog register zeroed and every other word kept. */
  ghost predicate Blanked(before: seq<int>, after: seq<int>)
  {
    |after| == DataBlockSize && OnlyCatalogChanged(before, after) &&
    forall n :: after[Addr(n)] == 0
  }

  /** Write 0 at the address of every catalog measurement. */
  method BlankCatalogRegisters(block: array<int>)
    requires block.Length == DataBlockSize
    modifies block
    ensures Blanked(old(block[..]), block[..])
  {
    for i := 0 to |AllNames|
      invariant forall j :: 0 <= j < i ==> block[Addr(AllNames[j])] == 0
      invariant forall a :: 0 <= a < block.Length && NameAt(a).None? ==> block[a] == old(block[a])
    {
      AddrInverse(AllNames[i]);
      block[Addr(AllNames[i])] := 0;
    }
    forall n
      ensures block[Addr(n)] == 0
    {
      assert AllNames[Index(n)] == n;
    }
  }

  class MeterServer {
    const host: string
    const port: int
    const slaveId: int
    const entityMappings: map<string, string>
    const updateInterval: int

    /** The register block; null until the server is started. */
    var dataBlock: array?<int>
    var running: bool
    /** The last published value and word of each catalog measurement. */
    var currentValues: map<Name, real>
    var rawRegisterValues: map<Name, int>
    var meterFailed: bool

    /**
     * The block has its fixed size, the two caches hold the same measurements
     * and each cached word encodes its cached value.
     */
    ghost predicate Consistent()
      reads this
    {
      (dataBlock != null ==> dataBlock.Length == DataBlockSize) &&
      (forall n :: n in rawRegisterValues <==> n in currentValues) &&
      (forall n :: n in rawRegisterValues ==> rawRegisterValues[n] == EncodeRegister(currentValues[n], Scale(n)))
    }

    /** The caches are consistent and a failed meter caches nothing. */
    ghost predicate Valid()
      reads this
    {
      Consistent() && (meterFailed ==> currentValues == map[])
    }

    /** Every cached word is what the block holds at that measurement's address. */
    ghost predicate Published()
      reads this, dataBlock
    {
      dataBlock != null && dataBlock.Length == DataBlockSize &&
      forall n :: n in rawRegisterValues ==> dataBlock[Addr(n)] == rawRegisterValues[n]
    }

    /**
     * Reading a cached word as signed and scaling it recovers the cached value
     * within one step of the register's resolution.
     */
    lemma CachedWordReadsBack(name: Name)
      requires Valid() && name in currentValues
      requires -32768 <= Trunc(currentValues[name] / Scale(name)) <= 32767
      ensures name in rawRegisterValues
      ensures -Scale(name) < currentValues[name] - Signed16(rawRegisterValues[name]) as real * Scale(name) < Scale(name)
    {
      DecodeWithinResolution(currentValues[name], Scale(name));
    }

    constructor(host: string, port: int, slaveId: int, entityMappings: map<string, string>, updateInterval: int)
      ensures Valid()
      ensures this.host == host && this.port == port && this.slaveId == slaveId
      ensures this.entityMappings == entityMappings && this.updateInterval == updateInterval
      ensures dataBlock == null && !running && !meterFailed
      ensures currentValues == map[] && rawRegisterValues == map[]
    {
      this.host := host;
      this.port := port;
      this.slaveId := slaveId;
      this.entityMappings := entityMappings;
      this.updateInterval := updateInterval;
      dataBlock := null;
      running := false;
      currentValues := map[];
      rawRegisterValues := map[];
      meterFailed := false;
    }

    /** Starting allocates a zeroed block and marks the server running. */
    method Start()
      requires Valid()
      modifies this
      ensures Valid()
      ensures fresh(dataBlock) && dataBlock.Length == DataBlockSize
      ensures forall a :: 0 <= a < DataBlockSize ==> dataBlock[a] == 0
      ensures running
      ensures currentValues == old(currentValues) && rawRegisterValues == old(rawRegisterValues)
      ensures meterFailed == old(meterFailed)
    {
      dataBlock := new int[DataBlockSize](a => 0);
      running := true;
    }

    /** Stopping only clears the running flag. */
    method Stop()
      requires Valid()
      modifies this
      ensures Valid()
      ensures !running
      ensures dataBlock == old(dataBlock) && meterFailed == old(meterFailed)
      ensures currentValues == old(currentValues) && rawRegisterValues == old(rawRegisterValues)
    {
      running := false;
    }

    /**
     * The cached value of the measurement called `registerName`: present only
     * for a catalog name that a healthy cycle published.
     */
    function GetRegisterValue(registerName: string): (v: Option<real>)
      requires Valid()
      reads this
      ensures forall n :: Key(n) == registerName ==>
                v == if n in currentValues then Some(currentValues[n]) else None
      ensures (forall n :: Key(n) != registerName) ==> v == None
      ensures meterFailed ==> v == None
    {
      match NameOf(registerName)
      case None => None
      case Some(n) =>
        KeyUnique(n, registerName);
        if n in currentValues then Some(currentValues[n]) else None
    }

    /**
     * The cached word of the measurement called `registerName`: present
     * exactly when its value is, and then the encoding of that value.
     */
    function GetRawRegisterValue(registerName: string): (w: Option<int>)
      requires Valid()
      reads this
      ensures w.Some? <==> GetRegisterValue(registerName).Some?
      ensures w.Some? ==> 0 <= w.value <= MaxWord
      ensures forall n :: Key(n) == registerName && n in currentValues ==>
                w == Some(EncodeRegister(currentValues[n], Scale(n)))
    {
      match NameOf(registerName)
      case None => None
      case Some(n) =>
        KeyUnique(n, registerName);
        if n in rawRegisterValues then Some(rawRegisterValues[n]) else None
    }

    /** Whether the meter is failed; a failed meter has no value to report. */
    function IsMeterFailed(): (failed: bool)
      requires Valid()
      reads this
      ensures failed ==> forall name :: GetRegisterValue(name) == None && GetRawRegisterValue(name) == None
    {
      meterFailed
    }

    /**
     * Blank every catalog register and clear both caches, when there is a
     * block; without one nothing happens.
     */
    method SimulateMeterFailure()
      requires Consistent()
      modifies this, dataBlock
      ensures Consistent()
      ensures dataBlock == old(dataBlock) && meterFailed == old(meterFailed) && running == old(running)
      ensures old(dataBlock) == null ==> currentValues == old(currentValues) && rawRegisterValues == old(rawRegisterValues)
      ensures old(dataBlock) != null ==> currentValues == map[] && rawRegisterValues == map[]
      ensures dataBlock != null ==> Blanked(old(dataBlock[..]), dataBlock[..])
    {
      if dataBlock != null {
        BlankCatalogRegisters(dataBlock);
        currentValues := map[];
        rawRegisterValues := map[];
      }
    }

    /** Encode one catalog measurement, write its word to its register and cache both. */
    method WriteRegister(name: Name, value: real)
      requires Valid() && dataBlock != null && !meterFailed
      modifies this, dataBlock
      ensures Valid()
      ensures dataBlock == old(dataBlock) && meterFailed == old(meterFailed) && running == old(running)
      ensures currentValues == old(currentValues)[name := value]
      ensures rawRegisterValues == old(rawRegisterValues)[name := EncodeRegister(value, Scale(name))]
      ensures dataBlock[Addr(name)] == EncodeRegister(value, Scale(name))
      ensures forall a :: 0 <= a < dataBlock.Length && a != Addr(name) ==> dataBlock[a] == old(dataBlock[a])
      ensures forall n :: n != name ==> dataBlock[Addr(n)] == old(dataBlock[Addr(n)])
    {
      AddressOwned(name);
      var scaledValue := ScaleToWord(value, Scale(name));
      dataBlock[Addr(name)] := scaledValue;
      currentValues := currentValues[name := value];
      rawRegisterValues := rawRegisterValues[name := scaledValue];
    }

    /**
     * Write every measurement of `allValues` to its register and to both
     * caches; words outside the catalog are not touched.
     */
    method PublishRegisters(allValues: map<Name, real>)
      requires Valid() && dataBlock != null && !meterFailed
      modifies this, dataBlock
      ensures Valid()
      ensures dataBlock == old(dataBlock) && meterFailed == old(meterFailed) && running == old(running)
      ensures forall n :: n in currentValues <==> n in old(currentValues) || n in allValues
      ensures forall n :: n in allValues ==>
                currentValues[n] == allValues[n] && dataBlock[Addr(n)] == rawRegisterValues[n]
      ensures forall n :: n in old(currentValues) && n !in allValues ==> currentValues[n] == old(currentValues)[n]
      ensures forall n :: n !in allValues ==> dataBlock[Addr(n)] == old(dataBlock[Addr(n)])
      ensures OnlyCatalogChanged(old(dataBlock[..]), dataBlock[..])
    {
      var block := dataBlock;
      var remaining := allValues.Keys;
      ghost var start := currentValues;
      ghost var written: set<Name> := {};
      ghost var touched: set<int> := {};
      ghost var before := block[..];
      while remaining != {}
        invariant remaining <= allValues.Keys && written <= allValues.Keys
        invariant forall n :: n in allValues ==> (n in written <==> n !in remaining)
        invariant dataBlock == block && block.Length == DataBlockSize
        invariant Valid() && !meterFailed && running == old(running)
        invariant forall n :: n in currentValues <==> n in start || n in written
        invariant forall n :: n in written ==> currentValues[n] == allValues[n]
        invariant forall n :: n in written ==> block[Addr(n)] == rawRegisterValues[n]
        invariant forall n :: n in start && n !in allValues ==> currentValues[n] == start[n]
        invariant forall a :: 0 <= a < block.Length && a !in touched ==> block[a] == before[a]
        invariant forall a :: a in touched ==> NameAt(a).Some? && NameAt(a).value in written
        decreases |remaining|
      {
        var registerName :| registerName in remaining;
        remaining := remaining - {registerName};
        AddrInverse(registerName);
        WriteRegister(registerName, allValues[registerName]);
        written := written + {registerName};
        touched := touched + {Addr(registerName)};
      }
      forall n | n !in allValues
        ensures block[Addr(n)] == before[Addr(n)]
      {
        AddrInverse(n);
      }
    }

    /** Resolve defaults and mapped states, then derive the missing measurements. */
    method GetAllRegisterValues(states: States, toFloat: Parser, sqrt: real -> real) returns (values: map<Name, real>)
      requires IsSquareRoot(sqrt)
      ensures values == ResolvedValues(entityMappings, states, toFloat, sqrt)
    {
      values := ResolveMapped(states, toFloat);
      values := CalculateDerivedValues(values, sqrt);
    }

    /** The defaults, overridden entity by entity with every readable mapped state. */
    method ResolveMapped(states: States, toFloat: Parser) returns (values: map<Name, real>)
      ensures values == MappedValues(entityMappings, states, toFloat)
    {
      values := map n: Name :: DefaultValue(n);
      var remaining := entityMappings.Keys;
      while remaining != {}
        invariant remaining <= entityMappings.Keys
        invariant forall n :: n in values
        invariant forall n :: values[n] ==
                    if Key(n) !in remaining && Overrides(entityMappings, states, toFloat, n)
                    then toFloat(states[entityMappings[Key(n)]]).value
                    else DefaultValue(n)
        decreases |remaining|
      {
        var registerName :| registerName in remaining;
        remaining := remaining - {registerName};
        values := ApplyMapping(values, registerName, states, toFloat);
      }
      MappedValuesPointwise(entityMappings, states, toFloat, values);
    }

    /**
     * One entry of the mapping loop: a non-empty entity id for a catalog key
     * whose state is present, not a sentinel and numeric replaces that key's
     * value; anything else leaves the values as they are.
     */
    method ApplyMapping(values: map<Name, real>, registerName: string, states: States, toFloat: Parser)
      returns (updated: map<Name, real>)
      requires registerName in entityMappings && forall n :: n in values
      ensures forall n :: n in updated
      ensures forall n :: updated[n] ==
                if Key(n) == registerName && Overrides(entityMappings, states, toFloat, n)
                then toFloat(states[entityMappings[Key(n)]]).value
                else values[n]
    {
      updated := values;
      var entityId := entityMappings[registerName];
      var name := NameOf(registerName);
      if entityId == "" || name.None? {
        return;
      }
      KeyUnique(name.value, registerName);
      if entityId in states && !IsSentinel(states[entityId]) {
        match toFloat(states[entityId])
        case Some(value) =>
          updated := updated[name.value := value];
        case None =>
      }
    }

    /**
     * One update cycle. Without a block nothing happens. When a mapped required
     * measurement is unreadable, a healthy meter fails (catalog registers
     * blanked, caches cleared) and a failed one stays silent. Otherwise the
     * flag is cleared and every catalog measurement is resolved, derived and
     * published in the same call.
     */
    method UpdateRegisters(states: States, toFloat: Parser, sqrt: real -> real)
      requires Valid() && IsSquareRoot(sqrt)
      modifies this, dataBlock
      ensures Valid()
      ensures dataBlock == old(dataBlock) && running == old(running)
      ensures old(dataBlock) == null ==> unchanged(this)
      ensures old(dataBlock) != null && CheckMeterHealth(entityMappings, states, toFloat) && old(meterFailed) ==>
                unchanged(this) && unchanged(dataBlock)
      ensures old(dataBlock) != null && CheckMeterHealth(entityMappings, states, toFloat) && !old(meterFailed) ==>
                meterFailed && currentValues == map[] && rawRegisterValues == map[] &&
                Blanked(old(dataBlock[..]), dataBlock[..])
      ensures old(dataBlock) != null && !CheckMeterHealth(entityMappings, states, toFloat) ==>
                !meterFailed && Published() &&
                currentValues == ResolvedValues(entityMappings, states, toFloat, sqrt) &&
                OnlyCatalogChanged(old(dataBlock[..]), dataBlock[..])
    {
      if dataBlock == null {
        return;
      }
      var meterShouldFail := CheckMeterHealth(entityMappings, states, toFloat);
      if meterShouldFail {
        if !meterFailed {
          meterFailed := true;
          SimulateMeterFailure();
        }
        return;
      } else {
        if meterFailed {
          meterFailed := false;
        }
      }
      PublishAll(states, toFloat, sqrt);
    }

    /** The healthy part of a cycle: resolve, derive and publish the whole catalog. */
    method PublishAll(states: States, toFloat: Parser, sqrt: real -> real)
      requires Valid() && IsSquareRoot(sqrt) && dataBlock != null && !meterFailed
      modifies this, dataBlock
      ensures Valid() && Published()
      ensures dataBlock == old(dataBlock) && running == old(running) && !meterFailed
      ensures currentValues == ResolvedValues(entityMappings, states, toFloat, sqrt)
      ensures OnlyCatalogChanged(old(dataBlock[..]), dataBlock[..])
    {
      var allValues := GetAllRegisterValues(states, toFloat, sqrt);
      ResolvedCoversCatalog(entityMappings, states, toFloat, sqrt);
      PublishRegisters(allValues);
      SameEntries(currentValues, allValues);
    }
  }
}
