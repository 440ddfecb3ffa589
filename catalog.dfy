/**
 * The static register catalog of the emulated CHINT DTSU666 meter: the
 * measurements it publishes, for each its key, protocol address, fixed-point
 * scale and unit, the fallback values used when nothing is mapped, the
 * measurement types a user may map to a host entity, the ones that gate the
 * meter's health, and the default network settings.
 *
 * The catalog's string-keyed tables become total functions on the closed
 * enumeration `Name`; `Key` gives back each measurement's string key.
 */
module Catalog {
  import opened Wrappers

  /** The measurements of the catalog, in table order. */
  datatype Name =
    | VoltageL1L2 | VoltageL2L3 | VoltageL3L1
    | VoltageL1 | VoltageL2 | VoltageL3
    | CurrentL1 | CurrentL2 | CurrentL3 | CurrentNeutral
    | PowerL1 | PowerL2 | PowerL3 | PowerTotal
    | ReactivePowerL1 | ReactivePowerL2 | ReactivePowerL3 | ReactivePowerTotal
    | PowerFactorL1 | PowerFactorL2 | PowerFactorL3 | PowerFactorTotal
    | EnergyImportTotal | EnergyExportTotal
    | Frequency

  // Configuration keys
  const ConfHost := "host"
  const ConfPort := "port"
  const ConfSlaveId := "slave_id"
  const ConfUpdateInterval := "update_interval"
  const ConfEntityMappings := "entity_mappings"

  // Default network settings
  const DefaultHost := "0.0.0.0"
  const DefaultPort := 5020
  const DefaultSlaveId := 11
  const DefaultUpdateInterval := 5

  /** Number of words of the zero-initialised register block the server exposes. */
  const DataBlockSize := 10000

  /** The key under which a measurement appears in the tables and in the entity mappings. */
  function Key(n: Name): string
  {
    match n
    case VoltageL1L2 => "voltage_l1_l2"
    case VoltageL2L3 => "voltage_l2_l3"
    case VoltageL3L1 => "voltage_l3_l1"
    case VoltageL1 => "voltage_l1"
    case VoltageL2 => "voltage_l2"
    case VoltageL3 => "voltage_l3"
    case CurrentL1 => "current_l1"
    case CurrentL2 => "current_l2"
    case CurrentL3 => "current_l3"
    case CurrentNeutral => "current_neutral"
    case PowerL1 => "power_l1"
    case PowerL2 => "power_l2"
    case PowerL3 => "power_l3"
    case PowerTotal => "power_total"
    case ReactivePowerL1 => "reactive_power_l1"
    case ReactivePowerL2 => "reactive_power_l2"
    case ReactivePowerL3 => "reactive_power_l3"
    case ReactivePowerTotal => "reactive_power_total"
    case PowerFactorL1 => "power_factor_l1"
    case PowerFactorL2 => "power_factor_l2"
    case PowerFactorL3 => "power_factor_l3"
    case PowerFactorTotal => "power_factor_total"
    case EnergyImportTotal => "energy_import_total"
    case EnergyExportTotal => "energy_export_total"
    case Frequency => "frequency"
  }

  /** Protocol address of a measurement, inside the register block. */
  function Addr(n: Name): (a: nat)
    ensures a < DataBlockSize
  {
    match n
    // line-to-line voltages
    case VoltageL1L2 => 0x1836
    case VoltageL2L3 => 0x1838
    case VoltageL3L1 => 0x183A
    // line-to-neutral voltages
    case VoltageL1 => 0x183C
    case VoltageL2 => 0x183E
    case VoltageL3 => 0x1840
    // currents
    case CurrentL1 => 0x836
    case CurrentL2 => 0x838
    case CurrentL3 => 0x83A
    case CurrentNeutral => 0x83C
    // active power
    case PowerL1 => 0x84A
    case PowerL2 => 0x84C
    case PowerL3 => 0x84E
    case PowerTotal => 0x850
    // reactive power
    case ReactivePowerL1 => 0x852
    case ReactivePowerL2 => 0x854
    case ReactivePowerL3 => 0x856
    case ReactivePowerTotal => 0x858
    // power factor
    case PowerFactorL1 => 0x85A
    case PowerFactorL2 => 0x85C
    case PowerFactorL3 => 0x85E
    case PowerFactorTotal => 0x860
    // energy
    case EnergyImportTotal => 0x862
    case EnergyExportTotal => 0x864
    // system
    case Frequency => 0x866
  }

  /** Fixed-point divisor of a measurement: 0.1 for voltages, 0.01 for energy and frequency, else 0.001. */
  function Scale(n: Name): (s: real)
    ensures s == 0.1 || s == 0.01 || s == 0.001
    ensures s > 0.0
  {
    match n
    case VoltageL1L2 | VoltageL2L3 | VoltageL3L1 | VoltageL1 | VoltageL2 | VoltageL3 => 0.1
    case EnergyImportTotal | EnergyExportTotal | Frequency => 0.01
    case _ => 0.001
  }

  /** Unit of a measurement; the power factors have none. */
  function Unit(n: Name): string
  {
    match n
    case VoltageL1L2 | VoltageL2L3 | VoltageL3L1 | VoltageL1 | VoltageL2 | VoltageL3 => "V"
    case CurrentL1 | CurrentL2 | CurrentL3 | CurrentNeutral => "A"
    case PowerL1 | PowerL2 | PowerL3 | PowerTotal => "kW"
    case ReactivePowerL1 | ReactivePowerL2 | ReactivePowerL3 | ReactivePowerTotal => "kVAr"
    case PowerFactorL1 | PowerFactorL2 | PowerFactorL3 | PowerFactorTotal => ""
    case EnergyImportTotal | EnergyExportTotal => "kWh"
    case Frequency => "Hz"
  }

  /**
   * Fallback value of every measurement (a typical European 230 V / 50 Hz
   * grid); each one scales into [0, 32767], so it encodes without clamping or
   * sign wrap.
   */
  function DefaultValue(n: Name): (v: real)
    ensures 0.0 <= v / Scale(n) <= 32767.0
  {
    match n
    case VoltageL1L2 => 400.0
    case VoltageL2L3 => 400.0
    case VoltageL3L1 => 400.0
    case VoltageL1 => 230.0
    case VoltageL2 => 230.0
    case VoltageL3 => 230.0
    case CurrentL1 => 0.0
    case CurrentL2 => 0.0
    case CurrentL3 => 0.0
    case CurrentNeutral => 0.0
    case PowerL1 => 0.0
    case PowerL2 => 0.0
    case PowerL3 => 0.0
    case PowerTotal => 0.0
    case ReactivePowerL1 => 0.0
    case ReactivePowerL2 => 0.0
    case ReactivePowerL3 => 0.0
    case ReactivePowerTotal => 0.0
    case PowerFactorL1 => 0.95
    case PowerFactorL2 => 0.95
    case PowerFactorL3 => 0.95
    case PowerFactorTotal => 0.95
    case EnergyImportTotal => 0.0
    case EnergyExportTotal => 0.0
    case Frequency => 50.0
  }

  /** Every measurement, in table order. */
  const AllNames: seq<Name> := [
    VoltageL1L2, VoltageL2L3, VoltageL3L1,
    VoltageL1, VoltageL2, VoltageL3,
    CurrentL1, CurrentL2, CurrentL3, CurrentNeutral,
    PowerL1, PowerL2, PowerL3, PowerTotal,
    ReactivePowerL1, ReactivePowerL2, ReactivePowerL3, ReactivePowerTotal,
    PowerFactorL1, PowerFactorL2, PowerFactorL3, PowerFactorTotal,
    EnergyImportTotal, EnergyExportTotal,
    Frequency
  ]

  /** The measurement types a user can map to a host entity, in form order. */
  const EntityMappingTypes: seq<Name> := [
    VoltageL1, VoltageL2, VoltageL3,
    CurrentL1, CurrentL2, CurrentL3,
    PowerL1, PowerL2, PowerL3, PowerTotal,
    ReactivePowerTotal, PowerFactorTotal,
    EnergyImportTotal, EnergyExportTotal,
    Frequency
  ]

  /** The measurement types whose mapped entity must be readable for the meter to be healthy. */
  const RequiredEntities: seq<Name> := [PowerTotal, VoltageL1, Frequency]

  /** The measurement whose register sits at address `a`, if any. */
  function NameAt(a: int): Option<Name>
  {
    if a == 0x1836 then Some(VoltageL1L2)
    else if a == 0x1838 then Some(VoltageL2L3)
    else if a == 0x183A then Some(VoltageL3L1)
    else if a == 0x183C then Some(VoltageL1)
    else if a == 0x183E then Some(VoltageL2)
    else if a == 0x1840 then Some(VoltageL3)
    else if a == 0x836 then Some(CurrentL1)
    else if a == 0x838 then Some(CurrentL2)
    else if a == 0x83A then Some(CurrentL3)
    else if a == 0x83C then Some(CurrentNeutral)
    else if a == 0x84A then Some(PowerL1)
    else if a == 0x84C then Some(PowerL2)
    else if a == 0x84E then Some(PowerL3)
    else if a == 0x850 then Some(PowerTotal)
    else if a == 0x852 then Some(ReactivePowerL1)
    else if a == 0x854 then Some(ReactivePowerL2)
    else if a == 0x856 then Some(ReactivePowerL3)
    else if a == 0x858 then Some(ReactivePowerTotal)
    else if a == 0x85A then Some(PowerFactorL1)
    else if a == 0x85C then Some(PowerFactorL2)
    else if a == 0x85E then Some(PowerFactorL3)
    else if a == 0x860 then Some(PowerFactorTotal)
    else if a == 0x862 then Some(EnergyImportTotal)
    else if a == 0x864 then Some(EnergyExportTotal)
    else if a == 0x866 then Some(Frequency)
    else None
  }

  /** Address decoding inverts `Addr`: every measurement is found at its own address. */
  lemma AddrInverse(n: Name)
    ensures NameAt(Addr(n)) == Some(n)
  {
  }

  /** No two measurements share a register address. */
  lemma AddressesDistinct(n1: Name, n2: Name)
    requires n1 != n2
    ensures Addr(n1) != Addr(n2)
  {
    AddrInverse(n1);
    AddrInverse(n2);
  }

  /** The register of `m` belongs to `m` alone. */
  lemma AddressOwned(m: Name)
    ensures forall n :: Addr(n) == Addr(m) ==> n == m
  {
    forall n | n != m
      ensures Addr(n) != Addr(m)
    {
      AddressesDistinct(n, m);
    }
  }

  /** No two measurements share a key, so the tables have 25 distinct keys. */
  lemma KeyInjective(n1: Name, n2: Name)
    requires n1 != n2
    ensures Key(n1) != Key(n2)
  {
  }

  /** A key names exactly one measurement. */
  lemma KeyUnique(n: Name, key: string)
    requires Key(n) == key
    ensures forall m :: Key(m) == key ==> m == n
  {
    forall m | Key(m) == key
      ensures m == n
    {
      if m != n {
        KeyInjective(m, n);
      }
    }
  }

  /** The position of a measurement in table order. */
  function Index(n: Name): (i: nat)
    ensures i < |AllNames| && AllNames[i] == n
  {
    match n
    case VoltageL1L2 => 0
    case VoltageL2L3 => 1
    case VoltageL3L1 => 2
    case VoltageL1 => 3
    case VoltageL2 => 4
    case VoltageL3 => 5
    case CurrentL1 => 6
    case CurrentL2 => 7
    case CurrentL3 => 8
    case CurrentNeutral => 9
    case PowerL1 => 10
    case PowerL2 => 11
    case PowerL3 => 12
    case PowerTotal => 13
    case ReactivePowerL1 => 14
    case ReactivePowerL2 => 15
    case ReactivePowerL3 => 16
    case ReactivePowerTotal => 17
    case PowerFactorL1 => 18
    case PowerFactorL2 => 19
    case PowerFactorL3 => 20
    case PowerFactorTotal => 21
    case EnergyImportTotal => 22
    case EnergyExportTotal => 23
    case Frequency => 24
  }

  /** `AllNames` lists every measurement. */
  lemma AllNamesComplete()
    ensures forall n :: n in AllNames
  {
    forall n
      ensures n in AllNames
    {
      assert AllNames[Index(n)] == n;
    }
  }

  /** The first of `names` whose key is `key`. */
  function FindName(key: string, names: seq<Name>): (n: Option<Name>)
    ensures n.Some? ==> n.value in names && Key(n.value) == key
    ensures n.None? ==> forall m :: m in names ==> Key(m) != key
  {
    if names == [] then None
    else if Key(names[0]) == key then Some(names[0])
    else FindName(key, names[1..])
  }

  /**
   * `key in REGISTER_MAP`, as a lookup: the measurement with that key, and
   * `None` for a key outside the catalog.
   */
  function NameOf(key: string): (n: Option<Name>)
    ensures n.Some? ==> Key(n.value) == key
    ensures n.None? ==> forall m :: Key(m) != key
  {
    AllNamesComplete();
    FindName(key, AllNames)
  }

  /** Looking up a measurement's own key finds that measurement. */
  lemma NameOfKey(n: Name)
    ensures NameOf(Key(n)) == Some(n)
  {
    var r := NameOf(Key(n));
    if r != Some(n) {
      KeyInjective(r.value, n);
    }
  }

  /** Required types can be mapped: each is one of the mapping types. */
  lemma RequiredAreMappable()
    ensures forall t :: t in RequiredEntities ==> t in EntityMappingTypes
  {
  }
}
