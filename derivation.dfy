/**
 * The derivation pass: physically consistent values for measurements still at
 * zero, computed from the others. Only entries equal to zero (an absent key
 * reads as zero) are filled, so a non-zero value is never replaced.
 * Python's `** 0.5` is the parameter `sqrt`, required to be a square root.
 */
module Derivation {
  import opened Catalog

  /** `d.get(k, dflt)`. */
  function Get(d: map<Name, real>, k: Name, dflt: real): (v: real)
    ensures k in d ==> v == d[k]
    ensures k !in d ==> v == dflt
  {
    if k in d then d[k] else dflt
  }

  /** What is assumed of the square root: a non-negative number whose square is the argument. */
  ghost predicate IsSquareRoot(sqrt: real -> real)
  {
    forall x :: 0.0 <= x ==> 0.0 <= sqrt(x) && sqrt(x) * sqrt(x) == x
  }

  /** The factor the source uses for the square root of three. */
  const Sqrt3 := 1.732

  /** The line-to-line voltages, in the order the source fills them. */
  const LineToLineNames: seq<Name> := [VoltageL1L2, VoltageL2L3, VoltageL3L1]
  /** The phase voltages other than the reference, in the order the source fills them. */
  const PhaseVoltageNames: seq<Name> := [VoltageL2, VoltageL3]
  /** Per phase l1, l2, l3: the keys of its power, voltage and current. */
  const PhasePowerKeys: seq<Name> := [PowerL1, PowerL2, PowerL3]
  const PhaseVoltageKeys: seq<Name> := [VoltageL1, VoltageL2, VoltageL3]
  const PhaseCurrentKeys: seq<Name> := [CurrentL1, CurrentL2, CurrentL3]
  const PhaseCount := 3

  /** The keys the voltage, phase power and current rules may write. */
  predicate Measured(n: Name)
  {
    n in LineToLineNames || n in PhaseVoltageNames || n in PhasePowerKeys || n in PhaseCurrentKeys
  }

  /** Every key the derivation pass may write. */
  predicate Derivable(n: Name)
  {
    Measured(n) || n == PowerFactorTotal
  }

  /** `r` agrees with `d` on every key the pass does not derive, presence included. */
  ghost predicate SameUnderived(d: map<Name, real>, r: map<Name, real>)
  {
    forall k {:trigger k in r} :: !Derivable(k) ==> (k in d <==> k in r) && (k in d ==> r[k] == d[k])
  }

  /** `r` keeps every key of `d` and every non-zero value of `d`. */
  predicate KeepsNonZero(d: map<Name, real>, r: map<Name, real>)
  {
    d.Keys <= r.Keys && forall k {:trigger r[k]} :: k in d && d[k] != 0.0 ==> r[k] == d[k]
  }

  /** `d[k] := v` when `cond` holds and `d.get(k, 0) == 0`. */
  function FillIfZero(d: map<Name, real>, k: Name, cond: bool, v: real): map<Name, real>
  {
    if cond && Get(d, k, 0.0) == 0.0 then d[k := v] else d
  }

  /** `FillIfZero` for each of `keys` in turn, all with the same condition and value. */
  function FillEach(d: map<Name, real>, keys: seq<Name>, cond: bool, v: real): map<Name, real>
    decreases |keys|
  {
    if |keys| == 0 then d
    else FillIfZero(FillEach(d, keys[..|keys| - 1], cond, v), keys[|keys| - 1], cond, v)
  }

  /** The current rule: amperes from kilowatts and volts, when both are positive. */
  function PhaseCurrent(power: real, voltage: real): real
  {
    if power > 0.0 && voltage > 0.0 then (power * 1000.0) / voltage else 0.0
  }

  /** The current rule applied to phase `i` of `d`. */
  function CurrentTarget(d: map<Name, real>, i: nat): real
    requires i < PhaseCount
  {
    PhaseCurrent(Get(d, PhasePowerKeys[i], 0.0), Get(d, PhaseVoltageKeys[i], 0.0))
  }

  /** The current of phase `i` from its active power (kW) and voltage (V). */
  function CurrentFill(d: map<Name, real>, i: nat): map<Name, real>
    requires i < PhaseCount
  {
    var power := Get(d, PhasePowerKeys[i], 0.0);
    var voltage := Get(d, PhaseVoltageKeys[i], 0.0);
    if power > 0.0 && voltage > 0.0 && Get(d, PhaseCurrentKeys[i], 0.0) == 0.0
    then d[PhaseCurrentKeys[i] := (power * 1000.0) / voltage]
    else d
  }

  /**
   * The power-factor rule: active over apparent power when there is positive
   * reactive power, unity when there is none, and no value (zero) unless the
   * active power is positive.
   */
  function PowerFactor(active: real, reactive: real, sqrt: real -> real): real
    requires IsSquareRoot(sqrt)
  {
    if active <= 0.0 then 0.0
    else if reactive > 0.0 then active / ApparentPower(sqrt, active, reactive)
    else 1.0
  }

  /** The power-factor rule applied to the totals in `d`. */
  function PowerFactorTarget(d: map<Name, real>, sqrt: real -> real): real
    requires IsSquareRoot(sqrt)
  {
    PowerFactor(Get(d, PowerTotal, 0.0), Get(d, ReactivePowerTotal, 0.0), sqrt)
  }

  /** `(active**2 + reactive**2) ** 0.5`, which is at least the (positive) active power. */
  function ApparentPower(sqrt: real -> real, active: real, reactive: real): (s: real)
    requires IsSquareRoot(sqrt) && active > 0.0
    ensures s >= active
  {
    PositiveRoot(sqrt, active, reactive);
    sqrt(active * active + reactive * reactive)
  }

  /** The total power factor from total active and reactive power. */
  function PowerFactorFill(d: map<Name, real>, sqrt: real -> real): map<Name, real>
    requires IsSquareRoot(sqrt)
  {
    var active := Get(d, PowerTotal, 0.0);
    var reactive := Get(d, ReactivePowerTotal, 0.0);
    if active > 0.0 && Get(d, PowerFactorTotal, 0.0) == 0.0 then
      if reactive > 0.0 then
        d[PowerFactorTotal := active / ApparentPower(sqrt, active, reactive)]
      else
        d[PowerFactorTotal := 1.0]
    else d
  }

  /** The apparent power is at least the active power, hence positive with it. */
  lemma PositiveRoot(sqrt: real -> real, active: real, reactive: real)
    requires IsSquareRoot(sqrt) && active > 0.0
    ensures sqrt(active * active + reactive * reactive) >= active
  {
    RootBound(sqrt, active * active + reactive * reactive, active);
  }

  /** A square root of `x` is at least every non-negative `y` with `y * y <= x`. */
  lemma RootBound(sqrt: real -> real, x: real, y: real)
    requires IsSquareRoot(sqrt) && 0.0 <= y && y * y <= x
    ensures y <= sqrt(x) && sqrt(x) * sqrt(x) == x
  {
    var s := sqrt(x);
    if s < y {
      SquareMonotone(s, y);
    }
  }

  lemma SquareMonotone(s: real, y: real)
    requires 0.0 <= s < y
    ensures s * s < y * y
  {
    ProductOfPositives(y - s, y + s);
    assert (y - s) * (y + s) == y * y - s * s;
  }

  lemma ProductOfPositives(p: real, q: real)
    requires 0.0 < p && 0.0 < q
    ensures 0.0 < p * q
  {
  }

  /** The value a line or phase voltage takes when it is derived from `values`. */
  function VoltageTarget(values: map<Name, real>, name: Name): real
  {
    var reference := Get(values, VoltageL1, 230.0);
    if reference <= 0.0 then 0.0
    else if name in LineToLineNames then reference * Sqrt3
    else reference
  }

  /**
   * Line-to-line voltages as sqrt(3) times, and the other phase voltages as,
   * the reference (phase 1) voltage, when that is positive.
   */
  function VoltageStage(values: map<Name, real>): map<Name, real>
  {
    var reference := Get(values, VoltageL1, 230.0);
    var lines := FillEach(values, LineToLineNames, reference > 0.0, reference * Sqrt3);
    FillEach(lines, PhaseVoltageNames, reference > 0.0, reference)
  }

  /** The value a phase power takes when it is derived from `d`. */
  function PowerTarget(d: map<Name, real>): real
  {
    var total := Get(d, PowerTotal, 0.0);
    if total > 0.0 then total / 3.0 else 0.0
  }

  /** Phase powers as an equal split of a positive total. */
  function PowerStage(d: map<Name, real>): map<Name, real>
  {
    var total := Get(d, PowerTotal, 0.0);
    FillEach(d, PhasePowerKeys, total > 0.0, total / 3.0)
  }

  /** Phase currents for the first `n` phases, in phase order. */
  function CurrentStage(d: map<Name, real>, n: nat): map<Name, real>
    requires n <= PhaseCount
  {
    if n == 0 then d else CurrentFill(CurrentStage(d, n - 1), n - 1)
  }

  /** The whole derivation pass, in the order the source applies the rules. */
  function Derived(values: map<Name, real>, sqrt: real -> real): map<Name, real>
    requires IsSquareRoot(sqrt)
  {
    PowerFactorFill(FilledMeasurements(values), sqrt)
  }

  /** The voltage, phase power and current rules: all of the pass but the power factor. */
  function FilledMeasurements(values: map<Name, real>): map<Name, real>
  {
    CurrentStage(PowerStage(VoltageStage(values)), PhaseCount)
  }

  /**
   * At key `k`, `r` is `d` after rules that may write `k` only if `written`:
   * the key is kept, a non-zero value is kept, and an unwritten key is untouched.
   */
  predicate StepAt(d: map<Name, real>, r: map<Name, real>, k: Name, written: bool)
  {
    && (k in d ==> k in r)
    && (k in r && k !in d ==> written)
    && (!written ==> Get(r, k, 0.0) == Get(d, k, 0.0))
    && (Get(d, k, 0.0) != 0.0 ==> Get(r, k, 0.0) == Get(d, k, 0.0))
  }

  /** One conditional fill writes at most its own key, and only over a zero. */
  lemma FillAt(d: map<Name, real>, key: Name, cond: bool, v: real, k: Name)
    ensures var r := FillIfZero(d, key, cond, v);
      && StepAt(d, r, k, k == key)
      && (k == key && cond && Get(d, k, 0.0) == 0.0 ==> Get(r, k, 0.0) == v)
  {
  }

  /** Two steps in a row write at most what either writes. */
  lemma StepTrans(d1: map<Name, real>, d2: map<Name, real>, d3: map<Name, real>, k: Name,
                  w1: bool, w2: bool)
    requires StepAt(d1, d2, k, w1) && StepAt(d2, d3, k, w2)
    ensures StepAt(d1, d3, k, w1 || w2)
  {
  }

  /**
   * A run of conditional fills writes only its keys, and leaves each of them
   * that was zero at the common value when the condition holds.
   */
  lemma {:induction false} FillEachAt(d: map<Name, real>, keys: seq<Name>, cond: bool, v: real, k: Name)
    decreases |keys|
    ensures var r := FillEach(d, keys, cond, v);
      && StepAt(d, r, k, k in keys)
      && (k in keys && cond && Get(d, k, 0.0) == 0.0 ==> Get(r, k, 0.0) == v)
  {
    if |keys| > 0 {
      var front := keys[..|keys| - 1];
      var last := keys[|keys| - 1];
      assert keys == front + [last];
      FillEachAt(d, front, cond, v, k);
      var before := FillEach(d, front, cond, v);
      FillAt(before, last, cond, v, k);
      StepTrans(d, before, FillIfZero(before, last, cond, v), k, k in front, k == last);
    }
  }

  /** With its condition false a run of fills changes nothing. */
  lemma {:induction false} FillEachOff(d: map<Name, real>, keys: seq<Name>, v: real)
    decreases |keys|
    ensures FillEach(d, keys, false, v) == d
  {
    if |keys| > 0 {
      FillEachOff(d, keys[..|keys| - 1], v);
    }
  }

  /** The voltage rules write only the five derived voltages, each from the reference. */
  lemma VoltageStageAt(values: map<Name, real>, k: Name)
    ensures var r := VoltageStage(values);
      && StepAt(values, r, k, k in LineToLineNames || k in PhaseVoltageNames)
      && (k in LineToLineNames + PhaseVoltageNames && Get(values, k, 0.0) == 0.0 ==>
            Get(r, k, 0.0) == VoltageTarget(values, k))
  {
    var reference := Get(values, VoltageL1, 230.0);
    var lines := FillEach(values, LineToLineNames, reference > 0.0, reference * Sqrt3);
    FillEachAt(values, LineToLineNames, reference > 0.0, reference * Sqrt3, k);
    FillEachAt(lines, PhaseVoltageNames, reference > 0.0, reference, k);
    StepTrans(values, lines, VoltageStage(values), k, k in LineToLineNames, k in PhaseVoltageNames);
    if reference <= 0.0 {
      FillEachOff(values, LineToLineNames, reference * Sqrt3);
      FillEachOff(lines, PhaseVoltageNames, reference);
    }
  }

  /** The power rule writes only the phase powers, each a third of a positive total. */
  lemma PowerStageAt(d: map<Name, real>, k: Name)
    ensures var r := PowerStage(d);
      && StepAt(d, r, k, k in PhasePowerKeys)
      && (k in PhasePowerKeys && Get(d, k, 0.0) == 0.0 ==> Get(r, k, 0.0) == PowerTarget(d))
  {
    var total := Get(d, PowerTotal, 0.0);
    FillEachAt(d, PhasePowerKeys, total > 0.0, total / 3.0, k);
    if total <= 0.0 {
      FillEachOff(d, PhasePowerKeys, total / 3.0);
    }
  }

  /** The current rule, over any number of phases, writes only phase currents. */
  lemma {:induction false} CurrentStageAt(d: map<Name, real>, n: nat, k: Name)
    requires n <= PhaseCount
    ensures StepAt(d, CurrentStage(d, n), k, k in PhaseCurrentKeys)
  {
    if n > 0 {
      CurrentStageAt(d, n - 1, k);
    }
  }

  /** The current rule leaves the phases it has not reached yet alone. */
  lemma {:induction false} CurrentStageLater(d: map<Name, real>, n: nat, i: nat)
    requires n <= i < PhaseCount
    ensures Get(CurrentStage(d, n), PhaseCurrentKeys[i], 0.0) == Get(d, PhaseCurrentKeys[i], 0.0)
  {
    if n > 0 {
      CurrentStageLater(d, n - 1, i);
    }
  }

  /** After the current rule has reached phase `i`, a current that was zero has its rule's value. */
  lemma {:induction false} CurrentStageSets(d: map<Name, real>, n: nat, i: nat)
    requires i < n <= PhaseCount && Get(d, PhaseCurrentKeys[i], 0.0) == 0.0
    ensures Get(CurrentStage(d, n), PhaseCurrentKeys[i], 0.0) == CurrentTarget(d, i)
  {
    CurrentStageAt(d, n - 1, PhasePowerKeys[i]);
    CurrentStageAt(d, n - 1, PhaseVoltageKeys[i]);
    if i == n - 1 {
      CurrentStageLater(d, n - 1, i);
    } else {
      CurrentStageSets(d, n - 1, i);
    }
  }

  /** The power-factor rule touches only the power factor, and only when it is zero. */
  lemma PowerFactorFillAt(d: map<Name, real>, sqrt: real -> real, k: Name)
    requires IsSquareRoot(sqrt)
    ensures var r := PowerFactorFill(d, sqrt);
      && StepAt(d, r, k, k == PowerFactorTotal)
      && (k == PowerFactorTotal && Get(d, k, 0.0) == 0.0 ==> Get(r, k, 0.0) == PowerFactorTarget(d, sqrt))
  {
  }

  /** The measurement rules, at any one key, write only the measurements they derive. */
  lemma FilledAt(values: map<Name, real>, k: Name)
    ensures StepAt(values, FilledMeasurements(values), k, Measured(k))
  {
    var d1 := VoltageStage(values);
    var d2 := PowerStage(d1);
    VoltageStageAt(values, k);
    PowerStageAt(d1, k);
    CurrentStageAt(d2, PhaseCount, k);
    StepTrans(values, d1, d2, k, k in LineToLineNames || k in PhaseVoltageNames, k in PhasePowerKeys);
    StepTrans(values, d2, FilledMeasurements(values), k,
              k in LineToLineNames || k in PhaseVoltageNames || k in PhasePowerKeys, k in PhaseCurrentKeys);
  }

  /** The measurement rules leave every other key alone. */
  lemma FilledKeeps(values: map<Name, real>, k: Name)
    requires !Measured(k)
    ensures Get(FilledMeasurements(values), k, 0.0) == Get(values, k, 0.0)
  {
    FilledAt(values, k);
  }

  /** The derivation pass, at any one key, writes only derivable keys and keeps non-zero values. */
  lemma DerivedAt(values: map<Name, real>, sqrt: real -> real, k: Name)
    requires IsSquareRoot(sqrt)
    ensures StepAt(values, Derived(values, sqrt), k, Derivable(k))
  {
    var filled := FilledMeasurements(values);
    FilledAt(values, k);
    PowerFactorFillAt(filled, sqrt, k);
    StepTrans(values, filled, Derived(values, sqrt), k, Measured(k), k == PowerFactorTotal);
  }

  /**
   * The derivation pass adds only derivable keys, and changes neither a
   * non-zero value nor a key it does not derive.
   */
  lemma DerivedFrame(values: map<Name, real>, sqrt: real -> real)
    requires IsSquareRoot(sqrt)
    ensures var r := Derived(values, sqrt);
      && values.Keys <= r.Keys
      && (forall k :: k in r && k !in values ==> Derivable(k))
      && SameUnderived(values, r)
      && KeepsNonZero(values, r)
  {
    var r := Derived(values, sqrt);
    forall k
      ensures (k in values ==> k in r) && (k in r && k !in values ==> Derivable(k))
      ensures !Derivable(k) ==> (k in values <==> k in r) && (k in values ==> r[k] == values[k])
      ensures k in values && values[k] != 0.0 ==> r[k] == values[k]
    {
      DerivedAt(values, sqrt, k);
    }
  }

  /** The current and power-factor rules keep every other key as the earlier rules left it. */
  lemma CurrentAndFactorKeep(d: map<Name, real>, sqrt: real -> real, k: Name)
    requires IsSquareRoot(sqrt) && k !in PhaseCurrentKeys && k != PowerFactorTotal
    ensures Get(PowerFactorFill(CurrentStage(d, PhaseCount), sqrt), k, 0.0) == Get(d, k, 0.0)
  {
    CurrentStageAt(d, PhaseCount, k);
    PowerFactorFillAt(CurrentStage(d, PhaseCount), sqrt, k);
  }

  /** The rules after the voltage rules keep what those left at every other key. */
  lemma LaterStagesAt(values: map<Name, real>, sqrt: real -> real, k: Name)
    requires IsSquareRoot(sqrt)
    requires k !in PhasePowerKeys && k !in PhaseCurrentKeys && k != PowerFactorTotal
    ensures Get(Derived(values, sqrt), k, 0.0) == Get(VoltageStage(values), k, 0.0)
  {
    var d1 := VoltageStage(values);
    PowerStageAt(d1, k);
    CurrentAndFactorKeep(PowerStage(d1), sqrt, k);
  }

  /** A derived voltage that was zero ends at the reference, times sqrt(3) for line-to-line. */
  lemma DerivedVoltages(values: map<Name, real>, sqrt: real -> real)
    requires IsSquareRoot(sqrt)
    ensures forall n :: n in LineToLineNames + PhaseVoltageNames && Get(values, n, 0.0) == 0.0 ==>
              Get(Derived(values, sqrt), n, 0.0) == VoltageTarget(values, n)
  {
    forall n | n in LineToLineNames + PhaseVoltageNames && Get(values, n, 0.0) == 0.0
      ensures Get(Derived(values, sqrt), n, 0.0) == VoltageTarget(values, n)
    {
      VoltageStageAt(values, n);
      LaterStagesAt(values, sqrt, n);
    }
  }

  /** A phase power that was zero ends at a third of a positive total power. */
  lemma DerivedPhasePowers(values: map<Name, real>, sqrt: real -> real)
    requires IsSquareRoot(sqrt)
    ensures forall n :: n in PhasePowerKeys && Get(values, n, 0.0) == 0.0 ==>
              Get(Derived(values, sqrt), n, 0.0) == PowerTarget(values)
  {
    forall n | n in PhasePowerKeys && Get(values, n, 0.0) == 0.0
      ensures Get(Derived(values, sqrt), n, 0.0) == PowerTarget(values)
    {
      PhasePowerAt(values, sqrt, n);
    }
  }

  lemma PhasePowerAt(values: map<Name, real>, sqrt: real -> real, n: Name)
    requires IsSquareRoot(sqrt) && n in PhasePowerKeys && Get(values, n, 0.0) == 0.0
    ensures Get(Derived(values, sqrt), n, 0.0) == PowerTarget(values)
  {
    var d1 := VoltageStage(values);
    VoltageStageAt(values, PowerTotal);
    VoltageStageAt(values, n);
    PowerStageAt(d1, n);
    CurrentAndFactorKeep(PowerStage(d1), sqrt, n);
  }

  /**
   * A phase current that was zero ends consistent with the phase power and
   * voltage the pass itself produced.
   */
  lemma DerivedCurrents(values: map<Name, real>, sqrt: real -> real)
    requires IsSquareRoot(sqrt)
    ensures var r := Derived(values, sqrt);
      forall i :: 0 <= i < PhaseCount && Get(values, PhaseCurrentKeys[i], 0.0) == 0.0 ==>
        Get(r, PhaseCurrentKeys[i], 0.0) == CurrentTarget(r, i)
  {
    forall i | 0 <= i < PhaseCount && Get(values, PhaseCurrentKeys[i], 0.0) == 0.0
      ensures Get(Derived(values, sqrt), PhaseCurrentKeys[i], 0.0) == CurrentTarget(Derived(values, sqrt), i)
    {
      DerivedCurrentAt(values, sqrt, i);
    }
  }

  lemma DerivedCurrentAt(values: map<Name, real>, sqrt: real -> real, i: nat)
    requires IsSquareRoot(sqrt) && i < PhaseCount && Get(values, PhaseCurrentKeys[i], 0.0) == 0.0
    ensures var r := Derived(values, sqrt);
      Get(r, PhaseCurrentKeys[i], 0.0) == CurrentTarget(r, i)
  {
    var filled := FilledMeasurements(values);
    FilledCurrentAt(values, i);
    PowerFactorFillAt(filled, sqrt, PhaseCurrentKeys[i]);
    PowerFactorFillAt(filled, sqrt, PhasePowerKeys[i]);
    PowerFactorFillAt(filled, sqrt, PhaseVoltageKeys[i]);
  }

  lemma FilledCurrentAt(values: map<Name, real>, i: nat)
    requires i < PhaseCount && Get(values, PhaseCurrentKeys[i], 0.0) == 0.0
    ensures var r := FilledMeasurements(values);
      Get(r, PhaseCurrentKeys[i], 0.0) == CurrentTarget(r, i)
  {
    var d1 := VoltageStage(values);
    var d2 := PowerStage(d1);
    var key := PhaseCurrentKeys[i];
    VoltageStageAt(values, key);
    PowerStageAt(d1, key);
    CurrentStageSets(d2, PhaseCount, i);
    CurrentStageAt(d2, PhaseCount, PhasePowerKeys[i]);
    CurrentStageAt(d2, PhaseCount, PhaseVoltageKeys[i]);
  }

  /** A power factor that was zero ends at the rule's value for the input's powers. */
  lemma DerivedPowerFactor(values: map<Name, real>, sqrt: real -> real)
    requires IsSquareRoot(sqrt)
    ensures Get(values, PowerFactorTotal, 0.0) == 0.0 ==>
              Get(Derived(values, sqrt), PowerFactorTotal, 0.0) == PowerFactorTarget(values, sqrt)
  {
    var filled := FilledMeasurements(values);
    FilledKeeps(values, PowerTotal);
    FilledKeeps(values, ReactivePowerTotal);
    FilledKeeps(values, PowerFactorTotal);
    PowerFactorFillAt(filled, sqrt, PowerFactorTotal);
  }

  /**
   * The derived power factor is a ratio in [0, 1]: zero (not derived) unless
   * the active power is positive, unity when there is no positive reactive
   * power, and otherwise active over an apparent power whose square is the sum
   * of the squares of the active and reactive power.
   */
  lemma PowerFactorBounds(active: real, reactive: real, sqrt: real -> real)
    requires IsSquareRoot(sqrt)
    ensures var pf := PowerFactor(active, reactive, sqrt);
      && 0.0 <= pf <= 1.0
      && (active <= 0.0 ==> pf == 0.0)
      && (active > 0.0 ==> 0.0 < pf)
      && (active > 0.0 && reactive <= 0.0 ==> pf == 1.0)
      && (active > 0.0 && reactive > 0.0 ==>
            && pf * ApparentPower(sqrt, active, reactive) == active
            && ApparentPower(sqrt, active, reactive) * ApparentPower(sqrt, active, reactive)
               == active * active + reactive * reactive)
  {
    if active > 0.0 && reactive > 0.0 {
      RootBound(sqrt, active * active + reactive * reactive, active);
      RatioAtMostOne(active, ApparentPower(sqrt, active, reactive));
    }
  }

  lemma RatioAtMostOne(a: real, b: real)
    requires 0.0 < a <= b
    ensures 0.0 < a / b <= 1.0 && (a / b) * b == a
  {
    var q := a / b;
    assert q * b == a;
    if 1.0 < q {
      ProductOfPositives(q - 1.0, b);
    }
  }

  /** A square root is determined: a non-negative `y` with `y * y == x` is the root of `x`. */
  lemma RootIsUnique(sqrt: real -> real, x: real, y: real)
    requires IsSquareRoot(sqrt) && 0.0 <= y && y * y == x
    ensures sqrt(x) == y
  {
    RootBound(sqrt, x, y);
    var s := sqrt(x);
    if s > y {
      SquareMonotone(y, s);
    }
  }

  /** 3 kW active and 4 kVAr reactive power give a power factor of 0.6. */
  lemma PowerFactorExample(sqrt: real -> real)
    requires IsSquareRoot(sqrt)
    ensures PowerFactor(3.0, 4.0, sqrt) == 0.6
  {
    RootIsUnique(sqrt, 25.0, 5.0);
  }

  /**
   * A worked reading: 230 V on phase 1, 9 kW in total, no reactive power and
   * every derivable value at zero.
   */
  predicate ExampleReading(values: map<Name, real>)
  {
    && Get(values, VoltageL1, 0.0) == 230.0 && Get(values, PowerTotal, 0.0) == 9.0
    && Get(values, ReactivePowerTotal, 0.0) == 0.0
    && forall n :: Derivable(n) ==> Get(values, n, 0.0) == 0.0
  }

  /**
   * In the worked reading the three line-to-line voltages become 398.36 V and
   * phases 2 and 3 take phase 1's 230 V.
   */
  lemma ExampleVoltages(values: map<Name, real>, sqrt: real -> real)
    requires IsSquareRoot(sqrt) && ExampleReading(values)
    ensures Get(Derived(values, sqrt), VoltageL1L2, 0.0) == 398.36
    ensures Get(Derived(values, sqrt), VoltageL2L3, 0.0) == 398.36
    ensures Get(Derived(values, sqrt), VoltageL3L1, 0.0) == 398.36
    ensures Get(Derived(values, sqrt), VoltageL2, 0.0) == 230.0
    ensures Get(Derived(values, sqrt), VoltageL3, 0.0) == 230.0
  {
    DerivedVoltages(values, sqrt);
  }

  /** In the worked reading each phase power becomes 3 kW. */
  lemma ExamplePhasePowers(values: map<Name, real>, sqrt: real -> real)
    requires IsSquareRoot(sqrt) && ExampleReading(values)
    ensures Get(Derived(values, sqrt), PowerL1, 0.0) == 3.0
    ensures Get(Derived(values, sqrt), PowerL2, 0.0) == 3.0
    ensures Get(Derived(values, sqrt), PowerL3, 0.0) == 3.0
  {
    DerivedPhasePowers(values, sqrt);
  }

  /** In the worked reading phase 1's current becomes 3000/230 A. */
  lemma ExampleCurrent(values: map<Name, real>, sqrt: real -> real)
    requires IsSquareRoot(sqrt) && ExampleReading(values)
    ensures Get(Derived(values, sqrt), CurrentL1, 0.0) == 3000.0 / 230.0
  {
    var r := Derived(values, sqrt);
    assert Derivable(CurrentL1) && Derivable(PowerL1);
    assert Get(values, PhaseCurrentKeys[0], 0.0) == 0.0;
    DerivedCurrentAt(values, sqrt, 0);
    assert Get(values, PowerL1, 0.0) == 0.0;
    PhasePowerAt(values, sqrt, PowerL1);
    DerivedAt(values, sqrt, VoltageL1);
    assert Get(r, VoltageL1, 0.0) == 230.0;
  }

  /** In the worked reading the power factor becomes 1. */
  lemma ExamplePowerFactor(values: map<Name, real>, sqrt: real -> real)
    requires IsSquareRoot(sqrt) && ExampleReading(values)
    ensures Get(Derived(values, sqrt), PowerFactorTotal, 0.0) == 1.0
  {
    DerivedPowerFactor(values, sqrt);
  }

  /** `_calculate_derived_values`: copy the values, then fill zero entries rule by rule. */
  method CalculateDerivedValues(values: map<Name, real>, sqrt: real -> real) returns (derived: map<Name, real>)
    requires IsSquareRoot(sqrt)
    ensures derived == Derived(values, sqrt)
  {
    derived := values;
    derived := FillVoltages(derived);
    derived := SplitTotalPower(derived);
    derived := FillCurrents(derived);
    derived := FillPowerFactor(derived, sqrt);
  }

  /** Line-to-line voltages at sqrt(3) times, phase voltages at, the reference voltage. */
  method FillVoltages(values: map<Name, real>) returns (derived: map<Name, real>)
    ensures derived == VoltageStage(values)
  {
    derived := values;
    var reference := Get(derived, VoltageL1, 230.0);
    derived := FillLineVoltages(derived, reference);
    derived := FillPhaseVoltages(derived, reference);
  }

  /** Each line-to-line voltage still at zero as sqrt(3) times a positive reference. */
  method FillLineVoltages(values: map<Name, real>, reference: real) returns (derived: map<Name, real>)
    ensures derived == FillEach(values, LineToLineNames, reference > 0.0, reference * Sqrt3)
  {
    derived := values;
    if Get(derived, VoltageL1L2, 0.0) == 0.0 && reference > 0.0 {
      derived := derived[VoltageL1L2 := reference * Sqrt3];
    }
    assert derived == FillEach(values, LineToLineNames[..1], reference > 0.0, reference * Sqrt3);
    if Get(derived, VoltageL2L3, 0.0) == 0.0 && reference > 0.0 {
      derived := derived[VoltageL2L3 := reference * Sqrt3];
    }
    assert LineToLineNames[..2][..1] == LineToLineNames[..1];
    assert derived == FillEach(values, LineToLineNames[..2], reference > 0.0, reference * Sqrt3);
    if Get(derived, VoltageL3L1, 0.0) == 0.0 && reference > 0.0 {
      derived := derived[VoltageL3L1 := reference * Sqrt3];
    }
    assert LineToLineNames[..3] == LineToLineNames;
  }

  /** Phase 2 and 3 voltages still at zero as a positive reference. */
  method FillPhaseVoltages(values: map<Name, real>, reference: real) returns (derived: map<Name, real>)
    ensures derived == FillEach(values, PhaseVoltageNames, reference > 0.0, reference)
  {
    derived := values;
    if Get(derived, VoltageL2, 0.0) == 0.0 && reference > 0.0 {
      derived := derived[VoltageL2 := reference];
    }
    assert derived == FillEach(values, PhaseVoltageNames[..1], reference > 0.0, reference);
    if Get(derived, VoltageL3, 0.0) == 0.0 && reference > 0.0 {
      derived := derived[VoltageL3 := reference];
    }
    assert PhaseVoltageNames[..2] == PhaseVoltageNames;
  }

  /** An equal split of a positive total power over the phases still at zero. */
  method SplitTotalPower(values: map<Name, real>) returns (derived: map<Name, real>)
    ensures derived == PowerStage(values)
  {
    derived := values;
    var totalPower := Get(derived, PowerTotal, 0.0);
    if totalPower > 0.0 {
      if Get(derived, PowerL1, 0.0) == 0.0 {
        derived := derived[PowerL1 := totalPower / 3.0];
      }
      assert derived == FillEach(values, PhasePowerKeys[..1], true, totalPower / 3.0);
      if Get(derived, PowerL2, 0.0) == 0.0 {
        derived := derived[PowerL2 := totalPower / 3.0];
      }
      assert PhasePowerKeys[..2][..1] == PhasePowerKeys[..1];
      assert derived == FillEach(values, PhasePowerKeys[..2], true, totalPower / 3.0);
      if Get(derived, PowerL3, 0.0) == 0.0 {
        derived := derived[PowerL3 := totalPower / 3.0];
      }
      assert PhasePowerKeys[..3] == PhasePowerKeys;
    } else {
      FillEachOff(values, PhasePowerKeys, totalPower / 3.0);
    }
  }

  /** Each phase current still at zero from that phase's power and voltage, phase by phase. */
  method FillCurrents(values: map<Name, real>) returns (derived: map<Name, real>)
    ensures derived == CurrentStage(values, PhaseCount)
  {
    derived := values;
    for i := 0 to PhaseCount
      invariant derived == CurrentStage(values, i)
    {
      ghost var beforePhase := derived;
      var power := Get(derived, PhasePowerKeys[i], 0.0);
      var voltage := Get(derived, PhaseVoltageKeys[i], 0.0);
      if power > 0.0 && voltage > 0.0 && Get(derived, PhaseCurrentKeys[i], 0.0) == 0.0 {
        derived := derived[PhaseCurrentKeys[i] := (power * 1000.0) / voltage];
      }
      assert derived == CurrentFill(beforePhase, i);
    }
  }

  /** The total power factor, when still at zero, from total active and reactive power. */
  method FillPowerFactor(values: map<Name, real>, sqrt: real -> real) returns (derived: map<Name, real>)
    requires IsSquareRoot(sqrt)
    ensures derived == PowerFactorFill(values, sqrt)
  {
    derived := values;
    var activePower := Get(derived, PowerTotal, 0.0);
    var reactivePower := Get(derived, ReactivePowerTotal, 0.0);
    if activePower > 0.0 && Get(derived, PowerFactorTotal, 0.0) == 0.0 {
      if reactivePower > 0.0 {
        var apparentPower := ApparentPower(sqrt, activePower, reactivePower);
        derived := derived[PowerFactorTotal := activePower / apparentPower];
      } else {
        derived := derived[PowerFactorTotal := 1.0];
      }
    }
  }
}
