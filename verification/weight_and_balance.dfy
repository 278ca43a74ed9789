/**
 * The weight-and-balance calculator for the Cessna 172S: an object built
 * for one known aircraft, loaded station by station, and asked for its
 * total weight, total moment and centre of gravity.
 */
module WeightAndBalance {
  import opened Rounding
  import opened Text
  import opened Stations
  import opened Manifest
  import opened Balance

  /** The arm table exactly as the calculator builds it. */
  function ArmTable(): map<Station, real> {
    map[
      FrontSeats := 37.0 * IN_TO_CM,
      BackSeats := 73.0 * IN_TO_CM,
      FrontBaggage := 95.0 * IN_TO_CM,
      BackBaggage := 123.0 * IN_TO_CM,
      Stations.Fuel := 48.0 * IN_TO_CM]
  }

  /** The table holds an arm for every station, the one the calculation uses. */
  lemma ArmTableComplete(s: Station)
    ensures s in ArmTable() && ArmTable()[s] == Arm(s)
  {
    match s
    case FrontSeats =>
    case BackSeats =>
    case FrontBaggage =>
    case BackBaggage =>
    case Fuel =>
  }

  class C172S_WB {
    const callsign: string
    const emptyMassKg: real
    const emptyArmCm: real
    const emptyMoment: real
    const arms: map<Station, real>
    var loading: Loading

    /** The calculator's state as a value. */
    function Snapshot(): Aircraft
      reads this
    {
      Aircraft(callsign, emptyMassKg, emptyArmCm, emptyMoment, loading)
    }

    ghost predicate Valid()
      reads this
    {
      ValidAircraft(Snapshot()) && arms == ArmTable()
    }

    /** Construction for a callsign with a weighing record. */
    constructor (callsign: string)
      requires callsign == DEXBS || callsign == DEXAV
      ensures Valid()
      ensures this.callsign == callsign && loading == []
      ensures CalibrationFor(callsign) == Some(Calibration(emptyMassKg, emptyArmCm))
      ensures emptyMoment == Round2(emptyMassKg * emptyArmCm)
    {
      if callsign == DEXBS {
        emptyMassKg := 773.16;
        emptyArmCm := 101.62;
        emptyMoment := Round2(773.16 * 101.62);
      } else {
        emptyMassKg := 749.0;
        emptyArmCm := 106.805;
        emptyMoment := Round2(749.0 * 106.805);
      }
      this.callsign := callsign;
      arms := ArmTable();
      loading := [];
    }

    /** `load(weight_kg, station, name)`: the capitalised name now holds the weight at that station. */
    method Load(weightKg: real, station: Station, name: string)
      requires Valid()
      modifies this
      ensures Valid()
      ensures loading == Put(old(loading), station, Capitalize(name), weightKg)
    {
      PutWellFormed(loading, station, Capitalize(name), weightKg);
      loading := Put(loading, station, Capitalize(name), weightKg);
    }

    /** `fuel(liters)`: the fuel station's "Fuel" entry now holds the mass of that many litres. */
    method Fuel(liters: real)
      requires Valid()
      modifies this
      ensures Valid()
      ensures loading == Put(old(loading), Stations.Fuel, "Fuel", liters * KG_PER_LITER_100LL)
    {
      PutWellFormed(loading, Stations.Fuel, "Fuel", liters * KG_PER_LITER_100LL);
      loading := Put(loading, Stations.Fuel, "Fuel", liters * KG_PER_LITER_100LL);
    }

    /** `total_weight(with_fuel)`: walks the loading in insertion order. */
    method TotalWeight(withFuel: bool) returns (w: real)
      requires Valid()
      ensures w == Balance.TotalWeight(Snapshot(), withFuel)
    {
      var total := emptyMassKg;
      for k := 0 to |loading|
        invariant total == emptyMassKg + LoadedWeight(loading[..k], withFuel)
      {
        var entry := loading[k];
        assert loading[..k + 1] == loading[..k] + [entry];
        if entry.station == Stations.Fuel && !withFuel {
          continue;
        }
        total := total + ItemsWeight(entry.items);
      }
      assert loading[..|loading|] == loading;
      w := Round2(total);
    }

    /** `total_moment(with_fuel)`: walks the arm table and looks each station up in the loading. */
    method TotalMoment(withFuel: bool) returns (m: real)
      requires Valid()
      ensures m == Balance.TotalMoment(Snapshot(), withFuel)
    {
      var total := emptyMoment;
      for i := 0 to |ArmOrder|
        invariant total == emptyMoment + MomentOver(ArmOrder[..i], loading, withFuel)
      {
        var station := ArmOrder[i];
        ArmTableComplete(station);
        var arm := arms[station];
        MomentOverStep(ArmOrder, i, loading, withFuel);
        if station == Stations.Fuel && !withFuel {
          continue;
        }
        var weights := ItemsAt(loading, station);
        total := total + ItemsMoment(weights, arm);
      }
      assert ArmOrder[..|ArmOrder|] == ArmOrder;
      m := Round2(total);
    }

    /** `CoG(with_fuel)`: fails only when the total weight is zero. */
    method CoG(withFuel: bool) returns (r: Result<real>)
      requires Valid()
      ensures r == Balance.CoG(Snapshot(), withFuel)
    {
      var moment := TotalMoment(withFuel);
      var weight := TotalWeight(withFuel);
      if weight == 0.0 {
        return Err(DivisionByZero);
      }
      return Ok(Round2(moment / weight));
    }
  }

  /** The constructor's check: a calculator for a known callsign, an error for any other. */
  method Create(callsign: string) returns (r: Result<C172S_WB>)
    ensures r.Ok? <==> CalibrationFor(callsign).Some?
    ensures r.Err? ==> r.error == UnknownCallsign(callsign)
    ensures r.Ok? ==> fresh(r.value) && r.value.Valid()
    ensures r.Ok? ==> r.value.callsign == callsign && r.value.loading == []
  {
    if callsign == DEXBS || callsign == DEXAV {
      var plane := new C172S_WB(callsign);
      return Ok(plane);
    }
    return Err(UnknownCallsign(callsign));
  }

  /** The empty moment of each weighing record, rounded once to two decimals. */
  lemma EmptyMoments()
    ensures Round2(773.16 * 101.62) == 78568.52
    ensures Round2(749.0 * 106.805) == 79996.95
  {
    assert 773.16 * 101.62 == 78568.5192;
    assert 749.0 * 106.805 == 79996.945;
  }

  /**
   * Loading two names at one station: the first name keeps its own weight
   * exactly when the two differ other than in letter case.
   */
  lemma LoadNamesCaseInsensitive(m: Loading, s: Station, first: string, second: string, a: real, b: real)
    ensures Lookup(Put(Put(m, s, Capitalize(first), a), s, Capitalize(second), b), s, Capitalize(first)) ==
      if Lower(first) == Lower(second) then Some(b) else Some(a)
  {
    CapitalizeCollides(first, second);
    PutLookup(m, s, Capitalize(first), a, s, Capitalize(first));
    PutLookup(Put(m, s, Capitalize(first), a), s, Capitalize(second), b, s, Capitalize(first));
  }

  /** A second `fuel` call replaces the first: one "Fuel" entry, holding the second amount. */
  lemma FuelReplaces(m: Loading, first: real, second: real)
    ensures Put(Put(m, Stations.Fuel, "Fuel", first * KG_PER_LITER_100LL), Stations.Fuel, "Fuel", second * KG_PER_LITER_100LL)
      == Put(m, Stations.Fuel, "Fuel", second * KG_PER_LITER_100LL)
    ensures Lookup(Put(m, Stations.Fuel, "Fuel", second * KG_PER_LITER_100LL), Stations.Fuel, "Fuel")
      == Some(second * KG_PER_LITER_100LL)
  {
    PutTwice(m, Stations.Fuel, "Fuel", first * KG_PER_LITER_100LL, second * KG_PER_LITER_100LL);
    PutLookup(m, Stations.Fuel, "Fuel", second * KG_PER_LITER_100LL, Stations.Fuel, "Fuel");
  }

  /**
   * `fuel(liters)` leaves the weight without fuel as it was, and moves the
   * weight with fuel by the new fuel mass less the old one.
   */
  lemma FuelWeights(m: Loading, liters: real)
    requires WellFormed(m)
    ensures LoadedWeight(Put(m, Stations.Fuel, "Fuel", liters * KG_PER_LITER_100LL), false) == LoadedWeight(m, false)
    ensures LoadedWeight(Put(m, Stations.Fuel, "Fuel", liters * KG_PER_LITER_100LL), true)
      == LoadedWeight(m, true) + liters * KG_PER_LITER_100LL - PreviousWeight(m, Stations.Fuel, "Fuel")
  {
    PutWeight(m, Stations.Fuel, "Fuel", liters * KG_PER_LITER_100LL, false);
    PutWeight(m, Stations.Fuel, "Fuel", liters * KG_PER_LITER_100LL, true);
  }

  /**
   * A flight prepared the way the command-line entry point does it: D-EXBS,
   * an 80 kg pilot in the front seats and 100 litres of fuel.
   */
  method ExampleFlight() returns (weight: real, cog: Result<real>, weightWithoutFuel: real, cogWithoutFuel: Result<real>)
    ensures weight == 924.16 && cog == Ok(102.52)
    ensures weightWithoutFuel == 853.16 && cogWithoutFuel == Ok(100.90)
  {
    var r := Create(DEXBS);
    var plane := r.value;
    plane.Load(80.0, FrontSeats, "pilot");
    plane.Fuel(100.0);
    weight := plane.TotalWeight(true);
    cog := plane.CoG(true);
    weightWithoutFuel := plane.TotalWeight(false);
    cogWithoutFuel := plane.CoG(false);
    ExampleFigures(plane.Snapshot());
  }

  /** The figures of the example flight, from the definitions. */
  lemma ExampleFigures(a: Aircraft)
    requires a.emptyMassKg == 773.16 && a.emptyArmCm == 101.62
    requires a.emptyMoment == Round2(773.16 * 101.62)
    requires |a.loading| == 2
    requires a.loading[0].station == FrontSeats && |a.loading[0].items| == 1 && a.loading[0].items[0].weightKg == 80.0
    requires a.loading[1] == StationLoad(Stations.Fuel, [Item("Fuel", 100.0 * KG_PER_LITER_100LL)])
    ensures Balance.TotalWeight(a, true) == 924.16 && Balance.CoG(a, true) == Ok(102.52)
    ensures Balance.TotalWeight(a, false) == 853.16 && Balance.CoG(a, false) == Ok(100.90)
  {
    EmptyMoments();
    var m := a.loading;
    var front, fuel := m[0].items, m[1].items;
    assert front[..0] == [] && fuel[..0] == [];
    assert ItemsWeight(front) == 80.0 && ItemsWeight(fuel) == 71.0;
    assert ItemsMoment(front, Arm(FrontSeats)) == 80.0 * 93.98;
    assert ItemsMoment(fuel, Arm(Stations.Fuel)) == 71.0 * 121.92;
    assert ItemsAt(m, FrontSeats) == front;
    assert ItemsAt(m, Stations.Fuel) == fuel;
    assert ItemsAt(m, BackSeats) == [] && ItemsAt(m, FrontBaggage) == [] && ItemsAt(m, BackBaggage) == [];
    LoadedWeightByStation(m, true);
    LoadedWeightByStation(m, false);
    LoadedMomentByStation(m, true);
    LoadedMomentByStation(m, false);
    Round2Is(773.16 + 151.0, 92416);
    Round2Is(773.16 + 80.0, 85316);
    Round2Is(78568.52 + 80.0 * 93.98 + 71.0 * 121.92, 9474324);
    Round2Is(78568.52 + 80.0 * 93.98, 8608692);
    Round2Is(94743.24 / 924.16, 10252);
    Round2Is(86086.92 / 853.16, 10090);
  }

  /**
   * The same loads in D-EXAV: its empty moment is the rounded product
   * 79996.95, not the book's 79997.00, so the total moment with fuel is
   * 96171.67; the CoG still rounds to 106.86.
   */
  lemma ExampleFiguresDEXAV(a: Aircraft)
    requires a.emptyMassKg == 749.0 && a.emptyArmCm == 106.805
    requires a.emptyMoment == Round2(749.0 * 106.805)
    requires |a.loading| == 2
    requires a.loading[0].station == FrontSeats && |a.loading[0].items| == 1 && a.loading[0].items[0].weightKg == 80.0
    requires a.loading[1] == StationLoad(Stations.Fuel, [Item("Fuel", 100.0 * KG_PER_LITER_100LL)])
    ensures Balance.TotalWeight(a, true) == 900.0 && Balance.TotalMoment(a, true) == 96171.67
    ensures Balance.CoG(a, true) == Ok(106.86)
    ensures Balance.TotalWeight(a, false) == 829.0 && Balance.CoG(a, false) == Ok(105.57)
  {
    EmptyMoments();
    var m := a.loading;
    var front, fuel := m[0].items, m[1].items;
    assert front[..0] == [] && fuel[..0] == [];
    assert ItemsWeight(front) == 80.0 && ItemsWeight(fuel) == 71.0;
    assert ItemsMoment(front, Arm(FrontSeats)) == 80.0 * 93.98;
    assert ItemsMoment(fuel, Arm(Stations.Fuel)) == 71.0 * 121.92;
    assert ItemsAt(m, FrontSeats) == front;
    assert ItemsAt(m, Stations.Fuel) == fuel;
    assert ItemsAt(m, BackSeats) == [] && ItemsAt(m, FrontBaggage) == [] && ItemsAt(m, BackBaggage) == [];
    LoadedWeightByStation(m, true);
    LoadedWeightByStation(m, false);
    LoadedMomentByStation(m, true);
    LoadedMomentByStation(m, false);
    Round2Is(749.0 + 151.0, 90000);
    Round2Is(749.0 + 80.0, 82900);
    Round2Is(79996.95 + 80.0 * 93.98 + 71.0 * 121.92, 9617167);
    Round2Is(79996.95 + 80.0 * 93.98, 8751535);
    Round2Is(96171.67 / 900.0, 10686);
    Round2Is(87515.35 / 829.0, 10557);
  }
}
