/**
 * The aggregates of the weight-and-balance calculation, as functions of a
 * frozen aircraft (calibration plus loading): total weight, total moment
 * and centre of gravity, each with or without the fuel station.
 */
module Balance {
  import opened Rounding
  import opened Stations
  import opened Manifest

  /** Kilograms per litre of 100LL aviation fuel. */
  const KG_PER_LITER_100LL: real := 0.71

  const DEXAV: string := "D-EXAV"
  const DEXBS: string := "D-EXBS"

  /** A weighing record: empty mass in kilograms and empty arm in centimetres. */
  datatype Calibration = Calibration(emptyMassKg: real, emptyArmCm: real)

  /** The weighing record of each known aircraft; any other callsign has none. */
  function CalibrationFor(callsign: string): (r: Option<Calibration>)
    ensures r.Some? <==> callsign == DEXBS || callsign == DEXAV
    ensures r.Some? ==> r.value.emptyMassKg >= 749.0
    ensures r.Some? ==> MIN_ARM <= r.value.emptyArmCm <= MAX_ARM
  {
    if callsign == DEXBS then Some(Calibration(773.16, 101.62))
    else if callsign == DEXAV then Some(Calibration(749.0, 106.805))
    else None
  }

  /** The state of a calculator once its loading is frozen. */
  datatype Aircraft = Aircraft(
    callsign: string,
    emptyMassKg: real,
    emptyArmCm: real,
    emptyMoment: real,
    loading: Loading)

  /** What construction followed by any sequence of loads produces. */
  predicate ValidAircraft(a: Aircraft) {
    && CalibrationFor(a.callsign) == Some(Calibration(a.emptyMassKg, a.emptyArmCm))
    && a.emptyMoment == Round2(a.emptyMassKg * a.emptyArmCm)
    && WellFormed(a.loading)
  }

  /** Every loaded weight is non-negative. */
  predicate NonNegative(m: Loading) {
    forall k, i :: 0 <= k < |m| && 0 <= i < |m[k].items| ==> m[k].items[i].weightKg >= 0.0
  }

  predicate NonNegativeItems(items: seq<Item>) {
    forall i :: 0 <= i < |items| ==> items[i].weightKg >= 0.0
  }

  /** Whether a station counts in a scenario: the fuel station only with fuel. */
  predicate Included(s: Station, withFuel: bool) {
    s != Fuel || withFuel
  }

  /** The sum of the weights of a station's items. */
  function ItemsWeight(items: seq<Item>): (r: real)
    ensures NonNegativeItems(items) ==> r >= 0.0
  {
    if items == [] then 0.0
    else ItemsWeight(items[..|items| - 1]) + items[|items| - 1].weightKg
  }

  /** The sum of weight times arm over a station's items (`np.sum(values * arm)`). */
  function ItemsMoment(items: seq<Item>, arm: real): real {
    if items == [] then 0.0
    else ItemsMoment(items[..|items| - 1], arm) + items[|items| - 1].weightKg * arm
  }

  /** Multiplying each weight by the arm and adding is the arm times the sum. */
  lemma {:induction false} ItemsMomentScales(items: seq<Item>, arm: real)
    ensures ItemsMoment(items, arm) == arm * ItemsWeight(items)
  {
    if items != [] {
      var p := items[..|items| - 1];
      ItemsMomentScales(p, arm);
      assert ItemsMoment(items, arm) == arm * ItemsWeight(p) + items[|items| - 1].weightKg * arm;
    }
  }

  /** The total weight of the items at one station (zero when it was never loaded). */
  function StationWeight(m: Loading, s: Station): real {
    ItemsWeight(ItemsAt(m, s))
  }

  /** The loads of `total_weight`: the station entries taken in loading order, fuel skipped without fuel. */
  function LoadedWeight(m: Loading, withFuel: bool): (r: real)
    ensures NonNegative(m) ==> r >= 0.0
  {
    if m == [] then 0.0
    else
      var e := m[|m| - 1];
      LoadedWeight(m[..|m| - 1], withFuel) +
        (if Included(e.station, withFuel) then ItemsWeight(e.items) else 0.0)
  }

  /** The loads of `total_moment`: the stations of `order` looked up in the loading. */
  function MomentOver(order: seq<Station>, m: Loading, withFuel: bool): real {
    if order == [] then 0.0
    else
      var s := order[|order| - 1];
      MomentOver(order[..|order| - 1], m, withFuel) +
        (if Included(s, withFuel) then ItemsMoment(ItemsAt(m, s), Arm(s)) else 0.0)
  }

  /** One more station of the order adds its moment, when included. */
  lemma MomentOverStep(order: seq<Station>, i: nat, m: Loading, withFuel: bool)
    requires i < |order|
    ensures MomentOver(order[..i + 1], m, withFuel) == MomentOver(order[..i], m, withFuel) +
      (if Included(order[i], withFuel) then ItemsMoment(ItemsAt(m, order[i]), Arm(order[i])) else 0.0)
  {
    assert order[..i + 1][..i] == order[..i];
  }

  /** `total_moment` walks the arm table, not the loading. */
  function LoadedMoment(m: Loading, withFuel: bool): real {
    MomentOver(ArmOrder, m, withFuel)
  }

  /** `total_weight(with_fuel)` */
  function TotalWeight(a: Aircraft, withFuel: bool): real {
    Round2(a.emptyMassKg + LoadedWeight(a.loading, withFuel))
  }

  /** `total_moment(with_fuel)` */
  function TotalMoment(a: Aircraft, withFuel: bool): real {
    Round2(a.emptyMoment + LoadedMoment(a.loading, withFuel))
  }

  /** `CoG(with_fuel)`: the rounded moment over the rounded weight, rounded again. */
  function CoG(a: Aircraft, withFuel: bool): Result<real> {
    var w := TotalWeight(a, withFuel);
    if w == 0.0 then Err(DivisionByZero) else Ok(Round2(TotalMoment(a, withFuel) / w))
  }

  // ---------------------------------------------------------------------
  // Station by station

  /** One station's share of the weight in a scenario. */
  function WeightTerm(m: Loading, s: Station, withFuel: bool): real {
    if Included(s, withFuel) then StationWeight(m, s) else 0.0
  }

  /** One station's share of the moment in a scenario. */
  function MomentTerm(m: Loading, s: Station, withFuel: bool): real {
    if Included(s, withFuel) then ItemsMoment(ItemsAt(m, s), Arm(s)) else 0.0
  }

  function SumOfStations(m: Loading, withFuel: bool): real {
    WeightTerm(m, FrontSeats, withFuel) + WeightTerm(m, BackSeats, withFuel)
    + WeightTerm(m, FrontBaggage, withFuel) + WeightTerm(m, BackBaggage, withFuel)
    + WeightTerm(m, Fuel, withFuel)
  }

  function MomentOfStations(m: Loading, withFuel: bool): real {
    MomentTerm(m, FrontSeats, withFuel) + MomentTerm(m, BackSeats, withFuel)
    + MomentTerm(m, FrontBaggage, withFuel) + MomentTerm(m, BackBaggage, withFuel)
    + MomentTerm(m, Fuel, withFuel)
  }

  /** Appending the entry of a new station changes that station's items only. */
  lemma ItemsAtSnoc(p: Loading, e: StationLoad, s: Station)
    requires forall k :: 0 <= k < |p| ==> p[k].station != e.station
    ensures ItemsAt(p + [e], s) == if s == e.station then e.items else ItemsAt(p, s)
  {
    if s == e.station {
      FindStationFirst(p + [e], s, |p|);
    } else {
      FindStationUnchanged(p, p + [e], s, |p|);
    }
  }

  /** Appending the entry of a new station adds to that station's terms only. */
  lemma TermsSnoc(p: Loading, e: StationLoad, s: Station, withFuel: bool)
    requires forall k :: 0 <= k < |p| ==> p[k].station != e.station
    ensures WeightTerm(p + [e], s, withFuel) == WeightTerm(p, s, withFuel) +
      (if s == e.station && Included(s, withFuel) then ItemsWeight(e.items) else 0.0)
    ensures MomentTerm(p + [e], s, withFuel) == MomentTerm(p, s, withFuel) +
      (if s == e.station && Included(s, withFuel) then ItemsMoment(e.items, Arm(s)) else 0.0)
  {
    ItemsAtSnoc(p, e, s);
    if s == e.station {
      assert FindStation(p, s).None?;
    }
  }

  lemma AllTermsSnoc(p: Loading, e: StationLoad, withFuel: bool)
    requires forall k :: 0 <= k < |p| ==> p[k].station != e.station
    ensures SumOfStations(p + [e], withFuel) == SumOfStations(p, withFuel) +
      (if Included(e.station, withFuel) then ItemsWeight(e.items) else 0.0)
    ensures MomentOfStations(p + [e], withFuel) == MomentOfStations(p, withFuel) +
      (if Included(e.station, withFuel) then ItemsMoment(e.items, Arm(e.station)) else 0.0)
  {
    TermsSnoc(p, e, FrontSeats, withFuel);
    TermsSnoc(p, e, BackSeats, withFuel);
    TermsSnoc(p, e, FrontBaggage, withFuel);
    TermsSnoc(p, e, BackBaggage, withFuel);
    TermsSnoc(p, e, Fuel, withFuel);
  }

  /**
   * The loop of `total_weight`, which walks the loading in insertion order,
   * adds up each station's weight once, whatever that order.
   */
  lemma {:induction false} LoadedWeightByStation(m: Loading, withFuel: bool)
    requires DistinctStations(m)
    ensures LoadedWeight(m, withFuel) == SumOfStations(m, withFuel)
  {
    if m == [] {
    } else {
      var p, e := m[..|m| - 1], m[|m| - 1];
      assert m == p + [e];
      LoadedWeightByStation(p, withFuel);
      AllTermsSnoc(p, e, withFuel);
    }
  }

  /** The loop of `total_moment` over the arm table visits every station once. */
  lemma LoadedMomentByStation(m: Loading, withFuel: bool)
    ensures LoadedMoment(m, withFuel) == MomentOfStations(m, withFuel)
  {
    var o := ArmOrder;
    assert o[..4] == [FrontSeats, BackSeats, FrontBaggage, BackBaggage];
    assert o[..4][..3] == [FrontSeats, BackSeats, FrontBaggage];
    assert o[..4][..3][..2] == [FrontSeats, BackSeats];
    assert o[..4][..3][..2][..1] == [FrontSeats];
    assert o[..4][..3][..2][..1][..0] == [];
    assert [FrontSeats][..0] == [];
    assert [FrontSeats, BackSeats][..1] == [FrontSeats];
    assert [FrontSeats, BackSeats, FrontBaggage][..2] == [FrontSeats, BackSeats];
    assert MomentOver([], m, withFuel) == 0.0;
    var m1 := MomentOver([FrontSeats], m, withFuel);
    assert m1 == MomentOver([], m, withFuel) + MomentTerm(m, FrontSeats, withFuel);
    var m2 := MomentOver([FrontSeats, BackSeats], m, withFuel);
    assert m2 == m1 + MomentTerm(m, BackSeats, withFuel);
    var m3 := MomentOver([FrontSeats, BackSeats, FrontBaggage], m, withFuel);
    assert m3 == m2 + MomentTerm(m, FrontBaggage, withFuel);
    var m4 := MomentOver(o[..4], m, withFuel);
    assert m4 == m3 + MomentTerm(m, BackBaggage, withFuel);
    assert MomentOver(o, m, withFuel) == m4 + MomentTerm(m, Fuel, withFuel);
  }

  /** The moment taken in loading order, as the weight loop would take it. */
  function MomentInLoadingOrder(m: Loading, withFuel: bool): real {
    if m == [] then 0.0
    else
      var e := m[|m| - 1];
      MomentInLoadingOrder(m[..|m| - 1], withFuel) +
        (if Included(e.station, withFuel) then ItemsMoment(e.items, Arm(e.station)) else 0.0)
  }

  /**
   * The two loops agree: walking the arm table (as `total_moment` does) gives
   * the same moment as walking the loading (as `total_weight` walks it).
   */
  lemma {:induction false} MomentOrderIndependent(m: Loading, withFuel: bool)
    requires DistinctStations(m)
    ensures MomentInLoadingOrder(m, withFuel) == LoadedMoment(m, withFuel)
  {
    LoadedMomentByStation(m, withFuel);
    MomentInLoadingOrderByStation(m, withFuel);
  }

  lemma {:induction false} MomentInLoadingOrderByStation(m: Loading, withFuel: bool)
    requires DistinctStations(m)
    ensures MomentInLoadingOrder(m, withFuel) == MomentOfStations(m, withFuel)
  {
    if m == [] {
    } else {
      var p, e := m[..|m| - 1], m[|m| - 1];
      assert m == p + [e];
      MomentInLoadingOrderByStation(p, withFuel);
      AllTermsSnoc(p, e, withFuel);
    }
  }

  // ---------------------------------------------------------------------
  // The two scenarios

  /** Without fuel the loads weigh exactly the fuel station's weight less. */
  lemma FuelSplit(m: Loading)
    requires DistinctStations(m)
    ensures LoadedWeight(m, true) == LoadedWeight(m, false) + StationWeight(m, Fuel)
  {
    LoadedWeightByStation(m, true);
    LoadedWeightByStation(m, false);
    TermsWithoutFuel(m);
  }

  /** Without fuel the moment is exactly the fuel's weight times the fuel arm less. */
  lemma FuelSplitMoment(m: Loading)
    ensures LoadedMoment(m, true) == LoadedMoment(m, false) + Arm(Fuel) * StationWeight(m, Fuel)
  {
    LoadedMomentByStation(m, true);
    LoadedMomentByStation(m, false);
    TermsWithoutFuel(m);
    ItemsMomentScales(ItemsAt(m, Fuel), Arm(Fuel));
  }

  /** Leaving fuel out drops the fuel station's terms and nothing else. */
  lemma TermsWithoutFuel(m: Loading)
    ensures SumOfStations(m, true) == SumOfStations(m, false) + StationWeight(m, Fuel)
    ensures MomentOfStations(m, true) == MomentOfStations(m, false) + ItemsMoment(ItemsAt(m, Fuel), Arm(Fuel))
  {
  }

  lemma StationWeightNonNegative(m: Loading, s: Station)
    requires NonNegative(m)
    ensures StationWeight(m, s) >= 0.0
  {
    match FindStation(m, s)
    case Some(k) =>
      assert NonNegativeItems(m[k].items);
    case None =>
  }

  /** With a non-negative fuel station weight the aircraft is never lighter with fuel than without. */
  lemma TotalWeightFuelMonotone(a: Aircraft)
    requires DistinctStations(a.loading)
    requires StationWeight(a.loading, Fuel) >= 0.0
    ensures TotalWeight(a, false) <= TotalWeight(a, true)
  {
    var lo, hi := LoadedWeight(a.loading, false), LoadedWeight(a.loading, true);
    LoadsFuelMonotone(a.loading);
    Round2Monotone(a.emptyMassKg + lo, a.emptyMassKg + hi);
  }

  lemma LoadsFuelMonotone(m: Loading)
    requires DistinctStations(m)
    requires StationWeight(m, Fuel) >= 0.0
    ensures LoadedWeight(m, false) <= LoadedWeight(m, true)
  {
    FuelSplit(m);
  }

  /** With no fuel station loaded both scenarios give the same weight, moment and CoG. */
  lemma NoFuelSameScenarios(a: Aircraft)
    requires WellFormed(a.loading)
    requires forall k :: 0 <= k < |a.loading| ==> a.loading[k].station != Fuel
    ensures TotalWeight(a, false) == TotalWeight(a, true)
    ensures TotalMoment(a, false) == TotalMoment(a, true)
    ensures CoG(a, false) == CoG(a, true)
  {
    assert ItemsAt(a.loading, Fuel) == [] by {
      assert FindStation(a.loading, Fuel).None?;
    }
    FuelSplit(a.loading);
    FuelSplitMoment(a.loading);
    assert LoadedWeight(a.loading, false) == LoadedWeight(a.loading, true);
    assert LoadedMoment(a.loading, false) == LoadedMoment(a.loading, true);
  }

  /**
   * Equal totals do not mean that no fuel is loaded: after `fuel(0)` the
   * fuel station is loaded, and both scenarios still weigh the same.
   */
  lemma FuelZeroSameWeight(a: Aircraft)
    requires a.loading == [StationLoad(Fuel, [Item("Fuel", 0.0)])]
    ensures FindStation(a.loading, Fuel).Some?
    ensures TotalWeight(a, false) == TotalWeight(a, true)
  {
    ZeroFuelLoads(a.loading);
  }

  /** The loads of a table holding only zero fuel weigh nothing in either scenario. */
  lemma ZeroFuelLoads(m: Loading)
    requires m == [StationLoad(Fuel, [Item("Fuel", 0.0)])]
    ensures LoadedWeight(m, false) == 0.0 && LoadedWeight(m, true) == 0.0
  {
    assert m[..0] == [];
    assert m[0].items[..0] == [];
    assert ItemsWeight(m[0].items) == 0.0;
  }

  /** The divisor of CoG is positive once every load is non-negative, because the empty mass is. */
  lemma TotalWeightPositive(a: Aircraft, withFuel: bool)
    requires ValidAircraft(a)
    requires NonNegative(a.loading)
    ensures TotalWeight(a, withFuel) > 748.0
    ensures CoG(a, withFuel).Ok?
  {
  }

  /**
   * The loads' moment lies between the smallest and the largest arm times
   * their weight: their centre of gravity is inside the arm table's range.
   */
  lemma LoadedMomentWithinArms(m: Loading, withFuel: bool)
    requires DistinctStations(m)
    requires NonNegative(m)
    ensures MIN_ARM * LoadedWeight(m, withFuel) <= LoadedMoment(m, withFuel)
    ensures LoadedMoment(m, withFuel) <= MAX_ARM * LoadedWeight(m, withFuel)
  {
    LoadedWeightByStation(m, withFuel);
    LoadedMomentByStation(m, withFuel);
    assert MIN_ARM == 93.98 && MAX_ARM == 312.42;
    TermWithinArms(m, FrontSeats, withFuel);
    TermWithinArms(m, BackSeats, withFuel);
    TermWithinArms(m, FrontBaggage, withFuel);
    TermWithinArms(m, BackBaggage, withFuel);
    TermWithinArms(m, Fuel, withFuel);
  }

  lemma TermWithinArms(m: Loading, s: Station, withFuel: bool)
    requires NonNegative(m)
    ensures MIN_ARM * WeightTerm(m, s, withFuel) <= MomentTerm(m, s, withFuel)
    ensures MomentTerm(m, s, withFuel) <= MAX_ARM * WeightTerm(m, s, withFuel)
  {
    if Included(s, withFuel) {
      StationWeightNonNegative(m, s);
      ItemsMomentScales(ItemsAt(m, s), Arm(s));
      ScaleBetween(Arm(s), StationWeight(m, s));
    }
  }

  /**
   * With non-negative loads the double-rounded CoG stays within the arm
   * table's range: the three roundings cannot carry it past either end.
   */
  lemma CoGWithinArms(a: Aircraft, withFuel: bool)
    requires ValidAircraft(a)
    requires NonNegative(a.loading)
    ensures CoG(a, withFuel).Ok?
    ensures MIN_ARM <= CoG(a, withFuel).value <= MAX_ARM
  {
    var t := a.emptyMassKg + LoadedWeight(a.loading, withFuel);
    var sw, sm := LoadedWeight(a.loading, withFuel), LoadedMoment(a.loading, withFuel);
    LoadedMomentWithinArms(a.loading, withFuel);
    assert MIN_ARM == 93.98 && MAX_ARM == 312.42;
    EmptyMomentWithinArms(a);
    assert 93.98 * t - 0.005 < a.emptyMoment + sm <= 312.42 * t + 0.005;
    CoGBound(t, a.emptyMoment + sm);
  }

  /** The empty aircraft's rounded moment lies between the extreme arms times its mass, up to the rounding. */
  lemma EmptyMomentWithinArms(a: Aircraft)
    requires ValidAircraft(a)
    ensures 93.98 * a.emptyMassKg - 0.005 < a.emptyMoment <= 312.42 * a.emptyMassKg + 0.005
  {
    var product := a.emptyMassKg * a.emptyArmCm;
    assert 93.98 * a.emptyMassKg <= product <= 312.42 * a.emptyMassKg by {
      if a.callsign == DEXBS {
        assert a.emptyMassKg == 773.16 && a.emptyArmCm == 101.62;
      } else {
        assert a.emptyMassKg == 749.0 && a.emptyArmCm == 106.805;
      }
    }
  }

  /** The arithmetic of CoGWithinArms, on a weight t and a moment between the extreme arms times t. */
  lemma CoGBound(t: real, moment: real)
    requires t >= 749.0
    requires 93.98 * t - 0.005 < moment <= 312.42 * t + 0.005
    ensures Round2(t) != 0.0
    ensures 93.98 <= Round2(Round2(moment) / Round2(t)) <= 312.42
  {
    var w, m := Round2(t), Round2(moment);
    assert 93.979 * w < m < 312.424 * w;
    QuotientBetween(m, w, 93.979, 312.424);
    Round2Monotone(93.979, m / w);
    Round2Monotone(m / w, 312.424);
    Round2Is(93.979, 9398);
    Round2Is(312.424, 31242);
  }

  lemma QuotientBetween(m: real, w: real, lo: real, hi: real)
    requires w > 0.0 && lo * w < m < hi * w
    ensures lo < m / w < hi
  {
  }

  lemma ScaleBetween(arm: real, w: real)
    requires MIN_ARM <= arm <= MAX_ARM && w >= 0.0
    ensures MIN_ARM * w <= arm * w <= MAX_ARM * w
  {
    assert (arm - MIN_ARM) * w >= 0.0;
    assert (MAX_ARM - arm) * w >= 0.0;
  }

  // ---------------------------------------------------------------------
  // One load at a time

  /** The weight `name` held at station `s` before, zero when it was absent. */
  function PreviousWeight(m: Loading, s: Station, name: string): real {
    match Lookup(m, s, name)
    case Some(w) => w
    case None => 0.0
  }

  lemma {:induction false} ItemsWeightUpdate(items: seq<Item>, i: nat, x: Item)
    requires i < |items|
    ensures ItemsWeight(items[i := x]) == ItemsWeight(items) - items[i].weightKg + x.weightKg
  {
    var n := |items|;
    var u := items[i := x];
    assert u[..n - 1] == if i == n - 1 then items[..n - 1] else items[..n - 1][i := x];
    if i < n - 1 {
      ItemsWeightUpdate(items[..n - 1], i, x);
    }
  }

  lemma SetItemWeight(items: seq<Item>, name: string, w: real)
    ensures ItemsWeight(SetItem(items, name, w)) ==
      ItemsWeight(items) + w - (match FindName(items, name) case Some(i) => items[i].weightKg case None => 0.0)
  {
    match FindName(items, name)
    case Some(i) =>
      ItemsWeightUpdate(items, i, Item(name, w));
    case None =>
      assert (items + [Item(name, w)])[..|items|] == items;
  }

  lemma ItemsAtPut(m: Loading, s: Station, name: string, w: real)
    ensures ItemsAt(Put(m, s, name, w), s) == SetItem(ItemsAt(m, s), name, w)
  {
    var r := Put(m, s, name, w);
    match FindStation(m, s)
    case Some(k) =>
      FindStationFirst(r, s, k);
    case None =>
      FindStationFirst(r, s, |m|);
      FindNameFirst([Item(name, 0.0)], name, 0);
  }

  /**
   * `load(w, s, name)` changes the loads' weight by w less what `name` held at
   * `s` before, and only in the scenarios that count `s`.
   */
  lemma PutWeight(m: Loading, s: Station, name: string, w: real, withFuel: bool)
    requires WellFormed(m)
    ensures LoadedWeight(Put(m, s, name, w), withFuel) ==
      LoadedWeight(m, withFuel) + (if Included(s, withFuel) then w - PreviousWeight(m, s, name) else 0.0)
  {
    var r := Put(m, s, name, w);
    PutWellFormed(m, s, name, w);
    LoadedWeightByStation(m, withFuel);
    LoadedWeightByStation(r, withFuel);
    PutOrder(m, s, name, w);
    OtherTermsUnchanged(m, r, s, withFuel);
    ItemsAtPut(m, s, name, w);
    SetItemWeight(ItemsAt(m, s), name, w);
  }

  /** When only station s changes its items, only its term of the sum changes. */
  lemma OtherTermsUnchanged(m: Loading, r: Loading, s: Station, withFuel: bool)
    requires forall t :: t != s ==> ItemsAt(r, t) == ItemsAt(m, t)
    ensures SumOfStations(r, withFuel) ==
      SumOfStations(m, withFuel) + WeightTerm(r, s, withFuel) - WeightTerm(m, s, withFuel)
  {
    assert forall t :: t != s ==> WeightTerm(r, t, withFuel) == WeightTerm(m, t, withFuel);
  }
}
