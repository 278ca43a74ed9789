/**
 * The calculator's `loading` table: for each station that has been loaded,
 * an insertion-ordered dictionary from item name to weight in kilograms.
 * Both levels keep insertion order, as Python dictionaries do: assigning to
 * an existing key replaces its value in place, a new key goes at the end,
 * and a station is added the first time something is loaded into it.
 */
module Manifest {
  import opened Rounding
  import opened Stations

  datatype Item = Item(name: string, weightKg: real)

  datatype StationLoad = StationLoad(station: Station, items: seq<Item>)

  type Loading = seq<StationLoad>

  predicate DistinctNames(items: seq<Item>) {
    forall i, j :: 0 <= i < j < |items| ==> items[i].name != items[j].name
  }

  predicate DistinctStations(m: Loading) {
    forall i, j :: 0 <= i < j < |m| ==> m[i].station != m[j].station
  }

  /** What `load` and `fuel` can build: one entry per station, none empty, no name twice. */
  predicate WellFormed(m: Loading) {
    && DistinctStations(m)
    && forall k :: 0 <= k < |m| ==> m[k].items != [] && DistinctNames(m[k].items)
  }

  function Names(items: seq<Item>): (r: seq<string>)
    ensures |r| == |items|
    ensures forall i :: 0 <= i < |items| ==> r[i] == items[i].name
  {
    seq(|items|, i requires 0 <= i < |items| => items[i].name)
  }

  function StationsOf(m: Loading): (r: seq<Station>)
    ensures |r| == |m|
    ensures forall k :: 0 <= k < |m| ==> r[k] == m[k].station
  {
    seq(|m|, k requires 0 <= k < |m| => m[k].station)
  }

  /** The position of the first item called `name`, if any. */
  function FindName(items: seq<Item>, name: string): (r: Option<nat>)
    ensures r.Some? ==> r.value < |items| && items[r.value].name == name
    ensures r.Some? ==> forall i :: 0 <= i < r.value ==> items[i].name != name
    ensures r.None? <==> forall i :: 0 <= i < |items| ==> items[i].name != name
  {
    if items == [] then None
    else if items[0].name == name then Some(0)
    else match FindName(items[1..], name)
      case None => None
      case Some(i) => Some(i + 1)
  }

  /** The position of the entry for station `s`, if it has been loaded. */
  function FindStation(m: Loading, s: Station): (r: Option<nat>)
    ensures r.Some? ==> r.value < |m| && m[r.value].station == s
    ensures r.Some? ==> forall k :: 0 <= k < r.value ==> m[k].station != s
    ensures r.None? <==> forall k :: 0 <= k < |m| ==> m[k].station != s
  {
    if m == [] then None
    else if m[0].station == s then Some(0)
    else match FindStation(m[1..], s)
      case None => None
      case Some(k) => Some(k + 1)
  }

  /**
   * `items[name] = w`: the name then holds w, the dictionary grows by at
   * most one entry, and every other item stays where it was.
   */
  function SetItem(items: seq<Item>, name: string, w: real): (r: seq<Item>)
    ensures Item(name, w) in r
    ensures |items| <= |r| <= |items| + 1
    ensures forall i :: 0 <= i < |items| && items[i].name != name ==> r[i] == items[i]
  {
    match FindName(items, name)
    case Some(i) =>
      var r := items[i := Item(name, w)];
      assert r[i] == Item(name, w);
      r
    case None =>
      var r := items + [Item(name, w)];
      assert r[|items|] == Item(name, w);
      r
  }

  /**
   * `loading[s][name] = w`, creating the entry for `s` when it is missing:
   * the table grows by at most one station. PutLookup and PutOrder state
   * what it holds afterwards.
   */
  function Put(m: Loading, s: Station, name: string, w: real): (r: Loading)
    ensures |m| <= |r| <= |m| + 1
  {
    match FindStation(m, s)
    case Some(k) => m[k := StationLoad(s, SetItem(m[k].items, name, w))]
    case None => m + [StationLoad(s, [Item(name, w)])]
  }

  /** `loading.get(s, {})`: the items of station `s`, none when it was never loaded. */
  function ItemsAt(m: Loading, s: Station): seq<Item> {
    match FindStation(m, s)
    case Some(k) => m[k].items
    case None => []
  }

  /** A station that was never loaded has no items. */
  lemma ItemsAtAbsent(m: Loading, s: Station)
    requires forall k :: 0 <= k < |m| ==> m[k].station != s
    ensures ItemsAt(m, s) == []
  {
  }

  /** In a table with one entry per station, the items at a station are that entry's items. */
  lemma ItemsAtEntry(m: Loading, s: Station, k: nat)
    requires DistinctStations(m)
    requires k < |m| && m[k].station == s
    ensures ItemsAt(m, s) == m[k].items
  {
  }

  /** The weight stored under `name` at station `s`, if any. */
  function Lookup(m: Loading, s: Station, name: string): Option<real> {
    var items := ItemsAt(m, s);
    match FindName(items, name)
    case Some(i) => Some(items[i].weightKg)
    case None => None
  }

  /** Assigning a name keeps the names distinct and the dictionary non-empty. */
  lemma SetItemWellFormed(items: seq<Item>, name: string, w: real)
    requires DistinctNames(items)
    ensures DistinctNames(SetItem(items, name, w)) && SetItem(items, name, w) != []
  {
  }

  /** `load` and `fuel` keep the table well formed. */
  lemma PutWellFormed(m: Loading, s: Station, name: string, w: real)
    requires WellFormed(m)
    ensures WellFormed(Put(m, s, name, w))
  {
    match FindStation(m, s)
    case Some(k) =>
      SetItemWellFormed(m[k].items, name, w);
    case None =>
  }

  /**
   * Insertion order: an existing name keeps its place, a new one goes last;
   * the other stations' items do not change.
   */
  lemma SetItemOrder(items: seq<Item>, name: string, w: real)
    ensures Names(SetItem(items, name, w)) ==
      if name in Names(items) then Names(items) else Names(items) + [name]
  {
    var r := SetItem(items, name, w);
    match FindName(items, name)
    case Some(i) =>
      assert name in Names(items);
      assert Names(r) == Names(items);
    case None =>
      assert name !in Names(items);
      assert Names(r) == Names(items) + [name];
  }

  lemma PutOrder(m: Loading, s: Station, name: string, w: real)
    ensures StationsOf(Put(m, s, name, w)) ==
      if s in StationsOf(m) then StationsOf(m) else StationsOf(m) + [s]
    ensures Names(ItemsAt(Put(m, s, name, w), s)) ==
      if name in Names(ItemsAt(m, s)) then Names(ItemsAt(m, s)) else Names(ItemsAt(m, s)) + [name]
    ensures forall t :: t != s ==> ItemsAt(Put(m, s, name, w), t) == ItemsAt(m, t)
  {
    var r := Put(m, s, name, w);
    SetItemOrder(ItemsAt(m, s), name, w);
    match FindStation(m, s)
    case Some(k) =>
      assert s in StationsOf(m);
      assert StationsOf(r) == StationsOf(m);
      assert FindStation(r, s) == Some(k);
      forall t | t != s ensures ItemsAt(r, t) == ItemsAt(m, t) {
        FindStationUnchanged(m, r, t, k);
      }
    case None =>
      assert s !in StationsOf(m);
      assert StationsOf(r) == StationsOf(m) + [s];
      FindStationFirst(r, s, |m|);
      forall t | t != s ensures ItemsAt(r, t) == ItemsAt(m, t) {
        FindStationUnchanged(m, r, t, |m|);
      }
  }

  /** Changing the entry at position k (or adding one there) for another station does not move `t`. */
  lemma FindStationUnchanged(m: Loading, r: Loading, t: Station, k: nat)
    requires k <= |m| && |r| == (if k < |m| then |m| else |m| + 1)
    requires forall j :: 0 <= j < |m| && j != k ==> r[j] == m[j]
    requires r[k].station != t && (k < |m| ==> m[k].station != t)
    ensures FindStation(r, t) == FindStation(m, t)
    ensures FindStation(m, t).Some? ==> r[FindStation(m, t).value] == m[FindStation(m, t).value]
  {
    match FindStation(m, t)
    case Some(j) =>
      assert FindStation(r, t) == Some(j) by {
        FindStationFirst(r, t, j);
      }
    case None =>
      assert forall j :: 0 <= j < |r| ==> r[j].station != t by {
        forall j | 0 <= j < |r| ensures r[j].station != t {
          if j != k { assert r[j] == m[j]; }
        }
      }
  }

  /** The first entry for a station is where FindStation points. */
  lemma FindStationFirst(m: Loading, s: Station, k: nat)
    requires k < |m| && m[k].station == s
    requires forall j :: 0 <= j < k ==> m[j].station != s
    ensures FindStation(m, s) == Some(k)
  {
    match FindStation(m, s)
    case Some(j) =>
      assert !(j < k) && !(k < j);
    case None =>
  }

  lemma FindNameFirst(items: seq<Item>, name: string, i: nat)
    requires i < |items| && items[i].name == name
    requires forall j :: 0 <= j < i ==> items[j].name != name
    ensures FindName(items, name) == Some(i)
  {
    match FindName(items, name)
    case Some(j) =>
      assert !(j < i) && !(i < j);
    case None =>
  }

  /** Dictionary semantics of an item assignment: the name now holds w, every other name is untouched. */
  lemma SetItemLookup(items: seq<Item>, name: string, w: real, other: string)
    ensures FindName(SetItem(items, name, w), name).Some?
    ensures SetItem(items, name, w)[FindName(SetItem(items, name, w), name).value].weightKg == w
    ensures other != name ==>
      match FindName(items, other)
      case None => FindName(SetItem(items, name, w), other).None?
      case Some(i) => FindName(SetItem(items, name, w), other) == Some(i) &&
                      SetItem(items, name, w)[i] == items[i]
  {
    var r := SetItem(items, name, w);
    match FindName(items, name) {
      case Some(i) =>
        FindNameFirst(r, name, i);
      case None =>
        FindNameFirst(r, name, |items|);
    }
    if other != name {
      match FindName(items, other)
      case None =>
      case Some(i) =>
        assert r[i] == items[i];
        FindNameFirst(r, other, i);
    }
  }

  /**
   * Dictionary semantics of `loading[s][name] = w`: that slot now holds w
   * and every other (station, name) slot holds what it held before.
   */
  lemma PutLookup(m: Loading, s: Station, name: string, w: real, t: Station, other: string)
    ensures Lookup(Put(m, s, name, w), t, other) ==
      if t == s && other == name then Some(w) else Lookup(m, t, other)
  {
    PutOrder(m, s, name, w);
    var r := Put(m, s, name, w);
    if t == s {
      assert ItemsAt(r, s) == SetItem(ItemsAt(m, s), name, w) by {
        match FindStation(m, s)
        case Some(k) =>
          FindStationFirst(r, s, k);
        case None =>
          FindStationFirst(r, s, |m|);
      }
      SetItemLookup(ItemsAt(m, s), name, w, other);
    }
  }

  /** A second assignment to the same slot replaces the first: `fuel` twice keeps one entry. */
  lemma PutTwice(m: Loading, s: Station, name: string, a: real, b: real)
    ensures Put(Put(m, s, name, a), s, name, b) == Put(m, s, name, b)
  {
    var r := Put(m, s, name, a);
    match FindStation(m, s)
    case Some(k) =>
      FindStationFirst(r, s, k);
      SetItemTwice(m[k].items, name, a, b);
    case None =>
      FindStationFirst(r, s, |m|);
      FindNameFirst([Item(name, a)], name, 0);
      assert SetItem([Item(name, a)], name, b) == [Item(name, b)];
      assert r[|m| := StationLoad(s, [Item(name, b)])] == m + [StationLoad(s, [Item(name, b)])];
  }

  lemma SetItemTwice(items: seq<Item>, name: string, a: real, b: real)
    ensures SetItem(SetItem(items, name, a), name, b) == SetItem(items, name, b)
  {
    var r := SetItem(items, name, a);
    match FindName(items, name)
    case Some(i) =>
      FindNameFirst(r, name, i);
    case None =>
      FindNameFirst(r, name, |items|);
  }
}
