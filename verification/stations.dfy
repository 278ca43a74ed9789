/**
 * The loading stations of the Cessna 172S and their arms, taken from the
 * pilot's operating handbook in inches and converted to centimetres.
 */
module Stations {
  import opened Text

  datatype Station = FrontSeats | BackSeats | FrontBaggage | BackBaggage | Fuel

  const IN_TO_CM: real := 2.54

  /** The smallest and largest arm of the table, in centimetres. */
  const MIN_ARM: real := 37.0 * IN_TO_CM
  const MAX_ARM: real := 123.0 * IN_TO_CM

  /** The string key under which the calculator files a station. */
  function Key(s: Station): (r: string)
    ensures |r| > 0 && r[0] != '_'
  {
    match s
    case FrontSeats => "front_seats"
    case BackSeats => "back_seats"
    case FrontBaggage => "front_baggage"
    case BackBaggage => "back_baggage"
    case Fuel => "fuel"
  }

  /** The arm table, one entry per station; every arm lies in [MIN_ARM, MAX_ARM]. */
  function Arm(s: Station): (r: real)
    ensures MIN_ARM <= r <= MAX_ARM
    ensures r == MIN_ARM <==> s == FrontSeats
    ensures r == MAX_ARM <==> s == BackBaggage
  {
    match s
    case FrontSeats => 37.0 * IN_TO_CM
    case BackSeats => 73.0 * IN_TO_CM
    case FrontBaggage => 95.0 * IN_TO_CM
    case BackBaggage => 123.0 * IN_TO_CM
    case Fuel => 48.0 * IN_TO_CM
  }

  /** The order in which the arm table lists its stations. */
  const ArmOrder: seq<Station> := [FrontSeats, BackSeats, FrontBaggage, BackBaggage, Fuel]

  /** The label a station gets in the report. */
  function Heading(s: Station): string {
    SanitizeStation(Key(s))
  }

  /** The five labels the report prints. */
  lemma HeadingLabels()
    ensures Heading(FrontSeats) == "Front seats"
    ensures Heading(BackSeats) == "Back seats"
    ensures Heading(FrontBaggage) == "Front baggage"
    ensures Heading(BackBaggage) == "Back baggage"
    ensures Heading(Fuel) == "Fuel"
  {
    HeadingFrontSeats();
    HeadingBackSeats();
    HeadingFrontBaggage();
    HeadingBackBaggage();
    HeadingFuel();
  }

  lemma HeadingFrontSeats() ensures Heading(FrontSeats) == "Front seats" { HeadingIs(FrontSeats, "Front seats"); }
  lemma HeadingBackSeats() ensures Heading(BackSeats) == "Back seats" { HeadingIs(BackSeats, "Back seats"); }
  lemma HeadingFrontBaggage() ensures Heading(FrontBaggage) == "Front baggage" { HeadingIs(FrontBaggage, "Front baggage"); }
  lemma HeadingBackBaggage() ensures Heading(BackBaggage) == "Back baggage" { HeadingIs(BackBaggage, "Back baggage"); }
  lemma HeadingFuel() ensures Heading(Fuel) == "Fuel" { HeadingIs(Fuel, "Fuel"); }

  /** A label is the heading when it is the key capitalised, underscores read as spaces. */
  lemma HeadingIs(s: Station, shown: string)
    requires |shown| == |Key(s)|
    requires forall i :: 0 <= i < |shown| ==>
      shown[i] == (if i == 0 then ToUpper(Key(s)[0])
                   else ToLower(if Key(s)[i] == '_' then ' ' else Key(s)[i]))
    ensures Heading(s) == shown
  {
    var h := Heading(s);
    assert forall i :: 0 <= i < |shown| ==> h[i] == shown[i];
  }

  /** Distinct stations get distinct labels, so no two blocks of the table share a heading. */
  lemma HeadingInjective(s: Station, t: Station)
    requires s != t
    ensures Heading(s) != Heading(t)
  {
    HeadingLabels();
  }
}
