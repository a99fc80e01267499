/** The vehicle registry (ui/react-headunit/src/simulation/VehicleFactory.ts). */
module VehicleFactory {
  import opened Wrappers
  import opened Vehicle
  import opened Geo
  import CarProfile
  import TruckProfile
  import MotorcycleProfile

  datatype FactoryError = UnknownVehicleType(key: string)

  /** The entry of the static table for each category. */
  function Template(t: VehicleType): (v: Vehicle)
    ensures v.vtype == t && PlausibleProfile(v)
  {
    CarProfile.CarIsPlausible();
    TruckProfile.TruckIsPlausible();
    MotorcycleProfile.MotorcycleIsPlausible();
    match t
    case Car => CarProfile.Car
    case Truck => TruckProfile.Truck
    case Motorcycle => MotorcycleProfile.Motorcycle
  }

  /**
   * `create`: looks the key up in the table. A hit yields the table's
   * profile (a value, so no holder can alter the template); a miss is the
   * "Unknown vehicle type" error and yields no vehicle.
   */
  function Create(key: string): (r: Result<Vehicle, FactoryError>)
    ensures r.Success? <==> key in GetAvailableTypes()
    ensures r.Success? ==> TypeTag(r.value.vtype) == key && r.value == Template(r.value.vtype)
    ensures r.Failure? ==> r.error == UnknownVehicleType(key)
  {
    match ParseTypeTag(key)
    case Some(t) => Success(Template(t))
    case None => Failure(UnknownVehicleType(key))
  }

  /** `getAvailableTypes`: the table's keys in declaration order. */
  function GetAvailableTypes(): (r: seq<string>)
    ensures |r| == 3
    ensures forall i, j :: 0 <= i < j < |r| ==> r[i] != r[j]
    ensures forall k :: k in r <==> ParseTypeTag(k).Some?
  {
    [TypeTag(Car), TypeTag(Truck), TypeTag(Motorcycle)]
  }

  /** `getAllVehicles`: the table's values, in the order of its keys. */
  function GetAllVehicles(): (r: seq<Vehicle>)
    ensures |r| == |GetAvailableTypes()|
    ensures forall i :: 0 <= i < |r| ==> Create(GetAvailableTypes()[i]) == Success(r[i])
  {
    [Template(Car), Template(Truck), Template(Motorcycle)]
  }

  /** JavaScript's Math.round: the nearest integer, halves rounded up. */
  function Round(x: real): (n: int)
    ensures x - 0.5 < n as real <= x + 0.5
  {
    (x + 0.5).Floor
  }

  /** Expected break minutes: one rest stop per full 100 km, scaled by the
      profile's break probability and duration. */
  function ExpectedBreakMinutes(distanceKm: real, v: Vehicle): real
  {
    (distanceKm / 100.0).Floor as real * v.breakProbability * v.breakDuration
  }

  /** `calculateETA`, in whole minutes: travel time at the average speed
      plus the expected break time, rounded to the nearest minute. */
  function CalculateETA(distanceKm: real, v: Vehicle): (n: int)
    requires v.avgSpeed != 0.0
    ensures var minutes := distanceKm / v.avgSpeed * 60.0 + ExpectedBreakMinutes(distanceKm, v);
      minutes - 0.5 < n as real <= minutes + 0.5
  {
    Round(distanceKm / v.avgSpeed * 60.0 + ExpectedBreakMinutes(distanceKm, v))
  }

  /** Trips shorter than 100 km carry no break time; a zero-length trip takes 0 minutes. */
  lemma ShortTripHasNoBreakTime(distanceKm: real, v: Vehicle)
    requires v.avgSpeed != 0.0
    requires 0.0 <= distanceKm < 100.0
    ensures ExpectedBreakMinutes(distanceKm, v) == 0.0
    ensures CalculateETA(distanceKm, v) == Round(distanceKm / v.avgSpeed * 60.0)
    ensures CalculateETA(0.0, v) == 0
  {
    assert (distanceKm / 100.0).Floor == 0;
    assert (0.0 / v.avgSpeed) == 0.0;
  }

  lemma RoundMonotone(x: real, y: real)
    requires x <= y
    ensures Round(x) <= Round(y)
  {
  }

  lemma TravelTimeMonotone(d1: real, d2: real, speed: real)
    requires d1 <= d2 && speed > 0.0
    ensures d1 / speed * 60.0 <= d2 / speed * 60.0
  {
    assert d1 / speed <= d2 / speed by { ScaleMonotone(d1, d2, 1.0 / speed); }
  }

  lemma BreakTimeMonotone(d1: real, d2: real, v: Vehicle)
    requires d1 <= d2 && v.breakProbability >= 0.0 && v.breakDuration >= 0.0
    ensures ExpectedBreakMinutes(d1, v) <= ExpectedBreakMinutes(d2, v)
  {
    var k1, k2 := (d1 / 100.0).Floor as real, (d2 / 100.0).Floor as real;
    assert k1 <= k2;
    var c := v.breakProbability * v.breakDuration;
    assert c >= 0.0;
    ScaleMonotone(k1, k2, c);
    assert k1 * v.breakProbability * v.breakDuration == k1 * c;
    assert k2 * v.breakProbability * v.breakDuration == k2 * c;
  }

  /** For a profile with a positive average speed and non-negative break
      fields, a longer trip never gets a shorter estimate. */
  lemma CalculateETAMonotone(d1: real, d2: real, v: Vehicle)
    requires v.avgSpeed > 0.0 && v.breakProbability >= 0.0 && v.breakDuration >= 0.0
    requires d1 <= d2
    ensures CalculateETA(d1, v) <= CalculateETA(d2, v)
  {
    TravelTimeMonotone(d1, d2, v.avgSpeed);
    BreakTimeMonotone(d1, d2, v);
    RoundMonotone(d1 / v.avgSpeed * 60.0 + ExpectedBreakMinutes(d1, v),
                  d2 / v.avgSpeed * 60.0 + ExpectedBreakMinutes(d2, v));
  }
}
