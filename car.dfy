/** The car profile (ui/react-headunit/src/simulation/vehicles/Car.ts). */
module CarProfile {
  import Vehicle

  const Car: Vehicle.Vehicle := Vehicle.Vehicle(
    vtype := Vehicle.Car,
    name := "Sedan",
    maxSpeed := 120.0,
    avgSpeed := 95.0,
    acceleration := 15.0,
    breakProbability := 0.05,
    breakDuration := 5.0,
    icon := "🚗",
    color := "#3b82f6")

  /** Tagged 'car', cruises at or below its top speed, breaks with a
      probability in [0, 1] and for a positive number of minutes. */
  lemma CarIsPlausible()
    ensures Vehicle.TypeTag(Car.vtype) == "car"
    ensures Vehicle.PlausibleProfile(Car)
  {
  }
}
