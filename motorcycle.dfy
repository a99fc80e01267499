/** The motorcycle profile (ui/react-headunit/src/simulation/vehicles/Motorcycle.ts). */
module MotorcycleProfile {
  import Vehicle

  const Motorcycle: Vehicle.Vehicle := Vehicle.Vehicle(
    vtype := Vehicle.Motorcycle,
    name := "Sport Bike",
    maxSpeed := 140.0,
    avgSpeed := 110.0,
    acceleration := 25.0,
    breakProbability := 0.03,
    breakDuration := 3.0,
    icon := "🏍️",
    color := "#22c55e")

  /** Tagged 'motorcycle', cruises at or below its top speed, breaks with a
      probability in [0, 1] and for a positive number of minutes. */
  lemma MotorcycleIsPlausible()
    ensures Vehicle.TypeTag(Motorcycle.vtype) == "motorcycle"
    ensures Vehicle.PlausibleProfile(Motorcycle)
  {
  }
}
