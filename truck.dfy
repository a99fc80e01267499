/** The truck profile (ui/react-headunit/src/simulation/vehicles/Truck.ts). */
module TruckProfile {
  import Vehicle

  const Truck: Vehicle.Vehicle := Vehicle.Vehicle(
    vtype := Vehicle.Truck,
    name := "Semi Truck",
    maxSpeed := 90.0,
    avgSpeed := 70.0,
    acceleration := 8.0,
    breakProbability := 0.15,
    breakDuration := 15.0,
    icon := "🚛",
    color := "#f59e0b")

  /** Tagged 'truck', cruises at or below its top speed, breaks with a
      probability in [0, 1] and for a positive number of minutes. */
  lemma TruckIsPlausible()
    ensures Vehicle.TypeTag(Truck.vtype) == "truck"
    ensures Vehicle.PlausibleProfile(Truck)
  {
  }
}
