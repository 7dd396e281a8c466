/** The ten city names every table of the application is keyed by: the
    city list, the highway network and the mock weather service. */
module CityNames {
  const Mumbai: string := "Mumbai"
  const Pune: string := "Pune"
  const Delhi: string := "Delhi"
  const Bangalore: string := "Bangalore"
  const Chennai: string := "Chennai"
  const Hyderabad: string := "Hyderabad"
  const Kolkata: string := "Kolkata"
  const Ahmedabad: string := "Ahmedabad"
  const Aurangabad: string := "Aurangabad"
  const Nashik: string := "Nashik"
}
