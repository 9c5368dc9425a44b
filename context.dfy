/**
 * The ambient state a normalizer reads from the cloud object it is mixed
 * into. Its accessors are defined outside shade/_normalize.py, so they are
 * given here as values.
 */
module Ambient {
  import opened Values

  datatype Context = Context(
    strictMode: bool,                  // `self.strict_mode`
    currentLocation: Value,            // `self.current_location`
    locationOf: (Value, Value) -> Value, // `self._get_current_location(project_id, zone)`
    regionName: Value,                 // `self.region_name`
    cloudName: Value,                  // `self.name`
    neutronFloating: bool)             // `self._use_neutron_floating()`
}
