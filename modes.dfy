/**
 * The four simulation modes, the names the mode drop-down stores in
 * `mainOptions.currentMode`, and how `setup` dispatches on such a name.
 */
module Modes {

  const SolarSystemName: string := "Solar System"
  const ThreeBodyName: string := "3-body Problem"
  const GalaxyName: string := "Galaxy (n-body)"
  const CustomName: string := "Custom"

  datatype Mode = SolarSystem | ThreeBody | Galaxy | Custom

  function Name(m: Mode): string {
    match m
    case SolarSystem => SolarSystemName
    case ThreeBody => ThreeBodyName
    case Galaxy => GalaxyName
    case Custom => CustomName
  }

  /** The choices the mode drop-down offers. */
  predicate IsModeName(s: string) {
    s == SolarSystemName || s == ThreeBodyName || s == GalaxyName || s == CustomName
  }

  /**
   * The case of `setup`'s switch that runs for a mode name: a known name
   * selects its own mode, and anything else falls back to the solar system.
   */
  function Dispatch(mode: string): (m: Mode)
    ensures forall k :: mode == Name(k) ==> m == k
    ensures !IsModeName(mode) ==> m == SolarSystem
    ensures m != SolarSystem ==> mode == Name(m)
  {
    if mode == ThreeBodyName then ThreeBody
    else if mode == GalaxyName then Galaxy
    else if mode == CustomName then Custom
    else SolarSystem
  }

  /** The `mainOptions.div` divisor each setup installs. */
  function Divisor(m: Mode): int {
    if m == ThreeBody then 3 else 1
  }

  /** How many bodies each setup adds; the galaxy adds `starCount` of them. */
  function BodyCount(m: Mode, starCount: nat): nat {
    match m
    case SolarSystem => 9
    case ThreeBody => 3
    case Galaxy => starCount
    case Custom => 0
  }
}
