/** Default configuration of the tracker and the serial controller (config.py). */
module Config {

  // Colour range the tracker starts with (hue, saturation, value).
  const HueLow: int := 165
  const HueHigh: int := 179
  const SatLow: int := 99
  const SatHigh: int := 255
  const ValLow: int := 82
  const ValHigh: int := 255

  // Noise filter parameters; the filter itself is not modelled.
  const FilterKernelSize: int := 7
  const ClearIterations: int := 5
  const FillIterations: int := 10

  // Serial link.
  const BaudRate: int := 9600
  const ComPeriod: real := 0.2
  const Speed: real := 0.012
  const XInv: bool := true
  const YInv: bool := true

  // Auto-calibration margins and sample box size.
  const HueAllowance: int := 4
  const SatAllowance: int := 30
  const ValAllowance: int := 50
  const BoxSize: int := 30

  // Upper ends of the hue and saturation/value channel domains.
  const HueMax: int := 179
  const SatValMax: int := 255
}
