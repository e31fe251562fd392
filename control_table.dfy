/** Constants of the control script: the ROBOTIS X-series control-table addresses it
    writes and reads over DYNAMIXEL Protocol 2.0, the register values it uses, the motor
    identifiers, and the position limits and profile targets. */
module ControlTable {

  // Control-table addresses.
  const ADDR_TORQUE_ENABLE: int := 64
  const ADDR_GOAL_POSITION: int := 116
  const ADDR_OPERATING_MODE: int := 11
  const ADDR_PRESENT_POSITION: int := 132
  const ADDR_PROFILE_VELOCITY: int := 112
  const ADDR_PROFILE_ACCELERATION: int := 108

  // Register values.
  const TORQUE_ENABLE: int := 1
  const TORQUE_DISABLE: int := 0
  const EXTENDED_POSITION_CONTROL_MODE: int := 4

  // The SDK's "transaction succeeded" communication result.
  const COMM_SUCCESS: int := 0

  // Motor identifiers on the bus.
  const DXL_ID_LEFT: int := 1
  const DXL_ID_RIGHT: int := 2
  const DXL_ID_LARGER: int := 0

  // Position limits, joystick step and motion-profile targets.
  const MIN_POSITION: int := -1_000_000
  const MAX_POSITION: int := 1_000_000
  const POSITION_INCREMENT: int := 100
  const V_TARGET: int := 1000
  const A_TARGET: int := 100
}
