/**
 * The power-supply property values the two battery drivers exchange with
 * their chargers: the charger mode written through CHARGING_ENABLED.
 */
module PowerSupply {
  /** `SEC_BAT_CHG_MODE_*`: charging, charging stopped with the buck on, or the buck off too. */
  datatype ChgMode = Charging | ChargingOff | BuckOff
}
