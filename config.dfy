/**
 * Fixed values shared by both variants of the bridge: the CONFIG dictionary of the
 * refactored script, the literals of the original one, and the four meter topics.
 */
module Config {

  /** Energy counter reading (kWh) at the day the bridge was installed. */
  const InitialEnergyOffset: int := 73311

  /** Vendor units (0.1 Wh) per kWh. */
  const RawUnitsPerKWh: int := 10000

  /** Seed of the raw cumulative energy counter: the offset in vendor units. */
  const InitialEnergyTotal: real := (InitialEnergyOffset * RawUnitsPerKWh) as real

  /** Reconnect back-off: first delay, ceiling, growth factor (seconds). */
  const InitialReconnectDelay: real := 5.0
  const MaxReconnectDelay: real := 300.0
  const ReconnectGrowth: real := 1.5

  /** Nominal phase voltage used to derive phase currents. */
  const NominalVoltage: int := 230

  /** Fixed share of the total energy attributed to each phase. */
  const ShareL1: real := 0.576
  const ShareL2: real := 0.212
  const ShareL3: real := 0.212

  /** The revision counter wraps modulo this. */
  const IndexModulus: int := 256

  /** The four topics the meter publishes under the subscribed prefix. */
  const PowerTopic: string := "ehzmeter/pvpower"
  const TodayTopic: string := "ehzmeter/pvtoday"
  const TotalTopic: string := "ehzmeter/pvtotal"
  const PhasesTopic: string := "ehzmeter/pvpwrl123"

  predicate IsKnownTopic(topic: string) {
    topic == PowerTopic || topic == TodayTopic || topic == TotalTopic || topic == PhasesTopic
  }
}
