/**
 * The simplified EC2 on-demand price list that both AWS handlers carry: the
 * right-sizing engine's `hourly_rates` and the auto-shutdown engine's `rates`
 * are the same five entries with the same 0.05 USD fallback, so the table is
 * stated once here.
 */
module AwsPricing {

  /** Hourly USD rate of the five listed instance types. */
  const HourlyRates: map<string, real> := map[
    "t3.micro" := 0.0104,
    "t3.small" := 0.0208,
    "t3.medium" := 0.0416,
    "m5.large" := 0.096,
    "m5.xlarge" := 0.192
  ]

  /** Rate used for every instance type the table does not list. */
  const DefaultHourlyRate: real := 0.05

  /** Hours in the 30-day month used for every monthly estimate. */
  const HoursPerMonth: real := 720.0

  /** `rates.get(instance_type, 0.05)`. */
  function HourlyRate(instanceType: string): (rate: real)
    ensures 0.0104 <= rate <= 0.192
  {
    if instanceType in HourlyRates then HourlyRates[instanceType] else DefaultHourlyRate
  }

  /** The table lists exactly five types; every other type is priced at the fallback rate. */
  lemma RateTableShape()
    ensures HourlyRates.Keys == {"t3.micro", "t3.small", "t3.medium", "m5.large", "m5.xlarge"}
    ensures HourlyRate("t3.micro") == 0.0104 && HourlyRate("t3.small") == 0.0208 &&
            HourlyRate("t3.medium") == 0.0416 && HourlyRate("m5.large") == 0.096 &&
            HourlyRate("m5.xlarge") == 0.192
    ensures forall t :: t !in HourlyRates ==> HourlyRate(t) == DefaultHourlyRate
  {
  }
}
