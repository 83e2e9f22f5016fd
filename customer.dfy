/** The raw customer inputs that the scoring block reads from its six
    number widgets (ml_app1.py:54-88). */
module Customer {

  /** A monetary amount or a usage figure: a float widget with `min_value=0.0`. */
  type Amount = x: real | 0.0 <= x

  /** The six inputs, in the order the feature vector lists them. The integer
      widgets have `min_value=0`, so those fields are natural numbers. */
  datatype Features = Features(
    monthlyRevenue: Amount,
    totalRevenue: Amount,
    tenureMonths: nat,
    avgMonthlyUsage: Amount,
    supportTickets: nat,
    lastActiveDays: nat)

  /** The vector that the "Use Sample Data" button fills the form with. */
  const Sample: Features := Features(2350.50, 18890.0, 26, 15.4, 1, 10)
}
