/**
 * The canonical value every decoder produces: a version, an uptime and one
 * entry per hashing algorithm, each with share counts and total and per-GPU
 * rates. Go's float64 fields are modelled as `real`.
 */
module MinerMetrics {
  import opened Wrappers

  datatype Shares = Shares(accepted: real, rejected: real, stale: real)

  datatype Rates = Rates(total: real, byGpu: seq<real>)

  datatype Algorithm = Algorithm(name: string, shares: Shares, rates: Rates)

  datatype Metrics = Metrics(version: string, uptime: real, algorithms: seq<Algorithm>)

  /**
   * `strconv.ParseFloat(s, 64)`, left abstract: it yields a number or fails.
   * Like Go's, it rejects the empty string, which is what a lookup of a
   * missing key in a Go map of strings yields.
   */
  type FloatParser = p: string -> Option<real> | p("") == None
    witness (s: string) => None

  /** `f, _ := strconv.ParseFloat(s, 64)`: a failed parse leaves 0. */
  function OrZero(parse: FloatParser, s: string): real
  {
    match parse(s)
    case Some(f) => f
    case None => 0.0
  }

  /** The running sum `total = total + rate`, taken left to right. */
  function Sum(s: seq<real>): real
  {
    if s == [] then 0.0 else Sum(s[..|s| - 1]) + s[|s| - 1]
  }

  /** The sum distributes over concatenation. */
  lemma {:induction false} SumAppend(a: seq<real>, b: seq<real>)
    ensures Sum(a + b) == Sum(a) + Sum(b)
  {
    if b != [] {
      assert (a + b)[..|a + b| - 1] == a + b[..|b| - 1];
      SumAppend(a, b[..|b| - 1]);
    } else {
      assert a + b == a;
    }
  }
}
