/**
 * The dstm JSON decoder: one `getstat` reply, already decoded into its
 * record, is folded into a single equihash algorithm.
 */
module DSTM {
  import opened Wrappers
  import opened MinerMetrics

  /** The collector's identifier, `Name()`. */
  const Name: string := "dstm"

  /** One element of the reply's `result` array: the fields the decoder reads. */
  datatype GpuStat = GpuStat(solPerSecond: real, acceptedShares: int, rejectedShares: int)

  /** The `getstat` reply: the fields the decoder reads. */
  datatype GetStat = GetStat(uptime: int, version: string, result: seq<GpuStat>)

  /** The per-GPU rates, in array order. */
  function SolRates(rs: seq<GpuStat>): (r: seq<real>)
    ensures |r| == |rs|
    ensures forall i :: 0 <= i < |rs| ==> r[i] == rs[i].solPerSecond
  {
    if rs == [] then [] else SolRates(rs[..|rs| - 1]) + [rs[|rs| - 1].solPerSecond]
  }

  /** Accepted shares summed over all GPUs. */
  function AcceptedTotal(rs: seq<GpuStat>): int
  {
    if rs == [] then 0 else AcceptedTotal(rs[..|rs| - 1]) + rs[|rs| - 1].acceptedShares
  }

  /** Rejected shares summed over all GPUs. */
  function RejectedTotal(rs: seq<GpuStat>): int
  {
    if rs == [] then 0 else RejectedTotal(rs[..|rs| - 1]) + rs[|rs| - 1].rejectedShares
  }

  /** `DSTMClient.Collect`, with `GetStat()`'s reply or error as input. */
  method Collect(stat: Result<GetStat>) returns (r: Result<Metrics>)
    ensures stat.Failure? <==> r.Failure?
    ensures stat.Failure? ==> r.error == stat.error
    ensures stat.Success? ==>
      var rs := stat.value.result;
      && r.Success?
      && r.value.version == stat.value.version
      && r.value.uptime == stat.value.uptime as real
      && |r.value.algorithms| == 1
      && r.value.algorithms[0].name == "equihash"
      && r.value.algorithms[0].shares == Shares(AcceptedTotal(rs) as real, RejectedTotal(rs) as real, 0.0)
      && r.value.algorithms[0].rates.byGpu == SolRates(rs)
      && r.value.algorithms[0].rates.total == Sum(SolRates(rs))
    ensures stat.Success? && stat.value.result == [] ==>
      r.value.algorithms[0].rates == Rates(0.0, [])
  {
    if stat.Failure? {
      return Failure(stat.error);
    }
    var stats := stat.value;

    var byGpu: seq<real> := [];
    var accepted := 0;
    var rejected := 0;
    var total := 0.0;
    for i := 0 to |stats.result|
      invariant byGpu == SolRates(stats.result[..i])
      invariant total == Sum(byGpu)
      invariant accepted == AcceptedTotal(stats.result[..i])
      invariant rejected == RejectedTotal(stats.result[..i])
    {
      var gpu := stats.result[i];
      var rate := gpu.solPerSecond;
      assert stats.result[..i + 1][..i] == stats.result[..i];
      assert (byGpu + [rate])[..i] == byGpu;
      byGpu := byGpu + [rate];
      total := total + rate;
      accepted := accepted + gpu.acceptedShares;
      rejected := rejected + gpu.rejectedShares;
    }
    assert stats.result[..|stats.result|] == stats.result;

    r := Success(Metrics(stats.version, stats.uptime as real,
      [Algorithm("equihash", Shares(accepted as real, rejected as real, 0.0), Rates(total, byGpu))]));
  }

  /** The reply of the repository's test: six GPUs, 15 accepted and 5 rejected shares. */
  lemma SampleTotals()
    ensures var rs := [GpuStat(422.49, 1, 1), GpuStat(427.96, 0, 0), GpuStat(431.08, 2, 1),
                       GpuStat(424.16, 5, 0), GpuStat(421.73, 3, 2), GpuStat(416.42, 4, 1)];
      && SolRates(rs) == [422.49, 427.96, 431.08, 424.16, 421.73, 416.42]
      && Sum(SolRates(rs)) == 2543.84
      && AcceptedTotal(rs) == 15 && RejectedTotal(rs) == 5
  {
    var rs := [GpuStat(422.49, 1, 1), GpuStat(427.96, 0, 0), GpuStat(431.08, 2, 1),
               GpuStat(424.16, 5, 0), GpuStat(421.73, 3, 2), GpuStat(416.42, 4, 1)];
    var rates := SolRates(rs);
    forall k | 0 <= k < 6
      ensures rs[..k + 1][..k] == rs[..k] && rates[..k + 1][..k] == rates[..k]
    {
    }
    assert rs[..6] == rs && rates[..6] == rates;
    assert Sum(rates[..1]) == 422.49;
    assert Sum(rates[..2]) == 422.49 + 427.96;
    assert Sum(rates[..3]) == 422.49 + 427.96 + 431.08;
    assert Sum(rates[..4]) == 422.49 + 427.96 + 431.08 + 424.16;
    assert Sum(rates[..5]) == 422.49 + 427.96 + 431.08 + 424.16 + 421.73;
    assert AcceptedTotal(rs[..1]) == 1 && RejectedTotal(rs[..1]) == 1;
    assert AcceptedTotal(rs[..2]) == 1 && RejectedTotal(rs[..2]) == 1;
    assert AcceptedTotal(rs[..3]) == 3 && RejectedTotal(rs[..3]) == 2;
    assert AcceptedTotal(rs[..4]) == 8 && RejectedTotal(rs[..4]) == 2;
    assert AcceptedTotal(rs[..5]) == 11 && RejectedTotal(rs[..5]) == 4;
  }

  /**
   * The totals are additive over the GPUs: the rates, the rate sum and both
   * share counts of a concatenation are those of its parts combined.
   */
  lemma {:induction false} TotalsAppend(a: seq<GpuStat>, b: seq<GpuStat>)
    ensures SolRates(a + b) == SolRates(a) + SolRates(b)
    ensures Sum(SolRates(a + b)) == Sum(SolRates(a)) + Sum(SolRates(b))
    ensures AcceptedTotal(a + b) == AcceptedTotal(a) + AcceptedTotal(b)
    ensures RejectedTotal(a + b) == RejectedTotal(a) + RejectedTotal(b)
  {
    if b == [] {
      assert a + b == a;
    } else {
      var b' := b[..|b| - 1];
      assert (a + b)[..|a + b| - 1] == a + b';
      TotalsAppend(a, b');
    }
    SumAppend(SolRates(a), SolRates(b));
  }
}
