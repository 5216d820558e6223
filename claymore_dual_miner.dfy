/**
 * The Claymore dual-miner positional decoder: the `miner_getstat1` reply is
 * an array of strings whose meaning is fixed by position, several of them
 * `;`-separated lists of numbers.
 */
module ClaymoreDualMiner {
  import opened Wrappers
  import opened GoStrings
  import opened MinerMetrics

  /** The collector's identifier, `Name()`. */
  const Name: string := "ClaymoreDualMiner"

  /** The two algorithms a dual-mining session reports, in reply order. */
  const FirstAlgorithm: string := "daggerhashimoto"
  const SecondAlgorithm: string := "decred"

  /** The number of each string, 0 where it does not parse, in order. */
  function Floats(parse: FloatParser, input: seq<string>): (r: seq<real>)
    ensures |r| == |input|
    ensures forall k :: 0 <= k < |input| ==> r[k] == OrZero(parse, input[k])
  {
    if input == [] then [] else [OrZero(parse, input[0])] + Floats(parse, input[1..])
  }

  /** `toFloat`: parses each string in turn, appending its number or 0. */
  method ToFloat(parse: FloatParser, input: seq<string>) returns (r: seq<real>)
    ensures r == Floats(parse, input)
  {
    r := [];
    for i := 0 to |input|
      invariant |r| == i
      invariant forall k :: 0 <= k < i ==> r[k] == OrZero(parse, input[k])
    {
      var f := OrZero(parse, input[i]);
      r := r + [f];
    }
  }

  /** `parseGarble`: one number per `;`-field, so never empty. */
  function ParseGarble(parse: FloatParser, input: string): (r: seq<real>)
    ensures |r| == Count(input, ';') + 1
    ensures forall k :: 0 <= k < |r| ==> r[k] == OrZero(parse, Split(input, ';')[k])
  {
    Floats(parse, Split(input, ';'))
  }

  /** The even-indexed and the odd-indexed elements of `s`, a trailing odd element dropped. */
  function Halves(s: seq<string>): (r: (seq<string>, seq<string>))
    ensures |r.0| == |r.1| == |s| / 2
    decreases |s|
  {
    if |s| <= 1 then ([], [])
    else
      var t := Halves(s[2..]);
      ([s[0]] + t.0, [s[1]] + t.1)
  }

  /** Element k of the halves is element 2k, respectively 2k + 1, of `s`. */
  lemma {:induction false} HalvesAt(s: seq<string>, k: nat)
    requires k < |s| / 2
    ensures Halves(s).0[k] == s[2 * k] && Halves(s).1[k] == s[2 * k + 1]
    decreases |s|
  {
    if k > 0 {
      HalvesAt(s[2..], k - 1);
    }
  }

  /** `unzip`: takes the input two elements at a time while more than one remains. */
  method Unzip(input: seq<string>) returns (a: seq<string>, b: seq<string>)
    ensures (a, b) == Halves(input)
  {
    var i := input;
    a, b := [], [];
    while |i| > 1
      invariant a + Halves(i).0 == Halves(input).0
      invariant b + Halves(i).1 == Halves(input).1
    {
      var rest := Halves(i[2..]);
      assert Halves(i) == ([i[0]] + rest.0, [i[1]] + rest.1);
      assert a + ([i[0]] + rest.0) == (a + [i[0]]) + rest.0;
      assert b + ([i[1]] + rest.1) == (b + [i[1]]) + rest.1;
      a := a + [i[0]];
      b := b + [i[1]];
      i := i[2..];
    }
    assert Halves(i) == ([], []);
    assert a + [] == a && b + [] == b;
  }

  /**
   * `parseZippedGarble`: the numbers of the even-indexed and of the
   * odd-indexed `;`-fields, of equal length.
   */
  function ParseZippedGarble(parse: FloatParser, input: string): (r: (seq<real>, seq<real>))
    ensures |r.0| == |r.1| == (Count(input, ';') + 1) / 2
    ensures forall k :: 0 <= k < |r.0| ==>
      && r.0[k] == OrZero(parse, Split(input, ';')[2 * k])
      && r.1[k] == OrZero(parse, Split(input, ';')[2 * k + 1])
  {
    var fields := Split(input, ';');
    var h := Halves(fields);
    var r := (Floats(parse, h.0), Floats(parse, h.1));
    assert forall k :: 0 <= k < |r.0| ==> h.0[k] == fields[2 * k] && h.1[k] == fields[2 * k + 1] by {
      forall k | 0 <= k < |r.0| ensures h.0[k] == fields[2 * k] && h.1[k] == fields[2 * k + 1] {
        HalvesAt(fields, k);
      }
    }
    r
  }

  /**
   * The replies `parse` can index without a run-time panic: six elements, and
   * at least three `;`-fields in elements 2 and 4.
   */
  predicate WellFormed(reply: seq<string>)
  {
    |reply| >= 6 && Count(reply[2], ';') >= 2 && Count(reply[4], ';') >= 2
  }

  /**
   * One algorithm read from a `total;accepted;rejected;...` summary field and
   * a `;`-list of per-GPU rates; no stale count is reported.
   */
  predicate Reads(parse: FloatParser, alg: Algorithm, name: string, summary: string, rates: string)
    requires Count(summary, ';') >= 2
  {
    var fields := Split(summary, ';');
    && alg.name == name
    && alg.rates.total == OrZero(parse, fields[0])
    && alg.shares == Shares(OrZero(parse, fields[1]), OrZero(parse, fields[2]), 0.0)
    && |alg.rates.byGpu| == Count(rates, ';') + 1
    && forall k :: 0 <= k < |alg.rates.byGpu| ==>
         alg.rates.byGpu[k] == OrZero(parse, Split(rates, ';')[k])
  }

  /**
   * `parse`: version from element 0, uptime from the first field of element
   * 1 in minutes, then always two algorithms, from elements 2 and 3 and from
   * elements 4 and 5.
   */
  function Parse(parse: FloatParser, reply: seq<string>): (m: Metrics)
    requires WellFormed(reply)
    ensures m.version == reply[0]
    ensures m.uptime == OrZero(parse, Split(reply[1], ';')[0]) * 60.0
    ensures |m.algorithms| == 2
    ensures Reads(parse, m.algorithms[0], FirstAlgorithm, reply[2], reply[3])
    ensures Reads(parse, m.algorithms[1], SecondAlgorithm, reply[4], reply[5])
  {
    var version := reply[0];
    var uptime := ParseGarble(parse, reply[1])[0] * 60.0;
    var eth := ParseGarble(parse, reply[2]);
    var ethRates := ParseGarble(parse, reply[3]);
    var alt := ParseGarble(parse, reply[4]);
    var altRates := ParseGarble(parse, reply[5]);
    Metrics(version, uptime, [
      Algorithm(FirstAlgorithm, Shares(eth[1], eth[2], 0.0), Rates(eth[0], ethRates)),
      Algorithm(SecondAlgorithm, Shares(alt[1], alt[2], 0.0), Rates(alt[0], altRates))
    ])
  }

  /** What one poll ends in: metrics, an error, or a run-time panic. */
  datatype Poll = Collected(metrics: Metrics) | Failed(error: string) | Panicked

  /**
   * `ClaymoreDualMinerClient.Collect` as written: `dial` is the outcome of
   * connecting, `call` that of the `miner_getstat1` request. A reply too
   * short for `parse` makes it index out of range.
   */
  function Collect(parse: FloatParser, dial: Result<()>, call: Result<seq<string>>): (r: Poll)
    ensures dial.Failure? ==> r == Failed(dial.error)
    ensures dial.Success? && call.Failure? ==> r == Failed(call.error)
    ensures r.Collected? <==> dial.Success? && call.Success? && WellFormed(call.value)
    ensures r.Collected? ==> r.metrics == Parse(parse, call.value)
    ensures r.Panicked? <==> dial.Success? && call.Success? && !WellFormed(call.value)
  {
    if dial.Failure? then Failed(dial.error)
    else if call.Failure? then Failed(call.error)
    else if WellFormed(call.value) then Collected(Parse(parse, call.value))
    else Panicked
  }

  /** An empty reply, or one whose summary field has too few `;`-fields, panics. */
  lemma ShortReplyPanics(parse: FloatParser)
    ensures Collect(parse, Success(()), Success([])) == Panicked
    ensures Collect(parse, Success(()), Success(["v", "1", "5", "5", "5;1;0", "5"])) == Panicked
  {
    assert Count("5", ';') == 0;
  }

  /** An example dual-mining reply: uptime 107 minutes, six GPUs on each algorithm. */
  const Sample: seq<string> := [
    "2.2.4 RU", "107", "64.512;1;0", "10.683;10.683;10.683;10.683;10.683;10.683",
    "2188.000;0;0", "364;364;364;364;364;364"
  ]

  /** The numbers the example reply decodes to. */
  predicate ShowsSample(m: Metrics)
  {
    && m.version == "2.2.4 RU"
    && m.uptime == 6420.0
    && |m.algorithms| == 2
    && m.algorithms[0].name == FirstAlgorithm
    && m.algorithms[0].rates.total == 64.512
    && m.algorithms[0].shares == Shares(1.0, 0.0, 0.0)
    && m.algorithms[1].name == SecondAlgorithm
    && m.algorithms[1].rates.total == 2188.0
    && m.algorithms[1].shares == Shares(0.0, 0.0, 0.0)
  }

  /**
   * Any six-element reply with the sample's version, uptime and summary
   * fields decodes to uptime 6420 seconds, `daggerhashimoto` at 64.512 with
   * one accepted share and `decred` at 2188, whatever its rate lists.
   */
  lemma SampleSummaries(parse: FloatParser, reply: seq<string>)
    requires |reply| == 6 && reply[0] == "2.2.4 RU" && reply[1] == "107"
    requires reply[2] == "64.512;1;0" && reply[4] == "2188.000;0;0"
    requires parse("107") == Some(107.0) && parse("64.512") == Some(64.512)
    requires parse("1") == Some(1.0) && parse("0") == Some(0.0)
    requires parse("2188.000") == Some(2188.0)
    ensures Collect(parse, Success(()), Success(reply)).Collected?
    ensures ShowsSample(Collect(parse, Success(()), Success(reply)).metrics)
  {
    var eth, alt := ["64.512", "1", "0"], ["2188.000", "0", "0"];
    assert Join(eth, ';') == reply[2];
    assert Join(alt, ';') == reply[4];
    assert forall p :: p in eth ==> ';' !in p;
    assert forall p :: p in alt ==> ';' !in p;
    SplitJoin(eth, ';');
    SplitJoin(alt, ';');
    SplitFree(reply[1], ';');
  }

  /** Given the numbers of its fields, the example reply decodes to `ShowsSample`. */
  lemma SampleReply(parse: FloatParser)
    requires parse("107") == Some(107.0) && parse("64.512") == Some(64.512)
    requires parse("1") == Some(1.0) && parse("0") == Some(0.0)
    requires parse("2188.000") == Some(2188.0)
    ensures Collect(parse, Success(()), Success(Sample)).Collected?
    ensures ShowsSample(Collect(parse, Success(()), Success(Sample)).metrics)
  {
    assert |Sample| == 6 && Sample[0] == "2.2.4 RU" && Sample[1] == "107";
    assert Sample[2] == "64.512;1;0" && Sample[4] == "2188.000;0;0";
    SampleSummaries(parse, Sample);
  }

  /** The error reported for a reply too short for the fixed layout. */
  const ShortReply: string := "miner_getstat1: reply too short for the fixed layout"

  /**
   * `Collect` with a short reply reported as an error: a reply too short for
   * the fixed layout is a poll failure like a transport error, never a panic.
   */
  function CollectChecked(parse: FloatParser, dial: Result<()>, call: Result<seq<string>>): (r: Result<Metrics>)
    ensures dial.Failure? ==> r == Failure(dial.error)
    ensures dial.Success? && call.Failure? ==> r == Failure(call.error)
    ensures dial.Success? && call.Success? && !WellFormed(call.value) ==> r == Failure(ShortReply)
    ensures r.Success? <==> Collect(parse, dial, call).Collected?
    ensures r.Success? ==> r.value == Parse(parse, call.value) && |r.value.algorithms| == 2
  {
    if dial.Failure? then Failure(dial.error)
    else if call.Failure? then Failure(call.error)
    else if !WellFormed(call.value) then Failure(ShortReply)
    else Success(Parse(parse, call.value))
  }
}
