/**
 * The ccminer key-value decoder: replies such as `VER=2.2.4;ALGO=x;UPTIME=90`
 * are split on `;` into segments and each segment on `=`; thread replies hold
 * several such records separated by `|`.
 */
module CCMiner {
  import opened Wrappers
  import opened GoStrings
  import opened MinerMetrics

  /** The collector's identifier, `Name()`. */
  const Name: string := "ccminer"

  /** A decoded reply: Go's `map[string]string`. */
  type Record = map<string, string>

  /** Segment `seg` splits on `=` into exactly the two pieces `k` and a value. */
  predicate Defines(seg: string, k: string)
  {
    var kv := Split(seg, '=');
    |kv| == 2 && kv[0] == k
  }

  /** One iteration of `toMap`'s loop. */
  function Assign(m: Record, seg: string): Record
  {
    var kv := Split(seg, '=');
    if |kv| == 2 then m[kv[0] := kv[1]] else m
  }

  /** The map `toMap` has built after the segments `segs`, in order. */
  function Fold(segs: seq<string>): Record
  {
    if segs == [] then map[] else Assign(Fold(segs[..|segs| - 1]), segs[|segs| - 1])
  }

  /** What `toMap(input)` returns. */
  function ParseRecord(input: string): Record
  {
    Fold(Split(input, ';'))
  }

  /** `toMap`: fills a map from the `;`-segments that are `key=value` pairs. */
  method ToMap(input: string) returns (result: Record)
    ensures result == ParseRecord(input)
  {
    var segs := Split(input, ';');
    result := map[];
    for i := 0 to |segs|
      invariant result == Fold(segs[..i])
    {
      var split := Split(segs[i], '=');
      if |split| == 2 {
        result := result[split[0] := split[1]];
      }
      assert segs[..i + 1][..i] == segs[..i];
    }
    assert segs[..|segs|] == segs;
  }

  /** A key is present exactly when some segment defines it. */
  lemma {:induction false} FoldKeys(segs: seq<string>, k: string)
    ensures k in Fold(segs) <==> exists i :: 0 <= i < |segs| && Defines(segs[i], k)
  {
    if segs != [] {
      var init := segs[..|segs| - 1];
      FoldKeys(init, k);
      if exists i :: 0 <= i < |segs| && Defines(segs[i], k) {
        var i :| 0 <= i < |segs| && Defines(segs[i], k);
        if i < |segs| - 1 {
          assert init[i] == segs[i];
        }
      }
      if exists i :: 0 <= i < |init| && Defines(init[i], k) {
        var i :| 0 <= i < |init| && Defines(init[i], k);
        assert segs[i] == init[i];
      }
    }
  }

  /** The value kept for a key is that of the last segment defining it. */
  lemma {:induction false} FoldLastWins(segs: seq<string>, i: nat, k: string)
    requires i < |segs| && Defines(segs[i], k)
    requires forall j :: i < j < |segs| ==> !Defines(segs[j], k)
    ensures k in Fold(segs) && Fold(segs)[k] == Split(segs[i], '=')[1]
  {
    var init := segs[..|segs| - 1];
    if i < |segs| - 1 {
      forall j | i < j < |init| ensures !Defines(init[j], k) {
        assert init[j] == segs[j];
      }
      FoldLastWins(init, i, k);
    }
  }

  /**
   * `toMap(input)` has key `k` exactly when one of the `;`-segments of
   * `input` splits on `=` into exactly two pieces, the first being `k`; such a
   * segment has exactly one `=`.
   */
  lemma RecordKeys(input: string, k: string)
    ensures k in ParseRecord(input) ==>
      exists i :: 0 <= i < |Split(input, ';')| && Defines(Split(input, ';')[i], k)
    ensures forall i :: 0 <= i < |Split(input, ';')| && Defines(Split(input, ';')[i], k) ==>
      k in ParseRecord(input)
    ensures forall seg :: seg in Split(input, ';') && Defines(seg, k) ==> Count(seg, '=') == 1
  {
    var segs := Split(input, ';');
    FoldKeys(segs, k);
    assert ParseRecord(input) == Fold(segs);
    assert (k in Fold(segs)) == exists i :: 0 <= i < |segs| && Defines(segs[i], k);
    forall seg | seg in segs && Defines(seg, k) ensures Count(seg, '=') == 1 {
      assert |Split(seg, '=')| == 2;
    }
  }

  /** When several segments define `k`, the last one's value is kept. */
  lemma RecordLastWins(input: string, i: nat, k: string)
    requires var segs := Split(input, ';');
      && i < |segs| && Defines(segs[i], k)
      && forall j :: i < j < |segs| ==> !Defines(segs[j], k)
    ensures k in ParseRecord(input)
    ensures ParseRecord(input)[k] == Split(Split(input, ';')[i], '=')[1]
  {
    FoldLastWins(Split(input, ';'), i, k);
  }

  /** The records `toMaps` keeps from the `|`-pieces `pieces`, in order. */
  function Keep(pieces: seq<string>): seq<Record>
  {
    if pieces == [] then []
    else
      var inner := ParseRecord(pieces[|pieces| - 1]);
      Keep(pieces[..|pieces| - 1]) + (if |inner| > 0 then [inner] else [])
  }

  /** The positions of the `|`-pieces whose record is non-empty, ascending. */
  function KeptIndices(pieces: seq<string>): seq<nat>
  {
    if pieces == [] then []
    else
      var n := |pieces| - 1;
      KeptIndices(pieces[..n]) + (if |ParseRecord(pieces[n])| > 0 then [n] else [])
  }

  /** What `toMaps(input)` returns. */
  function ParseRecords(input: string): seq<Record>
  {
    Keep(Split(input, '|'))
  }

  /** `toMaps`: the non-empty `toMap` of every `|`-piece, in order. */
  method ToMaps(input: string) returns (result: seq<Record>)
    ensures result == ParseRecords(input)
  {
    var pieces := Split(input, '|');
    result := [];
    for i := 0 to |pieces|
      invariant result == Keep(pieces[..i])
    {
      var inner := ToMap(pieces[i]);
      if |inner| > 0 {
        result := result + [inner];
      }
      assert pieces[..i + 1][..i] == pieces[..i];
    }
    assert pieces[..|pieces|] == pieces;
  }

  /** `KeptIndices` lists positions of `pieces`, in ascending order. */
  lemma {:induction false} KeptIndicesAscending(pieces: seq<string>)
    ensures forall j :: 0 <= j < |KeptIndices(pieces)| ==> KeptIndices(pieces)[j] < |pieces|
    ensures forall j, j' :: 0 <= j < j' < |KeptIndices(pieces)| ==> KeptIndices(pieces)[j] < KeptIndices(pieces)[j']
  {
    if pieces != [] {
      var n := |pieces| - 1;
      var ks0 := KeptIndices(pieces[..n]);
      KeptIndicesAscending(pieces[..n]);
      var tail: seq<nat> := if |ParseRecord(pieces[n])| > 0 then [n] else [];
      assert KeptIndices(pieces) == ks0 + tail;
    }
  }

  /** `KeptIndices` holds exactly the pieces with a non-empty record. */
  lemma {:induction false} KeptIndicesExact(pieces: seq<string>)
    ensures forall i :: 0 <= i < |pieces| ==> (i in KeptIndices(pieces) <==> |ParseRecord(pieces[i])| > 0)
  {
    if pieces != [] {
      var n := |pieces| - 1;
      var init := pieces[..n];
      var ks0 := KeptIndices(init);
      KeptIndicesExact(init);
      KeptIndicesAscending(init);
      var tail: seq<nat> := if |ParseRecord(pieces[n])| > 0 then [n] else [];
      assert KeptIndices(pieces) == ks0 + tail;
      assert n !in ks0;
      forall i | 0 <= i < |pieces|
        ensures i in KeptIndices(pieces) <==> |ParseRecord(pieces[i])| > 0
      {
        if i < n {
          assert pieces[i] == init[i];
        }
      }
    }
  }

  /** The j-th kept record is the record of piece `KeptIndices(pieces)[j]`. */
  lemma {:induction false} KeepAt(pieces: seq<string>)
    ensures var ks := KeptIndices(pieces);
      && |Keep(pieces)| == |ks|
      && forall j :: 0 <= j < |ks| ==> ks[j] < |pieces| && Keep(pieces)[j] == ParseRecord(pieces[ks[j]])
  {
    if pieces != [] {
      var n := |pieces| - 1;
      var init := pieces[..n];
      KeepAt(init);
      var ks0 := KeptIndices(init);
      forall j | 0 <= j < |ks0| ensures pieces[ks0[j]] == init[ks0[j]] { }
    }
  }

  /**
   * `toMaps(input)` lists, in input order, the `toMap` of exactly those
   * `|`-pieces whose map is non-empty: its j-th element comes from piece
   * `ks[j]` for a strictly increasing `ks` that holds every such piece, so its
   * length is the number of such pieces. Empty pieces contribute nothing.
   */
  lemma RecordsInOrder(input: string)
    ensures var pieces := Split(input, '|');
      var ks := KeptIndices(pieces);
      && |ParseRecords(input)| == |ks|
      && (forall j :: 0 <= j < |ks| ==> ks[j] < |pieces| && ParseRecords(input)[j] == ParseRecord(pieces[ks[j]]))
      && (forall j, j' :: 0 <= j < j' < |ks| ==> ks[j] < ks[j'])
      && (forall i :: 0 <= i < |pieces| ==> (i in ks <==> |ParseRecord(pieces[i])| > 0))
      && (forall j :: 0 <= j < |ks| ==> pieces[ks[j]] != "")
  {
    var pieces := Split(input, '|');
    KeptIndicesAscending(pieces);
    KeptIndicesExact(pieces);
    KeepAt(pieces);
    assert ParseRecord("") == map[] by {
      assert Split("", ';') == [""];
      assert Split("", '=') == [""];
    }
  }

  /** The three commands of the ccminer API. */
  datatype Query = Summary | Pool | Threads

  /** The order in which `Collect` issues them. */
  const Queries: seq<Query> := [Summary, Pool, Threads]

  /** `m[k]` in Go: the value, or "" when the key is missing. */
  function Text(m: Record, k: string): string
  {
    if k in m then m[k] else ""
  }

  /**
   * `strconv.ParseFloat(m[k], 64)` with the error ignored: the number under
   * key `k`, or 0 when the key is missing or its value does not parse.
   */
  function FieldValue(parse: FloatParser, m: Record, k: string): (r: real)
    ensures k !in m ==> r == 0.0
    ensures k in m && parse(m[k]).None? ==> r == 0.0
    ensures k in m && parse(m[k]).Some? ==> r == parse(m[k]).value
  {
    OrZero(parse, Text(m, k))
  }

  /**
   * The metrics `Collect` builds from the three replies: version, uptime and
   * algorithm name from the summary, the shares from the pool, and one `KHS`
   * rate per thread record, in order, with their sum as total.
   */
  predicate Decodes(parse: FloatParser, summaryReply: string, poolReply: string, threadsReply: string, m: Metrics)
  {
    var summary := ParseRecord(summaryReply);
    var pool := ParseRecord(poolReply);
    var threads := ParseRecords(threadsReply);
    && m.version == Text(summary, "VER")
    && m.uptime == FieldValue(parse, summary, "UPTIME")
    && |m.algorithms| == 1
    && m.algorithms[0].name == Text(summary, "ALGO")
    && m.algorithms[0].shares == Shares(FieldValue(parse, pool, "ACC"),
                                        FieldValue(parse, pool, "REJ"),
                                        FieldValue(parse, pool, "STALE"))
    && |m.algorithms[0].rates.byGpu| == |threads|
    && (forall i :: 0 <= i < |threads| ==>
          m.algorithms[0].rates.byGpu[i] == FieldValue(parse, threads[i], "KHS"))
    && m.algorithms[0].rates.total == Sum(m.algorithms[0].rates.byGpu)
  }

  /** The loop over the thread records: one `KHS` rate each, and the running total. */
  method ThreadRates(parse: FloatParser, threads: seq<Record>) returns (byGpu: seq<real>, total: real)
    ensures |byGpu| == |threads|
    ensures forall i :: 0 <= i < |threads| ==> byGpu[i] == FieldValue(parse, threads[i], "KHS")
    ensures total == Sum(byGpu)
  {
    byGpu := [];
    total := 0.0;
    for i := 0 to |threads|
      invariant |byGpu| == i
      invariant forall j :: 0 <= j < i ==> byGpu[j] == FieldValue(parse, threads[j], "KHS")
      invariant total == Sum(byGpu)
    {
      var rate := OrZero(parse, Text(threads[i], "KHS"));
      assert (byGpu + [rate])[..i] == byGpu;
      byGpu := byGpu + [rate];
      total := total + rate;
    }
  }

  /**
   * `CCMinerClient.Collect`. The API is an oracle from command to reply or
   * error; `asked` lists the commands sent, in order: the first failure ends
   * the poll with that error.
   */
  method Collect(api: Query -> Result<string>, parse: FloatParser) returns (r: Result<Metrics>, asked: seq<Query>)
    ensures 1 <= |asked| <= 3 && asked == Queries[..|asked|]
    ensures forall i :: 0 <= i < |asked| - 1 ==> api(asked[i]).Success?
    ensures r.Failure? <==> api(asked[|asked| - 1]).Failure?
    ensures r.Failure? ==> r.error == api(asked[|asked| - 1]).error
    ensures r.Success? ==> |asked| == 3
    ensures r.Success? ==> api(Summary).Success? && api(Pool).Success? && api(Threads).Success?
    ensures r.Success? ==>
      Decodes(parse, api(Summary).value, api(Pool).value, api(Threads).value, r.value)
  {
    asked := [Summary];
    var resp := api(Summary);
    if resp.Failure? {
      return Failure(resp.error), asked;
    }
    var summary := ToMap(resp.value);

    asked := asked + [Pool];
    resp := api(Pool);
    if resp.Failure? {
      return Failure(resp.error), asked;
    }
    var pool := ToMap(resp.value);

    asked := asked + [Threads];
    resp := api(Threads);
    if resp.Failure? {
      return Failure(resp.error), asked;
    }
    var threads := ToMaps(resp.value);

    var uptime := OrZero(parse, Text(summary, "UPTIME"));
    var accepted := OrZero(parse, Text(pool, "ACC"));
    var rejected := OrZero(parse, Text(pool, "REJ"));
    var stale := OrZero(parse, Text(pool, "STALE"));
    var byGpu, total := ThreadRates(parse, threads);

    r := Success(Metrics(Text(summary, "VER"), uptime,
      [Algorithm(Text(summary, "ALGO"), Shares(accepted, rejected, stale), Rates(total, byGpu))]));
  }
}
