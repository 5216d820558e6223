# miner-exporter protocol decoders in Dafny

This project models the protocol-normalization core of miner-exporter, a
Prometheus exporter for GPU mining daemons. Three decoders turn a daemon's
reply into one canonical `Metrics` value. A `Metrics` value holds a version,
an uptime and a list of algorithms. Each algorithm has accepted, rejected and
stale shares, a total rate and one rate per GPU.

- `ccminer` speaks a key-value text protocol. `CCMiner.ToMap` and
  `CCMiner.ToMaps` split replies on `;`, `=` and `|`. `CCMiner.Collect`
  queries summary, pool and threads, in that order, and merges the replies
  into one algorithm. Its total is the running sum of the per-thread `KHS`
  rates.
- `dstm` speaks JSON. `DSTM.Collect` folds the decoded `getstat` records into
  one `equihash` algorithm. It sums the rates and the accepted and rejected
  shares.
- The Claymore dual miner sends a positional array of strings.
  `ClaymoreDualMiner.Parse` reads it by index and always yields
  `daggerhashimoto` and then `decred`.

Modules: `Wrappers` holds `Option` and `Result`. `GoStrings` models Go's
`strings.Split` and `strings.Join`. `MinerMetrics` holds the canonical
datatypes, the abstract float parser and the running sum. Then there is one
module per decoder: `CCMiner`, `DSTM` and `ClaymoreDualMiner`.

The daemons are never contacted. Each network call is an input:
- ccminer's API is a function from command to "reply or error".
- dstm's `GetStat()` is a `Result<GetStat>`.
- Claymore's dial and its `miner_getstat1` call are each a `Result`.

`strconv.ParseFloat` is an abstract `FloatParser` parameter. It maps a string
to `Option<real>` and, like Go's, rejects `""`. A failed parse yields 0
(`OrZero`). The collectors' `Name()` values are the constants `CCMiner.Name`
(`"ccminer"`), `DSTM.Name` (`"dstm"`) and `ClaymoreDualMiner.Name`
(`"ClaymoreDualMiner"`).

## Model

| member | source | states |
|---|---|---|
| `GoStrings.Split` | ccminer.go:131-132 | `strings.Split` on one character: n separators give n + 1 pieces, and no piece contains the separator |
| `GoStrings.JoinSplit` | claymore_dual_miner.go:104 | joining the pieces of a split with the separator gives back the input |
| `GoStrings.SplitJoin` | ccminer.go:118 | splitting the join of separator-free pieces gives back those pieces, so the split is unique |
| `GoStrings.SplitFree` | ccminer.go:132 | a string without the separator splits into itself alone |
| `GoStrings.SplitCons` | ccminer.go:131 | a separator-free prefix followed by the separator becomes the first piece |
| `MinerMetrics.SumAppend` | ccminer.go:57-61 | the running total over a concatenation is the sum of the parts' totals |
| `CCMiner.ToMap` | ccminer.go:128-139 | the loop builds exactly `ParseRecord(input)`, the in-order fold of the `key=value` segments |
| `CCMiner.FoldKeys` | ccminer.go:131-135 | a key is in the fold exactly when some segment splits on `=` into two pieces with that key |
| `CCMiner.FoldLastWins` | ccminer.go:131-135 | the fold keeps the value of the last segment that defines the key |
| `CCMiner.RecordKeys` | ccminer.go:128-139 | `toMap(input)` has key k exactly when some `;`-segment splits on `=` into exactly two pieces starting with k; such a segment has exactly one `=` |
| `CCMiner.RecordLastWins` | ccminer.go:131-135 | when several segments define a key, the value of the last one is kept |
| `CCMiner.ToMaps` | ccminer.go:115-126 | the loop builds exactly `ParseRecords(input)`, the non-empty records of the pipe-separated pieces |
| `CCMiner.KeptIndicesAscending` | ccminer.go:118-123 | the kept piece positions are in bounds and strictly ascending |
| `CCMiner.KeptIndicesExact` | ccminer.go:119-121 | a piece's position is kept exactly when its record is non-empty |
| `CCMiner.KeepAt` | ccminer.go:118-123 | the j-th kept record is the record of the j-th kept piece |
| `CCMiner.RecordsInOrder` | ccminer.go:115-126 | `toMaps` lists, in input order, the `toMap` of exactly the pieces whose map is non-empty; its length is their number, and empty pieces are dropped |
| `CCMiner.FieldValue` | ccminer.go:51-54 | a parsed field is the parser's number, or 0 when the key is missing or the value does not parse |
| `CCMiner.ThreadRates` | ccminer.go:56-62 | one `KHS` rate per thread record, in order (0 when missing or garbled), and the total is their sum |
| `CCMiner.Collect` | ccminer.go:32-82 | asks Summary, then Pool, then Threads, and stops at the first error, which it returns with no metrics; on success it returns one algorithm: name, version and uptime from the summary, shares from the pool, per-GPU `KHS` rates, total equal to their sum |
| `DSTM.SolRates` | dstm.go:87-89 | one rate per `result` record, equal to its `sol_ps`, in order |
| `DSTM.Collect` | dstm.go:77-113 | a `GetStat` error is returned with no metrics; otherwise one `equihash` algorithm with version and uptime copied from the reply, per-GPU rates, total equal to their sum, summed accepted and rejected shares, stale 0, and an empty rate list with total 0 when there are no GPUs |
| `DSTM.TotalsAppend` | dstm.go:87-93 | the rates, their sum and both share counts are additive over the GPU records |
| `DSTM.SampleTotals` | dstm_test.go:126-138 | the test's six GPUs give rates 422.49 … 416.42, total 2543.84, 15 accepted and 5 rejected |
| `ClaymoreDualMiner.Floats` | claymore_dual_miner.go:107-114 | same length as the input; element k is the number of string k, or 0 |
| `ClaymoreDualMiner.ToFloat` | claymore_dual_miner.go:107-114 | the loop produces exactly `Floats(input)` |
| `ClaymoreDualMiner.ParseGarble` | claymore_dual_miner.go:103-105 | one number per `;`-field, so its length is the number of `;` plus one and it is never empty |
| `ClaymoreDualMiner.Halves` | claymore_dual_miner.go:85-96 | both halves have half the input length, rounded down |
| `ClaymoreDualMiner.HalvesAt` | claymore_dual_miner.go:85-96 | element k of the halves is element 2k, respectively 2k + 1, of the input; a trailing odd element is dropped |
| `ClaymoreDualMiner.Unzip` | claymore_dual_miner.go:85-96 | the loop that takes two elements at a time produces exactly `Halves(input)` |
| `ClaymoreDualMiner.ParseZippedGarble` | claymore_dual_miner.go:98-101 | two equal-length number lists, from the even-indexed and the odd-indexed `;`-fields |
| `ClaymoreDualMiner.Parse` | claymore_dual_miner.go:47-83 | for a reply with six elements and at least three `;`-fields in elements 2 and 4: version is element 0, uptime is 60 times the first field of element 1, and there are exactly two algorithms, `daggerhashimoto` from elements 2 and 3 and `decred` from elements 4 and 5, with total, accepted and rejected from fields 0, 1 and 2, per-GPU rates from the rate list, and stale 0 |
| `ClaymoreDualMiner.Collect` | claymore_dual_miner.go:24-36 | a dial error or a call error is returned with no metrics; otherwise the result is `parse(reply)`, which panics on a reply too short for the layout |
| `ClaymoreDualMiner.ShortReplyPanics` | claymore_dual_miner.go:48-77 | an empty reply, or one whose element 2 has a single field, makes `Collect` panic |
| `ClaymoreDualMiner.SampleSummaries` | claymore_dual_miner.go:47-83 | a six-element reply with version `2.2.4 RU`, uptime field `107` and summary fields `64.512;1;0` and `2188.000;0;0` is collected with uptime 6420, `daggerhashimoto` at 64.512 with 1 accepted and 0 rejected, and `decred` at 2188 with 0 accepted and 0 rejected, whatever its rate lists |
| `ClaymoreDualMiner.SampleReply` | claymore_dual_miner.go:24-83 | an example dual-mining reply, with its two six-GPU rate lists, is collected with those values |
| `ClaymoreDualMiner.CollectChecked` | claymore_dual_miner.go:24-36 | as `Collect`, except that a reply too short for the layout is a poll error, never a panic |

## Left out

- Transport: `client.rpc` and its `Summary`/`Threads`/`Pool` wrappers (ccminer.go:84-113), `dstmAPIClient.GetStat`
  (dstm.go:47-67), and `ClaymoreDualMinerClient.client` and its
  `miner_getstat1` call (claymore_dual_miner.go:31 and 38-45), are replaced by their replies or errors. So
  the scanner checks that return a stale `err` (ccminer.go:96-97,
  dstm.go:60-61) are not modelled.
- JSON decoding of the dstm reply, and the ignored `json.Unmarshal` error, are
  left out. `DSTM.GetStat` is the already-decoded record, reduced to the
  fields the decoder reads: `uptime`, `version` and each result's `sol_ps`,
  `accepted_shares` and `rejected_shares`. Temperature, power, latency and
  the other fields are never read.
- `strconv.ParseFloat` is abstract. Its syntax is not modelled, and neither
  is its range error, where Go yields ±Inf instead of 0.
- float64 arithmetic is exact `real` arithmetic, so rounding in the running
  sums (1.79 and 2543.84 in the tests) is not modelled.
- `DSTM.Collect`: Go's `int` share counters are unbounded integers here, so a
  64-bit overflow of the summed shares is not modelled.
- The ccminer test replies (ccminer_test.go) are not restated as a lemma.
  Their decoded values follow from `CCMiner.Collect`'s contract field by
  field.
- `ClaymoreDualMiner.SampleReply` decodes an example dual-mining reply. It
  takes the parser's numbers for the reply's fields as preconditions, because
  `strconv.ParseFloat` is abstract here. It states the version, uptime,
  totals and shares, not the per-GPU rates.
- Go strings are byte sequences, and Dafny's `string` is a sequence of
  characters. Splitting on the ASCII separators `;`, `=` and `|` gives the
  same pieces either way.
- Go's `strconv.ParseFloat` also accepts `NaN` and `Inf`. The values these
  produce are not real numbers, so an `Option<real>` parser cannot return
  them.
- The Prometheus exporter, HTTP server and flag parsing in main.go are not
  part of this model. Its `Metrics`/`Stats` structs are not the ones the
  decoders build; the datatypes here follow ccminer.go:64-81 and the tests.
- `ClaymoreDualMiner.ParseZippedGarble` is modelled although nothing in the
  source calls it.

## Findings

| source | as written | input that shows it | evidently intended | confidence | as-written member | corrected member |
|---|---|---|---|---|---|---|
| claymore_dual_miner.go:35 | `parse(reply)` indexes `reply[0..5]` and fields 0-2 of elements 2 and 4 unchecked, so a short reply panics with an index out of range | reply `[]`, or `["v","1","5","5","5;1;0","5"]` | a reply too short for the fixed layout is a poll failure returned as an error, like a transport error | not executed | `ClaymoreDualMiner.ShortReplyPanics` | `ClaymoreDualMiner.CollectChecked` |
