/** Token counters as the server sends them, and the mutually exclusive buckets derived from them. */
module TokenUsage {
  import opened Common

  datatype Usage = Usage(input: int, output: int, cachedInput: int, reasoningOutput: int, total: int)

  const ZERO := Usage(0, 0, 0, 0, 0)

  function Plus(a: Usage, b: Usage): Usage {
    Usage(a.input + b.input, a.output + b.output, a.cachedInput + b.cachedInput, a.reasoningOutput + b.reasoningOutput,
          a.total + b.total)
  }

  function Minus(a: Usage, b: Usage): Usage {
    Usage(a.input - b.input, a.output - b.output, a.cachedInput - b.cachedInput, a.reasoningOutput - b.reasoningOutput,
          a.total - b.total)
  }

  /** No counter of `a` is below that of `b`. */
  predicate AtLeast(a: Usage, b: Usage) {
    && a.input >= b.input && a.output >= b.output && a.cachedInput >= b.cachedInput
    && a.reasoningOutput >= b.reasoningOutput && a.total >= b.total
  }

  /** The growth since an earlier snapshot; none when a counter went back. */
  function Subtract(u: Usage, previous: Usage): (delta: Option<Usage>)
    ensures delta.Some? <==> AtLeast(u, previous)
    ensures delta.Some? <==> && u.input >= previous.input && u.output >= previous.output
                             && u.cachedInput >= previous.cachedInput && u.reasoningOutput >= previous.reasoningOutput
                             && u.total >= previous.total
    ensures delta.Some? ==> Plus(previous, delta.value) == u && AtLeast(delta.value, ZERO)
  {
    var d := Minus(u, previous);
    if d.input < 0 || d.output < 0 || d.cachedInput < 0 || d.reasoningOutput < 0 || d.total < 0 then None else Some(d)
  }

  datatype Details = Details(input: int, inputCached: int, output: int, outputReasoning: int, total: int)

  datatype Unavailable = NegativeCounter | CachedExceedsInput | ReasoningExceedsOutput | TotalMismatch

  function UsageDetails(u: Usage): Result<Details, Unavailable> {
    if u.input < 0 || u.output < 0 || u.cachedInput < 0 || u.reasoningOutput < 0 || u.total < 0 then Err(NegativeCounter)
    else if u.cachedInput > u.input then Err(CachedExceedsInput)
    else if u.reasoningOutput > u.output then Err(ReasoningExceedsOutput)
    else if u.total != u.input + u.output then Err(TotalMismatch)
    else Ok(Details(u.input - u.cachedInput, u.cachedInput, u.output - u.reasoningOutput, u.reasoningOutput, u.total))
  }

  /** The counters that a set of buckets stands for. */
  function Counters(d: Details): Usage {
    Usage(d.input + d.inputCached, d.output + d.outputReasoning, d.inputCached, d.outputReasoning, d.total)
  }

  ghost predicate Partition(d: Details) {
    && d.input >= 0 && d.inputCached >= 0 && d.output >= 0 && d.outputReasoning >= 0
    && d.input + d.inputCached + d.output + d.outputReasoning == d.total
  }

  /** Counters are exported as buckets exactly when some partition of the total stands for them, and then as that one. */
  lemma DetailsPartitionTheTotal(u: Usage)
    ensures UsageDetails(u).Ok? <==> exists d :: Partition(d) && Counters(d) == u
    ensures forall d | Partition(d) && Counters(d) == u :: UsageDetails(u) == Ok(d)
  {
    var r := UsageDetails(u);
    if r.Ok? {
      assert Partition(r.value) && Counters(r.value) == u;
    }
  }
}
