/** The result of one service operation together with the remote calls it issued, in order. */
module Trace {
  import opened Client
  import opened Errors

  datatype Run<+T> = Run(result: Result<T>, calls: seq<Call>)

  /** How many calls to the token endpoint a trace holds. */
  function TokenCalls(calls: seq<Call>): nat {
    if calls == [] then 0 else (if calls[0].TokenCall? then 1 else 0) + TokenCalls(calls[1..])
  }

  /** How many calls to the asset endpoints a trace holds. */
  function AssetCalls(calls: seq<Call>): nat {
    if calls == [] then 0 else (if calls[0].TokenCall? then 0 else 1) + AssetCalls(calls[1..])
  }

  /** Traces of consecutive operations add up. */
  lemma {:induction false} CountsAdd(a: seq<Call>, b: seq<Call>)
    ensures TokenCalls(a + b) == TokenCalls(a) + TokenCalls(b)
    ensures AssetCalls(a + b) == AssetCalls(a) + AssetCalls(b)
  {
    if a != [] {
      assert (a + b)[1..] == a[1..] + b;
      CountsAdd(a[1..], b);
    } else {
      assert a + b == b;
    }
  }
}
