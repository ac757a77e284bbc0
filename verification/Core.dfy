/** Option, the conventional stand-in for Python's `None`. */
module Wrappers {
  datatype Option<+T> = None | Some(value: T)
}

/** Python's `max`, `min`, `abs` and `int()` on floats, over the reals. */
module RealMath {
  function Max(a: real, b: real): real { if a >= b then a else b }

  function Min(a: real, b: real): real { if a <= b then a else b }

  function Abs(a: real): real { if a >= 0.0 then a else -a }

  /** `int(x)`: rounds toward zero, unlike `Floor`. */
  function Truncate(x: real): (n: int)
    ensures x >= 0.0 ==> 0 <= n && n as real <= x < n as real + 1.0
    ensures x <= 0.0 ==> n <= 0 && n as real - 1.0 < x <= n as real
  {
    if x >= 0.0 then x.Floor else -((-x).Floor)
  }

  lemma ProductOrder(a: real, b: real, c: real)
    requires a <= b && 0.0 <= c
    ensures a * c <= b * c
  {
  }

  lemma NonnegativeProduct(a: real, b: real)
    requires a >= 0.0 && b >= 0.0
    ensures a * b >= 0.0
  {
  }

  predicate Nondecreasing(s: seq<real>) {
    forall i, j :: 0 <= i < j < |s| ==> s[i] <= s[j]
  }

  /** Adjacent order is enough. */
  lemma {:induction false} AdjacentImpliesNondecreasing(s: seq<real>)
    requires forall i :: 0 < i < |s| ==> s[i - 1] <= s[i]
    ensures Nondecreasing(s)
  {
    if |s| > 1 {
      var n := |s| - 1;
      var t := s[..n];
      AdjacentImpliesNondecreasing(t);
      forall i, j | 0 <= i < j < |s| ensures s[i] <= s[j] {
        if j == n {
          assert s[n - 1] <= s[n];
          if i < n - 1 { assert t[i] <= t[n - 1]; }
        } else {
          assert t[i] <= t[j];
        }
      }
    }
  }
}

/** The value types shared by the execution stack. */
module Models {
  import opened Wrappers

  /** Milliseconds on the session clock. */
  type Time = real

  /** Quantities at or below this are treated as nothing. */
  const DUST := 0.000000001

  /** Floor under every division by a quantity. */
  const TINY := 0.000000000001

  datatype Side = Buy | Sell {
    function Sign(): real { if Buy? then 1.0 else -1.0 }
  }

  datatype GovernorAction = Reversal | Continuation | NoTrade

  datatype Quote = Quote(symbol: string, ts: Time, bid: real, ask: real, bidSize: real, askSize: real)

  datatype Trade = Trade(symbol: string, ts: Time, price: real, size: real)

  datatype OrderType = Limit | Market

  datatype Intent = Entry | Exit | Flatten

  datatype OrderRequest = OrderRequest(symbol: string, side: Side, quantity: real, orderType: OrderType,
                                       limitPrice: Option<real>, coid: string, traceId: string, intent: Intent)

  datatype Fill = Fill(symbol: string, side: Side, quantity: real, price: real, ts: Time,
                       coid: string, traceId: string, partial: bool)

  datatype Signal = Signal(symbol: string, ts: Time, side: Side, action: GovernorAction, score: real,
                           reference: real, stop: real, target: real, traceId: string)
}
