/**
  The static class `StockDemo`: a stock count guarded by its own lock, and a
  purchase attempt that succeeds only while stock remains.
 */
module StockDemo {
  import opened CSharpInt

  datatype State = State(stock: int32)

  /** `_stock` as initialised when the class is loaded. */
  const InitialStock: int32 := 5

  const Initial: State := State(InitialStock)

  /** One purchase attempt by `usuario` (who only appears in console output,
      not modelled). Answers whether the purchase went through. */
  function IntentarComprar(s: State, usuario: string): (r: (State, bool))
    ensures r.1 <==> s.stock > 0
    ensures r.1 ==> r.0.stock == s.stock - 1
    ensures !r.1 ==> r.0 == s
    ensures 0 <= s.stock ==> 0 <= r.0.stock <= s.stock
  {
    if s.stock > 0 then (State(s.stock - 1), true) else (s, false)
  }
}
