/**
  Concurrent use of the examples. Each locked critical section is one atomic
  step. For `Procesar` that step is the locked append of a failed task's
  message; the task itself runs unlocked, and its own effects are separate
  steps. So any interleaving of calls made by any number of threads is a
  sequence of steps, executed one after the other on the combined state of
  both static classes. Each whole-run lemma here holds for every such
  sequence that meets its requires, that is, for every order the threads
  could have been scheduled in.
 */
module Schedule {
  import opened CSharpInt
  import LE = LockExamples
  import SD = StockDemo

  /** The statics of `LockExamples` and of `StockDemo`. */
  datatype World = World(examples: LE.State, stockDemo: SD.State)

  const InitialWorld: World := World(LE.Initial, SD.Initial)

  /** One call of a locked method, with its arguments. */
  datatype Step =
    | Incrementar
    | GetContador
    | AgregarMensaje(mensaje: string)
    | GetMensajes
    | Depositar(monto: int32)
    | Retirar(monto: int32)
    | Encolar(dato: string)
    | Desencolar
    | IncrementarUsuario(usuario: string)
    | Procesar(tarea: LE.TaskOutcome)
    | IntentarComprar(comprador: string)

  /** What the call gave back to its thread (`void` methods give nothing). */
  datatype Reply =
    | Nothing
    | Count(value: int32)
    | Messages(copy: seq<string>)
    | Dequeued(result: LE.Result<string>)
    | Bought(success: bool)

  /** One atomic step. */
  function Apply(w: World, step: Step): (World, Reply)
  {
    var ex := w.examples;
    match step
    case Incrementar => (w.(examples := LE.Incrementar(ex)), Nothing)
    case GetContador => (w, Count(LE.GetContador(ex)))
    case AgregarMensaje(m) => (w.(examples := LE.AgregarMensaje(ex, m)), Nothing)
    case GetMensajes => (w, Messages(LE.GetMensajes(ex)))
    case Depositar(m) => (w.(examples := LE.Depositar(ex, m)), Nothing)
    case Retirar(m) => (w.(examples := LE.Retirar(ex, m)), Nothing)
    case Encolar(d) => (w.(examples := LE.Encolar(ex, d)), Nothing)
    case Desencolar =>
      var (ex', res) := LE.Desencolar(ex);
      (w.(examples := ex'), Dequeued(res))
    case IncrementarUsuario(u) => (w.(examples := LE.IncrementarUsuario(ex, u)), Nothing)
    case Procesar(t) => (w.(examples := LE.Procesar(ex, t)), Nothing)
    case IntentarComprar(c) =>
      var (sd', ok) := SD.IntentarComprar(w.stockDemo, c);
      (w.(stockDemo := sd'), Bought(ok))
  }

  /** Executes the steps in order: the final state and one reply per step. */
  function Run(w: World, steps: seq<Step>): (r: (World, seq<Reply>))
    ensures |r.1| == |steps|
    decreases |steps|
  {
    if |steps| == 0 then (w, [])
    else
      var first := Apply(w, steps[0]);
      var later := Run(first.0, steps[1..]);
      (later.0, [first.1] + later.1)
  }

  // Tallies over a schedule or its replies

  function Increments(steps: seq<Step>): nat
  {
    if |steps| == 0 then 0
    else (if steps[0].Incrementar? then 1 else 0) + Increments(steps[1..])
  }

  function AddedMessages(steps: seq<Step>): seq<string>
  {
    if |steps| == 0 then []
    else (if steps[0].AgregarMensaje? then [steps[0].mensaje] else []) + AddedMessages(steps[1..])
  }

  function Enqueued(steps: seq<Step>): seq<string>
  {
    if |steps| == 0 then []
    else (if steps[0].Encolar? then [steps[0].dato] else []) + Enqueued(steps[1..])
  }

  /** The values successful dequeues returned, in the order they were returned. */
  function DequeuedValues(replies: seq<Reply>): seq<string>
  {
    if |replies| == 0 then []
    else
      (if replies[0].Dequeued? && replies[0].result.Ok? then [replies[0].result.value] else [])
      + DequeuedValues(replies[1..])
  }

  /** Messages of the tasks handed to `Procesar` that threw. */
  function FailureMessages(steps: seq<Step>): seq<string>
  {
    if |steps| == 0 then []
    else
      (if steps[0].Procesar? && steps[0].tarea.Throws? then [steps[0].tarea.exception.message] else [])
      + FailureMessages(steps[1..])
  }

  function UserIncrements(steps: seq<Step>, u: string): nat
  {
    if |steps| == 0 then 0
    else (if steps[0] == IncrementarUsuario(u) then 1 else 0) + UserIncrements(steps[1..], u)
  }

  function PurchaseAttempts(steps: seq<Step>): nat
  {
    if |steps| == 0 then 0
    else (if steps[0].IntentarComprar? then 1 else 0) + PurchaseAttempts(steps[1..])
  }

  function Purchases(replies: seq<Reply>): nat
  {
    if |replies| == 0 then 0
    else (if replies[0] == Bought(true) then 1 else 0) + Purchases(replies[1..])
  }

  /** Sum of the amounts deposited. */
  function Deposited(steps: seq<Step>): int
  {
    if |steps| == 0 then 0
    else (if steps[0].Depositar? then steps[0].monto else 0) + Deposited(steps[1..])
  }

  /** Every deposit and withdrawal in the schedule is of a non-negative amount. */
  predicate NonNegativeAmounts(steps: seq<Step>)
  {
    forall i :: 0 <= i < |steps| ==>
      (steps[i].Depositar? || steps[i].Retirar?) ==> 0 <= steps[i].monto
  }

  // Shared counter

  /** No lost update: whatever the interleaving, the counter ends at its start
      value plus the number of `Incrementar` calls (modulo the 32-bit wrap). */
  lemma {:induction false} RunCounter(w: World, steps: seq<Step>)
    ensures Run(w, steps).0.examples.contador == Wrap(w.examples.contador + Increments(steps))
    decreases |steps|
  {
    if |steps| > 0 {
      var w1 := Apply(w, steps[0]).0;
      RunCounter(w1, steps[1..]);
      if steps[0].Incrementar? {
        WrapAdd(w.examples.contador + 1, Increments(steps[1..]));
      }
    }
  }

  /** The number of increments is the multiplicity of `Incrementar` in the schedule. */
  lemma {:induction false} IncrementsIsMultiplicity(steps: seq<Step>)
    ensures Increments(steps) == multiset(steps)[Incrementar]
    decreases |steps|
  {
    if |steps| > 0 {
      IncrementsIsMultiplicity(steps[1..]);
      assert steps == [steps[0]] + steps[1..];
      assert multiset(steps) == multiset([steps[0]]) + multiset(steps[1..]);
    }
  }

  /** Two schedules made of the same calls, in any two orders, leave the same counter. */
  lemma CounterOrderIndependent(w: World, s1: seq<Step>, s2: seq<Step>)
    requires multiset(s1) == multiset(s2)
    ensures Run(w, s1).0.examples.contador == Run(w, s2).0.examples.contador
  {
    RunCounter(w, s1);
    RunCounter(w, s2);
    IncrementsOrderIndependent(s1, s2);
  }

  lemma IncrementsOrderIndependent(s1: seq<Step>, s2: seq<Step>)
    requires multiset(s1) == multiset(s2)
    ensures Increments(s1) == Increments(s2)
  {
    IncrementsIsMultiplicity(s1);
    IncrementsIsMultiplicity(s2);
  }

  /** `GetContador` at the end of a schedule observes every increment made in
      it, and the read itself changes no state. */
  lemma ObserveCounter(w: World, steps: seq<Step>)
    ensures var wf := Run(w, steps).0;
            Apply(wf, GetContador) == (wf, Count(Wrap(w.examples.contador + Increments(steps))))
  {
    RunCounter(w, steps);
  }

  // Shared message list

  /** The list ends as it began followed by every added message, in the order
      the additions were scheduled. */
  lemma {:induction false} RunMessages(w: World, steps: seq<Step>)
    ensures Run(w, steps).0.examples.mensajes == w.examples.mensajes + AddedMessages(steps)
    decreases |steps|
  {
    if |steps| > 0 {
      RunMessages(Apply(w, steps[0]).0, steps[1..]);
    }
  }

  /** `GetMensajes` at the end of a schedule returns exactly the list built so
      far, and the read itself changes no state. */
  lemma ObserveMessages(w: World, steps: seq<Step>)
    ensures var wf := Run(w, steps).0;
            Apply(wf, GetMensajes) == (wf, Messages(w.examples.mensajes + AddedMessages(steps)))
  {
    RunMessages(w, steps);
  }

  // FIFO queue

  /** Conservation in FIFO order: what was dequeued followed by what remains is
      what was queued at the start followed by everything enqueued. */
  lemma {:induction false} RunQueue(w: World, steps: seq<Step>)
    ensures DequeuedValues(Run(w, steps).1) + Run(w, steps).0.examples.cola
              == w.examples.cola + Enqueued(steps)
    decreases |steps|
  {
    if |steps| > 0 {
      var w1 := Apply(w, steps[0]).0;
      var reply := Apply(w, steps[0]).1;
      var wn := Run(w1, steps[1..]).0;
      var rest := Run(w1, steps[1..]).1;
      assert Run(w, steps) == (wn, [reply] + rest);
      RunQueue(w1, steps[1..]);
      StepQueue(w, steps[0]);
      DequeuedValuesCons(reply, rest);
      assert Enqueued(steps) == Enqueued([steps[0]]) + Enqueued(steps[1..]) by {
        assert [steps[0]][1..] == [];
      }
      SpliceQueues(DequeuedValues([reply]), DequeuedValues(rest), wn.examples.cola,
                   w1.examples.cola, Enqueued(steps[1..]), w.examples.cola, Enqueued([steps[0]]));
    }
  }

  /** The sequence algebra of one induction step of `RunQueue`, kept apart from
      the step semantics. */
  lemma SpliceQueues(d1: seq<string>, dr: seq<string>, cn: seq<string>, c1: seq<string>,
                     er: seq<string>, c: seq<string>, e1: seq<string>)
    requires dr + cn == c1 + er
    requires d1 + c1 == c + e1
    ensures (d1 + dr) + cn == c + (e1 + er)
  {
    calc {
      (d1 + dr) + cn;
      d1 + (dr + cn);
      d1 + (c1 + er);
      (d1 + c1) + er;
      (c + e1) + er;
    }
  }

  lemma DequeuedValuesCons(reply: Reply, rest: seq<Reply>)
    ensures DequeuedValues([reply] + rest) == DequeuedValues([reply]) + DequeuedValues(rest)
  {
    assert ([reply] + rest)[1..] == rest;
    assert [reply][1..] == [];
  }

  /** The queue conservation law for a single step. */
  lemma StepQueue(w: World, step: Step)
    ensures DequeuedValues([Apply(w, step).1]) + Apply(w, step).0.examples.cola
              == w.examples.cola + Enqueued([step])
  {
    var c := w.examples.cola;
    assert [step][1..] == [];
    var reply := Apply(w, step).1;
    assert [reply][1..] == [];
    if step.Desencolar? && |c| > 0 {
      assert c == [c[0]] + c[1..];
    }
  }

  /** From an empty queue, the values come out in the order they went in: the
      dequeued values are a prefix of the enqueued ones. */
  lemma FifoFromEmpty(w: World, steps: seq<Step>)
    requires w.examples.cola == []
    ensures DequeuedValues(Run(w, steps).1) <= Enqueued(steps)
  {
    RunQueue(w, steps);
    var d := DequeuedValues(Run(w, steps).1);
    var rest := Run(w, steps).0.examples.cola;
    assert Enqueued(steps) == d + rest;
    assert (d + rest)[..|d|] == d;
  }

  // Bank balance

  /** Withdrawals never overdraw: from a non-negative balance, a schedule of
      non-negative amounts whose deposits cannot overflow keeps the balance
      between zero and the start balance plus everything deposited. */
  lemma {:induction false} RunBalance(w: World, steps: seq<Step>)
    requires 0 <= w.examples.saldo
    requires NonNegativeAmounts(steps)
    requires w.examples.saldo + Deposited(steps) <= MaxInt32
    ensures 0 <= Run(w, steps).0.examples.saldo <= w.examples.saldo + Deposited(steps)
    decreases |steps|
  {
    if |steps| > 0 {
      NonNegativeAmountsTail(steps);
      assert Deposited(steps[1..]) >= 0 by { DepositedNonNegative(steps[1..]); }
      RunBalance(Apply(w, steps[0]).0, steps[1..]);
    }
  }

  /** Dropping the first step keeps every amount non-negative. */
  lemma NonNegativeAmountsTail(steps: seq<Step>)
    requires |steps| > 0 && NonNegativeAmounts(steps)
    ensures NonNegativeAmounts(steps[1..])
  {
    forall i | 0 <= i < |steps[1..]|
      ensures (steps[1..][i].Depositar? || steps[1..][i].Retirar?) ==> 0 <= steps[1..][i].monto
    {
      assert steps[1..][i] == steps[i + 1];
    }
  }

  lemma {:induction false} DepositedNonNegative(steps: seq<Step>)
    requires NonNegativeAmounts(steps)
    ensures Deposited(steps) >= 0
    decreases |steps|
  {
    if |steps| > 0 {
      NonNegativeAmountsTail(steps);
      DepositedNonNegative(steps[1..]);
    }
  }

  // Per-user counters

  /** Each user's count ends at its start value (zero when absent) plus the
      number of that user's increments, wrapping at 32 bits; a user with no
      increments keeps its entry, or its absence, unchanged. */
  lemma {:induction false} RunUserCount(w: World, steps: seq<Step>, u: string)
    ensures var m := Run(w, steps).0.examples.contadores;
            var n := UserIncrements(steps, u);
            && (u in m <==> u in w.examples.contadores || n > 0)
            && (n == 0 && u in m ==> m[u] == w.examples.contadores[u])
            && (n > 0 ==> m[u] == Wrap(CountOrZero(w.examples.contadores, u) + n))
    decreases |steps|
  {
    if |steps| > 0 {
      var w1 := Apply(w, steps[0]).0;
      assert Run(w, steps).0 == Run(w1, steps[1..]).0;
      RunUserCount(w1, steps[1..], u);
      StepUserCount(w, steps[0], u);
      var m0, m1 := w.examples.contadores, w1.examples.contadores;
      var n' := UserIncrements(steps[1..], u);
      if steps[0] == IncrementarUsuario(u) {
        assert UserIncrements(steps, u) == n' + 1;
        assert CountOrZero(m1, u) == Wrap(CountOrZero(m0, u) + 1);
        WrapAdd(CountOrZero(m0, u) + 1, n');
      } else {
        assert UserIncrements(steps, u) == n';
        assert CountOrZero(m1, u) == CountOrZero(m0, u);
      }
    }
  }

  /** A user's count, with an absent user counting as zero. */
  function CountOrZero(m: map<string, int32>, u: string): int
  {
    if u in m then m[u] else 0
  }

  /** The effect of one step on one user's entry. */
  lemma StepUserCount(w: World, step: Step, u: string)
    ensures var m0 := w.examples.contadores;
            var m1 := Apply(w, step).0.examples.contadores;
            && (step == IncrementarUsuario(u) ==> u in m1 && m1[u] == Wrap(CountOrZero(m0, u) + 1))
            && (step != IncrementarUsuario(u) ==> (u in m1 <==> u in m0))
            && (step != IncrementarUsuario(u) && u in m0 ==> m1[u] == m0[u])
  {
  }

  // Error log

  /** The log ends as it began followed by the message of every task that
      threw, in schedule order; tasks that completed leave no trace. */
  lemma {:induction false} RunErrors(w: World, steps: seq<Step>)
    ensures Run(w, steps).0.examples.errores == w.examples.errores + FailureMessages(steps)
    decreases |steps|
  {
    if |steps| > 0 {
      RunErrors(Apply(w, steps[0]).0, steps[1..]);
    }
  }

  // Bounded stock

  /** Exactly min(stock, attempts) purchases succeed, in any interleaving, and
      the stock drops by that many: it never goes negative. */
  lemma {:induction false} RunStock(w: World, steps: seq<Step>)
    requires 0 <= w.stockDemo.stock
    ensures var stock := w.stockDemo.stock;
            var bought := Purchases(Run(w, steps).1);
            var attempts := PurchaseAttempts(steps);
            && bought == (if attempts <= stock then attempts else stock)
            && Run(w, steps).0.stockDemo.stock == stock - bought
    decreases |steps|
  {
    if |steps| > 0 {
      var (w1, reply) := Apply(w, steps[0]);
      RunStock(w1, steps[1..]);
      var replies := Run(w, steps).1;
      assert replies[0] == reply;
      assert replies[1..] == Run(w1, steps[1..]).1;
    }
  }

  /** From the initial stock of 5, at most five purchases ever succeed. */
  lemma AtMostFivePurchases(steps: seq<Step>)
    ensures Purchases(Run(InitialWorld, steps).1) <= 5
    ensures Run(InitialWorld, steps).0.stockDemo.stock >= 0
  {
    RunStock(InitialWorld, steps);
  }
}
