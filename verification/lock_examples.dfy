/**
  The shared state of the static class `LockExamples` and one pure transition
  per locked critical section. Every modelled method except `Procesar` runs its
  whole body inside a `lock` block on the lock object that guards its field,
  so each call is one atomic step from a state to a state; `Procesar` runs its
  task outside any lock and locks only the append to the error log, which is
  the step modelled here. A concurrent run is then a sequence of such steps
  (module Schedule). Fields keep the names of the C# statics they model.
 */
module LockExamples {
  import opened CSharpInt

  /** The two exception kinds the modelled code raises or catches. Only the
      message is observable by the code (`ex.Message`). */
  datatype Exception =
    | InvalidOperationException(message: string)
    | OtherException(message: string)

  /** A call that either returns a value or throws. */
  datatype Result<T> = Ok(value: T) | Thrown(exception: Exception)

  /** What running the `Action` handed to `Procesar` did: it is caller code,
      so only its outcome is modelled. */
  datatype TaskOutcome = Completes | Throws(exception: Exception)

  /** Message of the exception `Desencolar` throws on an empty queue. */
  const EmptyQueueMessage: string := "La cola está vacía."

  /** Starting balance of the bank example. */
  const InitialSaldo: int32 := 1000

  datatype State = State(
    contador: int32,                  // shared counter
    mensajes: seq<string>,            // shared message list
    saldo: int32,                     // bank balance
    cola: seq<string>,                // FIFO queue, front at index 0
    contadores: map<string, int32>,   // per-user counters
    errores: seq<string>              // error log
  )

  /** The statics as initialised when the class is loaded. */
  const Initial: State := State(0, [], InitialSaldo, [], map[], [])

  // Shared counter

  /** `_contador++`: one more, wrapping from the largest int to the smallest. */
  function Incrementar(s: State): (t: State)
    ensures s.contador < MaxInt32 ==> t.contador == s.contador + 1
    ensures s.contador == MaxInt32 ==> t.contador == MinInt32
    ensures t == s.(contador := t.contador)
  {
    s.(contador := Add(s.contador, 1))
  }

  /** Reads the counter; the caller's state is left as it was. */
  function GetContador(s: State): int32
  {
    s.contador
  }

  // Shared message list

  /** `_mensajes.Add(mensaje)`: appended at the end, earlier messages kept in order. */
  function AgregarMensaje(s: State, mensaje: string): (t: State)
    ensures |t.mensajes| == |s.mensajes| + 1
    ensures t.mensajes[..|s.mensajes|] == s.mensajes
    ensures t.mensajes[|s.mensajes|] == mensaje
    ensures t == s.(mensajes := t.mensajes)
  {
    s.(mensajes := s.mensajes + [mensaje])
  }

  /** `new List<string>(_mensajes)`: a snapshot. Sequences are values, so later
      additions to the shared list cannot show through it. */
  function GetMensajes(s: State): seq<string>
  {
    s.mensajes
  }

  // Deposits and withdrawals

  /** `_saldo += monto`, with no guard: a negative amount lowers the balance
      and a large one wraps around. */
  function Depositar(s: State, monto: int32): (t: State)
    ensures MinInt32 <= s.saldo + monto <= MaxInt32 ==> t.saldo == s.saldo + monto
    ensures s.saldo + monto > MaxInt32 ==> t.saldo == s.saldo + monto - Modulus && t.saldo < 0
    ensures s.saldo + monto < MinInt32 ==> t.saldo == s.saldo + monto + Modulus && t.saldo >= 0
    ensures t == s.(saldo := t.saldo)
  {
    s.(saldo := Add(s.saldo, monto))
  }

  /** `if (_saldo >= monto) _saldo -= monto;`: the overdraft guard. */
  function Retirar(s: State, monto: int32): (t: State)
    ensures s.saldo < monto ==> t == s
    ensures s.saldo >= monto && s.saldo - monto <= MaxInt32 ==> t.saldo == s.saldo - monto
    ensures s.saldo >= monto && s.saldo - monto > MaxInt32 ==>
              t.saldo == s.saldo - monto - Modulus && t.saldo < 0
    ensures 0 <= monto ==> t.saldo <= s.saldo
    ensures 0 <= s.saldo && s.saldo - monto <= MaxInt32 ==> 0 <= t.saldo
    ensures t == s.(saldo := t.saldo)
  {
    if s.saldo >= monto then s.(saldo := Sub(s.saldo, monto)) else s
  }

  /** The guard compares before subtracting, so a negative amount passes it and
      `_saldo - monto` can leave the 32-bit range. From the initial balance a
      negative withdrawal wraps to a negative balance exactly when the amount
      is at most `InitialSaldo - MaxInt32 - 1`; withdrawing -1 from the largest
      balance wraps to the smallest. */
  lemma RetirarNegativeAmountWraps()
    ensures Retirar(Initial, MinInt32).saldo < 0
    ensures Retirar(Initial, MinInt32).saldo == InitialSaldo + MinInt32
    ensures forall m: int32 :: m < 0 ==>
              (Retirar(Initial, m).saldo < 0 <==> m <= InitialSaldo - MaxInt32 - 1)
    ensures Retirar(Initial.(saldo := MaxInt32), -1).saldo == MinInt32
  {
  }

  // FIFO queue

  /** `_cola.Enqueue(dato)`: joins at the back. */
  function Encolar(s: State, dato: string): (t: State)
    ensures |t.cola| == |s.cola| + 1
    ensures t.cola[..|s.cola|] == s.cola
    ensures t.cola[|s.cola|] == dato
    ensures t == s.(cola := t.cola)
  {
    s.(cola := s.cola + [dato])
  }

  /** `_cola.Dequeue()` after the emptiness check: the oldest element leaves
      and is returned; on an empty queue an `InvalidOperationException` is
      thrown before anything changes. */
  function Desencolar(s: State): (r: (State, Result<string>))
    ensures r.1.Thrown? <==> |s.cola| == 0
    ensures |s.cola| == 0 ==>
              r.0 == s && r.1 == Thrown(InvalidOperationException(EmptyQueueMessage))
    ensures r.1.Ok? ==> [r.1.value] + r.0.cola == s.cola
    ensures r.0 == s.(cola := r.0.cola)
  {
    if |s.cola| == 0 then
      (s, Thrown(InvalidOperationException(EmptyQueueMessage)))
    else
      (s.(cola := s.cola[1..]), Ok(s.cola[0]))
  }

  /** FIFO: on an empty queue the element just enqueued comes straight back;
      on a non-empty one, enqueuing at the back does not affect which element
      the next dequeue returns, nor what remains ahead of the new element. */
  lemma EncolarDesencolarFifo(s: State, dato: string)
    ensures |s.cola| == 0 ==> Desencolar(Encolar(s, dato)) == (s, Ok(dato))
    ensures |s.cola| > 0 ==>
              Desencolar(Encolar(s, dato)) == (Encolar(Desencolar(s).0, dato), Desencolar(s).1)
  {
    if |s.cola| > 0 {
      assert (s.cola + [dato])[1..] == s.cola[1..] + [dato];
    }
  }

  // Per-user counters

  /** Creates the entry at zero when missing, then `_contadores[usuario]++`. */
  function IncrementarUsuario(s: State, usuario: string): (t: State)
    ensures t.contadores.Keys == s.contadores.Keys + {usuario}
    ensures usuario !in s.contadores ==> t.contadores[usuario] == 1
    ensures usuario in s.contadores && s.contadores[usuario] < MaxInt32 ==>
              t.contadores[usuario] == s.contadores[usuario] + 1
    ensures usuario in s.contadores && s.contadores[usuario] == MaxInt32 ==>
              t.contadores[usuario] == MinInt32
    ensures forall k :: k in s.contadores && k != usuario ==> t.contadores[k] == s.contadores[k]
    ensures t == s.(contadores := t.contadores)
  {
    var m := if usuario !in s.contadores then s.contadores[usuario := 0] else s.contadores;
    s.(contadores := m[usuario := Add(m[usuario], 1)])
  }

  // Error log

  /** The task runs first, outside any lock; only when it throws is the
      exception's message appended to `_errores`, and only that append holds
      the lock. The step takes the task's outcome as given: whatever the task
      itself does to shared state happens in separate steps of its own. A task
      that completes changes nothing here. */
  function Procesar(s: State, tarea: TaskOutcome): (t: State)
    ensures tarea.Completes? ==> t == s
    ensures tarea.Throws? ==> |t.errores| == |s.errores| + 1
    ensures tarea.Throws? ==> t.errores[..|s.errores|] == s.errores
    ensures tarea.Throws? ==> t.errores[|s.errores|] == tarea.exception.message
    ensures t == s.(errores := t.errores)
  {
    match tarea
    case Completes => s
    case Throws(ex) => s.(errores := s.errores + [ex.message])
  }
}
