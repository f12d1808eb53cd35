# Lock examples: the critical sections as atomic state transitions

The C# repository is a set of small demonstrations of `lock`. In each of the
stateful examples, a static field is shared by several threads and changed
only inside a `lock` block on that field's own lock object. This project models
the sequential behaviour of those critical sections in `ejemplosEjecutables/LockExamples.cs`:

- the shared counter (`Incrementar`, `GetContador`);
- the message list (`AgregarMensaje`, `GetMensajes`);
- the bank balance (`Depositar`, and `Retirar` with its overdraft guard);
- the FIFO queue (`Encolar`, and `Desencolar`, which throws on an empty queue);
- the per-user counter map (`IncrementarUsuario`);
- the error log (`Procesar`);
- the bounded stock of `StockDemo` (`IntentarComprar`).

The lock is modelled only through what it guarantees: each locked block runs
atomically. Every modelled method except `Procesar` runs its whole body under
its lock. `Procesar` runs the task outside any lock and locks only the append
of the exception message, so its step stands for that locked append; whatever
the task itself does would be separate steps. Each step is therefore a pure
function from state to state, plus a reply where the method returns something.
A concurrent execution by any number of threads is a sequence of such steps
(`Schedule.Run`). Each whole-run lemma in `Schedule` holds for every schedule
that meets its `requires`, so for every scheduling of such calls the threads
could produce. The remaining lemmas there are one-step or sequence helpers.

Files:

- `csharp_int.dfy`: module `CSharpInt`. It covers C#'s 32-bit `int` and its
  default unchecked arithmetic, where overflow wraps around. The counter, the
  balance and the per-user counts are all `int` fields, so they wrap.
- `lock_examples.dfy`: module `LockExamples`. It holds the statics of the class
  as one immutable `State` and has one transition per locked critical section. An
  exception is a `Result` value, never a precondition.
- `stock_demo.dfy`: module `StockDemo`. This is the separate `StockDemo` class,
  whose stock starts at 5.
- `schedule.dfy`: module `Schedule`. It covers steps, replies, `Run` over a
  schedule, and the whole-run properties: no lost update, FIFO order, no
  overdraft, bounded purchases.

One behaviour of the code as written deserves mention. `Retirar` compares
before it subtracts, so from a non-negative balance a negative amount passes
the guard. The balance then rises by `-monto`, unless `saldo - monto` exceeds
`int.MaxValue`. In that case the unchecked subtraction wraps to a negative
balance. From the initial 1000 this happens for every amount from
`int.MinValue` up to -2147482648; withdrawing `int.MinValue` leaves
1000 + `int.MinValue`, and withdrawing -1 from `int.MaxValue` leaves
`int.MinValue` (`LockExamples.RetirarNegativeAmountWraps`). For non-negative
amounts the guard keeps the balance non-negative.

## Model

| member | source | states |
|---|---|---|
| CSharpInt.Add | ejemplosEjecutables/LockExamples.cs:68 | unchecked `int` addition: exact when the sum fits in 32 bits, otherwise off by exactly 2^32 |
| CSharpInt.Sub | ejemplosEjecutables/LockExamples.cs:77 | unchecked `int` subtraction: exact when the difference fits in 32 bits, otherwise off by exactly 2^32 |
| LockExamples.Incrementar | ejemplosEjecutables/LockExamples.cs:13-19 | the counter goes up by exactly one, wrapping from `int.MaxValue` to `int.MinValue`; no other field changes |
| LockExamples.AgregarMensaje | ejemplosEjecutables/LockExamples.cs:33-39 | the message is appended at the end, earlier messages stay in place and in order, nothing else changes |
| LockExamples.Depositar | ejemplosEjecutables/LockExamples.cs:64-70 | adds the amount with no guard: exact without overflow; on overflow the sum minus 2^32 (negative), on underflow the sum plus 2^32 (non-negative); only the balance changes |
| LockExamples.Retirar | ejemplosEjecutables/LockExamples.cs:72-79 | a balance below the amount leaves the state unchanged; otherwise the amount is subtracted, and when a negative amount makes the difference exceed `int.MaxValue` the result wraps to that difference minus 2^32, which is negative; a non-negative amount never raises the balance; a non-negative balance stays non-negative unless the subtraction overflows |
| LockExamples.RetirarNegativeAmountWraps | ejemplosEjecutables/LockExamples.cs:72-79 | withdrawing `int.MinValue` from the initial 1000 passes the guard and wraps to 1000 + `int.MinValue`; from 1000 a negative amount leaves a negative balance exactly when it is at most -2147482648; withdrawing -1 from `int.MaxValue` leaves `int.MinValue` |
| LockExamples.Encolar | ejemplosEjecutables/LockExamples.cs:85-91 | the element joins at the back, the elements ahead of it are kept in order, nothing else changes |
| LockExamples.Desencolar | ejemplosEjecutables/LockExamples.cs:93-101 | throws `InvalidOperationException("La cola está vacía.")` exactly when the queue is empty, leaving the state unchanged; otherwise returns the front element and the remainder is the rest of the queue |
| LockExamples.EncolarDesencolarFifo | ejemplosEjecutables/LockExamples.cs:85-101 | enqueue then dequeue on an empty queue returns the element just enqueued and restores the state; on a non-empty queue, enqueuing at the back commutes with dequeuing from the front |
| LockExamples.IncrementarUsuario | ejemplosEjecutables/LockExamples.cs:122-131 | the user's count becomes 1 if absent, otherwise one more (wrapping at 32 bits); the key set gains only that user, and every other user's count is unchanged |
| LockExamples.Procesar | ejemplosEjecutables/LockExamples.cs:148-161 | a task that completes changes nothing; a task that throws appends its exception message to the error log, keeping earlier entries |
| StockDemo.IntentarComprar | ejemplosEjecutables/LockExamples.cs:170-186 | returns true exactly when stock was positive, and then stock drops by one; otherwise the state is unchanged; stock never goes negative |
| Schedule.RunCounter | ejemplosEjecutables/LockExamples.cs:13-19 | under any interleaving, the counter ends at its start value plus the number of `Incrementar` calls (modulo 2^32): no update is lost |
| Schedule.CounterOrderIndependent | ejemplosEjecutables/LockExamples.cs:13-19 | two schedules made of the same calls in different orders leave the same counter |
| Schedule.ObserveCounter | ejemplosEjecutables/LockExamples.cs:13-27 | `GetContador` after a schedule returns start + increments and leaves the state unchanged |
| Schedule.RunMessages | ejemplosEjecutables/LockExamples.cs:33-39 | the list ends as its start followed by every added message, in schedule order |
| Schedule.ObserveMessages | ejemplosEjecutables/LockExamples.cs:41-47 | `GetMensajes` after a schedule returns exactly the list built so far and leaves the state unchanged |
| Schedule.RunQueue | ejemplosEjecutables/LockExamples.cs:85-101 | over any schedule, the values dequeued followed by what remains equal the initial queue followed by everything enqueued |
| Schedule.StepQueue | ejemplosEjecutables/LockExamples.cs:85-101 | the same conservation law for one step of any kind |
| Schedule.FifoFromEmpty | ejemplosEjecutables/LockExamples.cs:85-101 | from an empty queue, the dequeued values are a prefix of the enqueued values: first in, first out |
| Schedule.RunBalance | ejemplosEjecutables/LockExamples.cs:62-79 | from a non-negative balance, non-negative amounts with no deposit overflow keep the balance between 0 and start plus deposits |
| Schedule.RunUserCount | ejemplosEjecutables/LockExamples.cs:119-131 | each user's count ends at its start value (0 when absent) plus its increments, modulo 2^32; a user with no increments keeps its entry or its absence |
| Schedule.StepUserCount | ejemplosEjecutables/LockExamples.cs:122-131 | one `IncrementarUsuario(u)` step sets u to its old count (0 when absent) plus one, wrapped; any other step leaves u's entry, or its absence, as it was |
| Schedule.RunErrors | ejemplosEjecutables/LockExamples.cs:145-161 | the error log ends as its start followed by the messages of exactly the tasks that threw, in schedule order |
| Schedule.RunStock | ejemplosEjecutables/LockExamples.cs:167-186 | from a non-negative stock, exactly min(stock, attempts) purchases succeed under any interleaving, and the stock drops by that many |
| Schedule.AtMostFivePurchases | ejemplosEjecutables/LockExamples.cs:167-186 | from the initial stock of 5, at most five purchases succeed and the stock never goes negative |

## Left out

- The `lock` statement and `Monitor` (blocking, reentrancy, fairness) belong to the .NET runtime. They are modelled only as the assumption that each locked body runs atomically.
- `DeadlockEjemplo`, `DeadlockSafe` (the `Monitor.TryEnter` demo), `Logger`, `Inventario` and the other classes called from `ejemplosEjecutables/Program.cs` are not defined in `LockExamples.cs` and are not modelled.
- `ejemplosEjecutables/Program.cs` is a driver that starts threads, sleeps and prints. It has no logic of its own.
- `ImprimirSeguro` and the console output inside `IntentarComprar` are console I/O. Only the boolean result and the stock change are modelled.
- `GuardarLog` appends to a file, which is file I/O.
- `Transferir` nests two locks around an empty body, so there is no state change to model.
- `Procesar`: the `Action` is arbitrary caller code. It is modelled as its outcome only, either completing or throwing an exception with a message. Any effect the action itself has on shared state is not modelled.
- `GetContador` and `GetMensajes` are stated through `Schedule.ObserveCounter` and `Schedule.ObserveMessages`. Those lemmas say what a read returns at the end of a schedule and that the read changes no state. The functions carry no contract of their own. The copy made by `GetMensajes` is a sequence value, so later additions cannot show through it.
- Schedule.RunBalance: assumes non-negative amounts and no deposit overflow. `Depositar` has no guard, so a negative or overflowing deposit can make the balance negative, and the source does not promise otherwise.
- Null strings are not modelled, because Dafny's `string` has no null. In the source, `IncrementarUsuario(null)` throws `ArgumentNullException` from `_contadores.ContainsKey` (line 126). `AgregarMensaje(null)` and `Encolar(null)` store null, and `GetMensajes` and `Desencolar` later return it (lines 37, 89, 99).
- Checked arithmetic (`checked` blocks or the `CheckForOverflowUnderflow` project option) is not modelled. The model uses C#'s default unchecked wrap-around.
