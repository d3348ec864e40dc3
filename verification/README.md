# ATM session state machine

A model of the session core of the ATM console simulator: the `ATM` context
that holds its current state handler and replaces it on card and PIN events,
the three handlers (`IdleState`, `PINEnteredState`, `CardInsertedState`) with
the balance and flags each owns, and the entry-level amount bound of the
withdraw and deposit commands.

- `commands.dfy`, module `Commands`: the `(0, 1000]` bound that
  `WithdrawCommand.setAmount` and `DepositCommand.setAmount` apply, as the class
  `TransactionCommand` whose `amount` starts at 0 and is set only when the
  request is in range.
- `states.dfy`, module `States`: the handlers as one datatype
  `Idle | PINEntered(balance, cardEjected) | CardInserted(balance, pinEntered)`,
  and the effect of each handler operation on the handler's own fields. The
  card-inserted handler is modelled as the self-contained machine it is, even
  though the ATM never installs it.
- `atm.dfy`, module `Machine`: the class `ATM` with a `state` field that its
  methods reassign, the function `Step` that specifies them, `Run` for
  sequences of operations, and the lemmas about whole sessions.

Amounts (Java `double`) are mathematical reals. The PIN that `insertCard`
reads from the console is a parameter, and the balance that `checkBalance`
prints is returned as an `Option<real>`.

The three state classes suggest the flow insert card → `CardInsertedState` →
`enterPIN` → `PINEnteredState`. The `ATM` context does not follow it, and the
model follows what the context does:
- `insertCard` takes the PIN at once; a correct PIN installs a new PIN-entered
  handler with balance 1000 and any other PIN ejects the card. The prior state
  is ignored, so inserting over an open session starts a new one.
- `enterPIN` installs a new PIN-entered handler from any state, Idle included.
- Every new PIN-entered handler starts at 1000; nothing carries over between sessions.
- The session's withdraw and deposit go straight to the handler, never through
  the commands, so the 1000 bound does not apply there: a withdrawal of 1500
  succeeds once the balance covers it (`Machine.SessionIgnoresEntryBound`).
  Deposits have no upper bound at all.
- Ejecting from Idle still ends in Idle with no error result.

## Model

| member | source | states |
|---|---|---|
| `Commands.EntryAmount` | ATMConsoleApp.java:49-55 | The amount a command built from a request holds is never outside `[0, 1000]`; it is non-zero exactly when the request is in `(0, 1000]`, and then it is the request. The deposit copy at lines 69-75 is identical. |
| `Commands.TransactionCommand.SetAmount` | ATMConsoleApp.java:69-75 | An in-range request is stored; any other request leaves the amount as it was. |
| `Commands.TransactionCommand.constructor` | ATMConsoleApp.java:43-47 | A new withdraw or deposit command holds `EntryAmount(requested)`: the request when accepted, 0 otherwise. |
| `States.Fresh` | ATMConsoleApp.java:221-225 | A newly constructed handler is of the requested kind, holds balance 1000 and has its flag false (lines 221-225 and 322-325); only a new PIN-entered handler lets transactions through. |
| `States.HandleEject` | ATMConsoleApp.java:232-240 | A handler's own `ejectCard` keeps its kind and balance and always leaves it closed to transactions (card marked ejected, or PIN flag reset as at lines 333-336; Idle unchanged). |
| `States.HandleEnterPin` | ATMConsoleApp.java:338-346 | Only the card-inserted handler reacts to `enterPIN`: it becomes open to transactions with its balance kept; every other handler is unchanged. |
| `States.HandleWithdraw` | ATMConsoleApp.java:248-260 | The handler changes iff it is open (card not ejected, or PIN entered as at lines 349-361) and `0 < amount <= balance`; then the balance drops by exactly `amount` and nothing else changes; a non-negative balance stays non-negative. |
| `States.HandleDeposit` | ATMConsoleApp.java:262-275 | The handler changes iff it is open and `amount > 0`; then the balance grows by exactly `amount` and nothing else changes. |
| `States.HandleCheckBalance` | ATMConsoleApp.java:277-285 | A balance is shown exactly when the handler is open, and it is the current balance. |
| `States.Handle` | ATMConsoleApp.java:207-219 | No handler operation replaces the handler: Idle stays Idle, the other kinds keep their kind; `insertCard` and `checkBalance` change nothing; non-negativity is kept. |
| `States.HandleAllKeepsNonNegative` | ATMConsoleApp.java:248-275 | After any sequence of handler operations, a non-negative balance is still non-negative. |
| `States.FreshSessionNeverNegative` | ATMConsoleApp.java:224 | Starting from the initial 1000, a PIN-entered handler's balance is never negative after any sequence of operations. |
| `States.IdleIgnoresAll` | ATMConsoleApp.java:289-319 | The idle handler is unchanged by every sequence of operations. |
| `States.EjectedHandlerIsInert` | ATMConsoleApp.java:248-285 | Once a PIN-entered handler has ejected its card, no sequence of operations changes it. |
| `States.LockedCardKeepsBalance` | ATMConsoleApp.java:332-386 | Until `enterPIN`, a card-inserted handler keeps its balance and flag under any sequence of other operations. |
| `States.EnterPinIdempotent` | ATMConsoleApp.java:339-346 | Entering the PIN twice has the effect of entering it once. |
| `States.EjectUndoesEnterPin` | ATMConsoleApp.java:332-346 | On a card-inserted handler, `ejectCard` after `enterPIN` resets the flag and `enterPIN` after `ejectCard` sets it, balance untouched. |
| `States.DepositUndoesWithdraw` | ATMConsoleApp.java:248-275 | Depositing the amount just withdrawn restores the handler exactly. |
| `States.WithdrawUndoesDeposit` | ATMConsoleApp.java:248-275 | Withdrawing the amount just deposited is accepted and restores the handler exactly. |
| `Machine.Authenticated` | ATMConsoleApp.java:163-164 | The state after a correct PIN is a PIN-entered handler, card not ejected, balance 1000. |
| `Machine.Step` | ATMConsoleApp.java:155-191 | Eject always ends Idle; PIN entry always ends in a new authenticated session; insertion ends authenticated iff the PIN is 1234 and Idle otherwise; a balance check changes nothing; non-negativity is kept. |
| `Machine.ATM.constructor` | ATMConsoleApp.java:145-148 | A new ATM is Idle. |
| `Machine.ATM.SetState` | ATMConsoleApp.java:150-153 | The ATM now holds a newly constructed handler of the given kind. |
| `Machine.ATM.InsertCard` | ATMConsoleApp.java:155-169 | With PIN 1234 the ATM holds `PINEntered(1000, false)`, with any other PIN it is Idle, whatever it held before. |
| `Machine.ATM.EjectCard` | ATMConsoleApp.java:171-174 | The ATM is Idle afterwards, whatever it held before. |
| `Machine.ATM.EnterPIN` | ATMConsoleApp.java:176-179 | The ATM holds `PINEntered(1000, false)` afterwards, even from Idle. |
| `Machine.ATM.WithdrawCash` | ATMConsoleApp.java:181-183 | The state changes iff the current handler accepts the withdrawal, and then only its balance, down by exactly `amount`; the balance invariant is kept. |
| `Machine.ATM.DepositCash` | ATMConsoleApp.java:185-187 | The state changes iff the current handler accepts the deposit, and then only its balance, up by exactly `amount`. |
| `Machine.ATM.CheckBalance` | ATMConsoleApp.java:189-191 | Changes nothing; returns the balance exactly when the current handler is open. |
| `Machine.RunKeepsNonNegative` | ATMConsoleApp.java:181-187 | After any sequence of ATM operations a non-negative balance stays non-negative. |
| `Machine.RunStaysInMainFlow` | ATMConsoleApp.java:155-179 | From Idle, the ATM's own operations only ever yield Idle or an open PIN-entered handler with a non-negative balance: the card-inserted handler and an ejected-card PIN-entered handler are never reached. |
| `Machine.RunAppend` | ATMConsoleApp.java:181-191 | Running one more operation after a sequence is one more step. |
| `Machine.EndsIdleAfterEject` | ATMConsoleApp.java:171-174 | Any sequence of operations that ends with an eject leaves the ATM Idle. |
| `Machine.EjectTwice` | ATMConsoleApp.java:295-297 | Ejecting twice yields Idle after each call. |
| `Machine.InsertIgnoresPriorState` | ATMConsoleApp.java:155-169 | Card insertion yields the same state from any prior state. |
| `Machine.SessionScenario` | ATMConsoleApp.java:163-191 | Correct PIN, withdraw 300, deposit 50: balance 750, shown by the balance check; ejecting then yields Idle. |
| `Machine.RefusalScenarios` | ATMConsoleApp.java:163-183 | A wrong PIN leaves Idle; a withdrawal of any amount above a non-negative balance leaves the session unchanged (line 250); a withdrawal of any amount leaves an idle ATM unchanged (lines 305-307). |
| `Machine.SessionIgnoresEntryBound` | ATMConsoleApp.java:181-183 | A withdrawal of 1500, outside the commands' entry range, succeeds in a session whose balance is 2000. |

## Left out

- Console I/O: every printed message, the `Scanner` reads (the PIN becomes a parameter of `InsertCard`; a non-numeric entry and its exception are not modelled) and the `main` menu loop.
- The observer channel (`Observer`, `ATMUserInterface`, `addObserver`, `notifyUserInterface` and the class-name string built in `setState`): it only prints.
- The strategy classes, the factories, the `execute` methods of the commands and `ATM.executeOperation` with its operation commands: they only print or forward to methods that are modelled. `getAmount` is the `amount` field itself.
- Machine.ATM.SetState: takes the kind of a newly constructed handler; installing a handler object the caller kept and mutated elsewhere (aliasing) is not modelled.
- IEEE-754 rounding, NaN and infinities of `double` amounts and balances: amounts are exact reals, so the balance deltas are exact.
