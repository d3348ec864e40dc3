/** The ATM context: it holds the current handler and replaces it on card and
    PIN events; transactions go to whichever handler is current. */
module Machine {
  import States
  import Commands

  /** The one PIN the terminal accepts. */
  const CorrectPin: int := 1234

  /** The session operations of the ATM context, with the PIN typed at card insertion as a parameter. */
  datatype Command =
    | Insert(pin: int)
    | Eject
    | EnterPin
    | Withdraw(amount: real)
    | Deposit(amount: real)
    | Check

  /** The state right after a correct PIN: a new PIN-entered handler. */
  function Authenticated(): (s: States.State)
    ensures s.PINEntered? && !s.cardEjected && s.balance == States.InitialBalance
  {
    States.Fresh(States.PINEnteredHandler)
  }

  /** The state the ATM context is in after one operation. The handler's own
      reaction to eject and PIN entry acts on a handler that is discarded right
      after, so only the replacement is visible. */
  function Step(s: States.State, c: Command): (t: States.State)
    ensures c.Eject? ==> t == States.Idle
    ensures c.EnterPin? ==> t == Authenticated()
    ensures c.Insert? && c.pin == CorrectPin ==> t == Authenticated()
    ensures c.Insert? && c.pin != CorrectPin ==> t == States.Idle
    ensures c.Check? ==> t == s
    ensures States.NonNegative(s) ==> States.NonNegative(t)
  {
    match c
    case Insert(pin) =>
      if pin == CorrectPin then States.Fresh(States.PINEnteredHandler) else States.Fresh(States.IdleHandler)
    case Eject => States.Fresh(States.IdleHandler)
    case EnterPin => States.Fresh(States.PINEnteredHandler)
    case Withdraw(a) => States.HandleWithdraw(s, a)
    case Deposit(a) => States.HandleDeposit(s, a)
    case Check => s
  }

  /** A sequence of operations on the ATM context, first to last. */
  function Run(s: States.State, cs: seq<Command>): (t: States.State)
    decreases |cs|
  {
    if cs == [] then s else Run(Step(s, cs[0]), cs[1..])
  }

  /** The states the ATM context reaches through its own operations: idle, or
      a PIN-entered handler whose card is not ejected, with a non-negative balance. */
  predicate InMainFlow(s: States.State)
  {
    s.Idle? || (s.PINEntered? && !s.cardEjected && s.balance >= 0.0)
  }

  class ATM {
    var state: States.State

    /** The balance invariant every ATM keeps. */
    ghost predicate Valid()
      reads this
    {
      States.NonNegative(state)
    }

    constructor ()
      ensures Valid() && state == States.Idle
    {
      state := States.Idle;
    }

    /** Installs a newly constructed handler of kind `h`. */
    method SetState(h: States.Handler)
      modifies this
      ensures Valid() && state == States.Fresh(h)
    {
      state := States.Fresh(h);
    }

    /** Inserting the card and typing `pin`: the correct PIN opens a new session
        with the initial balance, any other PIN ejects the card; the prior state plays no part. */
    method InsertCard(pin: int)
      modifies this
      ensures Valid() && state == Step(old(state), Insert(pin))
      ensures pin == CorrectPin ==> state == States.PINEntered(States.InitialBalance, false)
      ensures pin != CorrectPin ==> state == States.Idle
    {
      if pin == CorrectPin {
        SetState(States.PINEnteredHandler);
      } else {
        EjectCard();
      }
    }

    /** Ejecting the card always leaves the ATM idle. */
    method EjectCard()
      modifies this
      ensures Valid() && state == Step(old(state), Eject)
      ensures state == States.Idle
    {
      state := States.HandleEject(state);
      SetState(States.IdleHandler);
    }

    /** Entering the PIN always installs a new PIN-entered handler, even from idle. */
    method EnterPIN()
      modifies this
      ensures Valid() && state == Step(old(state), EnterPin)
      ensures state == States.PINEntered(States.InitialBalance, false)
    {
      state := States.HandleEnterPin(state);
      SetState(States.PINEnteredHandler);
    }

    /** Withdrawal, delegated to the current handler. */
    method WithdrawCash(amount: real)
      requires Valid()
      modifies this
      ensures Valid() && state == Step(old(state), Withdraw(amount))
      ensures States.SameHandler(old(state), state)
      ensures state != old(state) <==> States.AcceptsWithdrawal(old(state), amount)
      ensures state != old(state) ==> state.balance == old(state).balance - amount
    {
      state := States.HandleWithdraw(state, amount);
    }

    /** Deposit, delegated to the current handler. */
    method DepositCash(amount: real)
      requires Valid()
      modifies this
      ensures Valid() && state == Step(old(state), Deposit(amount))
      ensures States.SameHandler(old(state), state)
      ensures state != old(state) <==> States.AcceptsDeposit(old(state), amount)
      ensures state != old(state) ==> state.balance == old(state).balance + amount
    {
      state := States.HandleDeposit(state, amount);
    }

    /** Balance check, delegated to the current handler; it returns the balance
        the handler displays and changes nothing. */
    method CheckBalance() returns (shown: States.Option<real>)
      ensures shown.Some? <==> States.MayTransact(state)
      ensures shown.Some? ==> shown.value == state.balance
    {
      shown := States.HandleCheckBalance(state);
    }
  }

  /** Whatever the ATM is asked, a non-negative balance stays non-negative. */
  lemma {:induction false} RunKeepsNonNegative(s: States.State, cs: seq<Command>)
    requires States.NonNegative(s)
    ensures States.NonNegative(Run(s, cs))
    decreases |cs|
  {
    if cs != [] {
      RunKeepsNonNegative(Step(s, cs[0]), cs[1..]);
    }
  }

  /** Through its own operations the ATM never reaches the card-inserted
      handler and never holds a handler whose card is marked ejected. */
  lemma {:induction false} RunStaysInMainFlow(s: States.State, cs: seq<Command>)
    requires InMainFlow(s)
    ensures InMainFlow(Run(s, cs))
    ensures !Run(s, cs).CardInserted?
    decreases |cs|
  {
    if cs != [] {
      var t := Step(s, cs[0]);
      assert InMainFlow(t);
      RunStaysInMainFlow(t, cs[1..]);
    }
  }

  /** Ejecting twice leaves the ATM idle both times. */
  lemma EjectTwice(s: States.State)
    ensures Step(s, Eject) == States.Idle
    ensures Run(s, [Eject, Eject]) == States.Idle
  {
    assert Run(s, [Eject, Eject]) == Run(States.Idle, [Eject]);
  }

  /** Card insertion ignores the prior state. */
  lemma InsertIgnoresPriorState(s: States.State, u: States.State, pin: int)
    ensures Step(s, Insert(pin)) == Step(u, Insert(pin))
  {
  }

  /** Running one more operation after a sequence is one more step. */
  lemma {:induction false} RunAppend(s: States.State, cs: seq<Command>, c: Command)
    ensures Run(s, cs + [c]) == Step(Run(s, cs), c)
    decreases |cs|
  {
    if cs != [] {
      assert (cs + [c])[1..] == cs[1..] + [c];
      RunAppend(Step(s, cs[0]), cs[1..], c);
    }
  }

  /** Whatever happened before, ejecting the card at the end leaves the ATM idle. */
  lemma EndsIdleAfterEject(s: States.State, cs: seq<Command>)
    ensures Run(s, cs + [Eject]) == States.Idle
  {
    RunAppend(s, cs, Eject);
  }

  /** A session from idle: correct PIN, withdraw 300, deposit 50, check shows 750, eject. */
  lemma SessionScenario()
    ensures Run(States.Idle, [Insert(CorrectPin), Withdraw(300.0), Deposit(50.0)]) == States.PINEntered(750.0, false)
    ensures States.HandleCheckBalance(States.PINEntered(750.0, false)) == States.Some(750.0)
    ensures Run(States.Idle, [Insert(CorrectPin), Withdraw(300.0), Deposit(50.0), Check, Eject]) == States.Idle
  {
    var cs := [Insert(CorrectPin), Withdraw(300.0), Deposit(50.0)];
    assert Run(States.Idle, cs) == Run(Authenticated(), cs[1..]);
    assert Run(Authenticated(), cs[1..]) == Run(States.PINEntered(700.0, false), cs[2..]);
    assert Run(States.PINEntered(700.0, false), cs[2..]) == Run(States.PINEntered(750.0, false), []);
    EndsIdleAfterEject(States.Idle, cs + [Check]);
    assert cs + [Check] + [Eject] == [Insert(CorrectPin), Withdraw(300.0), Deposit(50.0), Check, Eject];
  }

  /** A wrong PIN leaves the ATM idle, a withdrawal above the balance changes
      nothing, and no withdrawal changes an idle ATM. */
  lemma RefusalScenarios(pin: int, b: real, a: real)
    requires pin != CorrectPin
    requires 0.0 <= b < a
    ensures Step(States.Idle, Insert(pin)) == States.Idle
    ensures Step(States.PINEntered(b, false), Withdraw(a)) == States.PINEntered(b, false)
    ensures forall w :: Step(States.Idle, Withdraw(w)) == States.Idle
  {
  }

  /** The ATM context applies only the handler's rules: an amount outside the
      commands' entry range is still withdrawn when the balance covers it. */
  lemma SessionIgnoresEntryBound()
    ensures !Commands.InEntryRange(1500.0)
    ensures Run(States.Idle, [Insert(CorrectPin), Deposit(1000.0), Withdraw(1500.0)]) == States.PINEntered(500.0, false)
  {
    var cs := [Insert(CorrectPin), Deposit(1000.0), Withdraw(1500.0)];
    assert Run(States.Idle, cs) == Run(Authenticated(), cs[1..]);
    assert Run(Authenticated(), cs[1..]) == Run(States.PINEntered(2000.0, false), cs[2..]);
    assert Run(States.PINEntered(2000.0, false), cs[2..]) == Run(States.PINEntered(500.0, false), []);
  }
}
