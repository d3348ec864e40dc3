/** The three ATM state handlers (idle, PIN entered, card inserted) as one
    datatype, and the effect of each handler operation on the handler's own
    fields. A handler never turns into another handler: only the ATM context
    replaces its current handler. */
module States {

  datatype Option<T> = None | Some(value: T)

  /** The balance every new PIN-entered or card-inserted handler starts with. */
  const InitialBalance: real := 1000.0

  /** The handler classes the ATM context can install. */
  datatype Handler = IdleHandler | PINEnteredHandler | CardInsertedHandler

  /** A handler together with the fields it owns. */
  datatype State =
    | Idle
    | PINEntered(balance: real, cardEjected: bool)
    | CardInserted(balance: real, pinEntered: bool)

  /** The state of a newly constructed handler: flags false, balance at its initial value. */
  function Fresh(h: Handler): (s: State)
    ensures s.Idle? <==> h.IdleHandler?
    ensures s.PINEntered? <==> h.PINEnteredHandler?
    ensures s.PINEntered? ==> !s.cardEjected
    ensures s.CardInserted? ==> !s.pinEntered
    ensures !s.Idle? ==> s.balance == InitialBalance
    ensures MayTransact(s) <==> h.PINEnteredHandler?
  {
    match h
    case IdleHandler => Idle
    case PINEnteredHandler => PINEntered(InitialBalance, false)
    case CardInsertedHandler => CardInserted(InitialBalance, false)
  }

  /** Whether the handler lets withdrawals, deposits and balance checks through. */
  predicate MayTransact(s: State)
  {
    match s
    case Idle => false
    case PINEntered(_, ejected) => !ejected
    case CardInserted(_, entered) => entered
  }

  /** The balance invariant: a handler that holds a balance holds a non-negative one. */
  predicate NonNegative(s: State)
  {
    s.Idle? || s.balance >= 0.0
  }

  /** `t` is the same handler as `s` with the same flag; only the balance may differ. */
  predicate SameHandler(s: State, t: State)
  {
    match s
    case Idle => t == Idle
    case PINEntered(_, ejected) => t.PINEntered? && t.cardEjected == ejected
    case CardInserted(_, entered) => t.CardInserted? && t.pinEntered == entered
  }

  /** A withdrawal the handler carries out: it is open to transactions and the
      amount is positive and covered by the balance. */
  predicate AcceptsWithdrawal(s: State, amount: real)
  {
    MayTransact(s) && 0.0 < amount <= s.balance
  }

  /** A deposit the handler carries out: it is open to transactions and the amount is positive. */
  predicate AcceptsDeposit(s: State, amount: real)
  {
    MayTransact(s) && amount > 0.0
  }

  /** `ejectCard` on the handler itself. */
  function HandleEject(s: State): (t: State)
    ensures t.Idle? == s.Idle? && t.PINEntered? == s.PINEntered?
    ensures !s.Idle? ==> t.balance == s.balance
    ensures !MayTransact(t)
  {
    match s
    case Idle => s
    case PINEntered(b, ejected) =>
      if !ejected then PINEntered(b, true) else s
    case CardInserted(b, _) => CardInserted(b, false)
  }

  /** `enterPIN` on the handler itself: only the card-inserted handler reacts. */
  function HandleEnterPin(s: State): (t: State)
    ensures !s.CardInserted? ==> t == s
    ensures s.CardInserted? ==> t.CardInserted? && t.balance == s.balance && MayTransact(t)
  {
    match s
    case CardInserted(b, entered) =>
      if !entered then CardInserted(b, true) else s
    case _ => s
  }

  /** `withdrawCash` on the handler: the balance drops by exactly `amount` when
      the withdrawal is accepted, and nothing changes otherwise. */
  function HandleWithdraw(s: State, amount: real): (t: State)
    ensures SameHandler(s, t)
    ensures t != s <==> AcceptsWithdrawal(s, amount)
    ensures t != s ==> t.balance == s.balance - amount
    ensures NonNegative(s) ==> NonNegative(t)
  {
    match s
    case Idle => s
    case PINEntered(b, ejected) =>
      if !ejected && amount > 0.0 && amount <= b then PINEntered(b - amount, ejected) else s
    case CardInserted(b, entered) =>
      if entered && amount > 0.0 && amount <= b then CardInserted(b - amount, entered) else s
  }

  /** `depositCash` on the handler: the balance grows by exactly `amount` when
      the deposit is accepted (no upper bound here), and nothing changes otherwise. */
  function HandleDeposit(s: State, amount: real): (t: State)
    ensures SameHandler(s, t)
    ensures t != s <==> AcceptsDeposit(s, amount)
    ensures t != s ==> t.balance == s.balance + amount
    ensures NonNegative(s) ==> NonNegative(t)
  {
    match s
    case Idle => s
    case PINEntered(b, ejected) =>
      if !ejected && amount > 0.0 then PINEntered(b + amount, ejected) else s
    case CardInserted(b, entered) =>
      if entered && amount > 0.0 then CardInserted(b + amount, entered) else s
  }

  /** The balance `checkBalance` displays, if the handler displays one. */
  function HandleCheckBalance(s: State): (shown: Option<real>)
    ensures shown.Some? <==> MayTransact(s)
    ensures shown.Some? ==> shown.value == s.balance
  {
    match s
    case Idle => None
    case PINEntered(b, ejected) => if !ejected then Some(b) else None
    case CardInserted(b, entered) => if entered then Some(b) else None
  }

  /** The six operations of the handler interface. */
  datatype Request =
    | InsertCard
    | EjectCard
    | EnterPIN
    | WithdrawCash(amount: real)
    | DepositCash(amount: real)
    | CheckBalance

  /** One operation on a handler. `insertCard` and `checkBalance` only report. */
  function Handle(s: State, r: Request): (t: State)
    ensures s.Idle? ==> t == Idle
    ensures r.InsertCard? || r.CheckBalance? ==> t == s
    ensures !s.Idle? ==> !t.Idle? && t.PINEntered? == s.PINEntered?
    ensures NonNegative(s) ==> NonNegative(t)
  {
    match r
    case InsertCard => s
    case EjectCard => HandleEject(s)
    case EnterPIN => HandleEnterPin(s)
    case WithdrawCash(a) => HandleWithdraw(s, a)
    case DepositCash(a) => HandleDeposit(s, a)
    case CheckBalance => s
  }

  /** A sequence of operations on one handler, first to last. */
  function HandleAll(s: State, rs: seq<Request>): (t: State)
    decreases |rs|
  {
    if rs == [] then s else HandleAll(Handle(s, rs[0]), rs[1..])
  }

  /** Whatever a handler is asked, its balance never becomes negative. */
  lemma {:induction false} HandleAllKeepsNonNegative(s: State, rs: seq<Request>)
    requires NonNegative(s)
    ensures NonNegative(HandleAll(s, rs))
    decreases |rs|
  {
    if rs != [] {
      HandleAllKeepsNonNegative(Handle(s, rs[0]), rs[1..]);
    }
  }

  /** A new PIN-entered handler never shows a negative balance. */
  lemma FreshSessionNeverNegative(rs: seq<Request>)
    ensures NonNegative(HandleAll(Fresh(PINEnteredHandler), rs))
  {
    HandleAllKeepsNonNegative(Fresh(PINEnteredHandler), rs);
  }

  /** The idle handler refuses everything and changes nothing. */
  lemma {:induction false} IdleIgnoresAll(rs: seq<Request>)
    ensures HandleAll(Idle, rs) == Idle
    decreases |rs|
  {
    if rs != [] {
      IdleIgnoresAll(rs[1..]);
    }
  }

  /** Once a PIN-entered handler has ejected its card, no operation changes it. */
  lemma {:induction false} EjectedHandlerIsInert(b: real, rs: seq<Request>)
    ensures HandleAll(PINEntered(b, true), rs) == PINEntered(b, true)
    decreases |rs|
  {
    if rs != [] {
      EjectedHandlerIsInert(b, rs[1..]);
    }
  }

  /** Until a PIN is entered, a card-inserted handler keeps its balance and flag,
      whatever withdrawals, deposits, checks and ejects it is asked for. */
  lemma {:induction false} LockedCardKeepsBalance(b: real, rs: seq<Request>)
    requires forall i :: 0 <= i < |rs| ==> rs[i] != EnterPIN
    ensures HandleAll(CardInserted(b, false), rs) == CardInserted(b, false)
    decreases |rs|
  {
    if rs != [] {
      assert rs[0] != EnterPIN;
      LockedCardKeepsBalance(b, rs[1..]);
    }
  }

  /** Entering the PIN twice is the same as entering it once. */
  lemma EnterPinIdempotent(s: State)
    ensures HandleEnterPin(HandleEnterPin(s)) == HandleEnterPin(s)
  {
  }

  /** On a card-inserted handler, entering the PIN and ejecting the card set and reset the flag. */
  lemma EjectUndoesEnterPin(b: real, entered: bool)
    ensures HandleEject(HandleEnterPin(CardInserted(b, entered))) == CardInserted(b, false)
    ensures HandleEnterPin(HandleEject(CardInserted(b, entered))) == CardInserted(b, true)
  {
  }

  /** A deposit of the amount just withdrawn restores the handler. */
  lemma DepositUndoesWithdraw(s: State, amount: real)
    requires AcceptsWithdrawal(s, amount)
    ensures HandleDeposit(HandleWithdraw(s, amount), amount) == s
  {
  }

  /** A withdrawal of the amount just deposited is accepted and restores the handler. */
  lemma WithdrawUndoesDeposit(s: State, amount: real)
    requires AcceptsDeposit(s, amount)
    requires NonNegative(s)
    ensures AcceptsWithdrawal(HandleDeposit(s, amount), amount)
    ensures HandleWithdraw(HandleDeposit(s, amount), amount) == s
  {
  }
}
