/** Transaction commands: the amount bound applied when a withdraw or deposit
    command is built from a raw amount. Amounts (Java `double`) are modelled as
    mathematical reals. */
module Commands {

  /** Largest amount a withdraw or deposit command accepts. */
  const EntryLimit: real := 1000.0

  /** Which command was built: a withdrawal or a deposit. Both apply the same bound. */
  datatype Kind = Withdrawal | Deposit

  /** The entry-level range `(0, 1000]`. */
  predicate InEntryRange(amount: real)
  {
    0.0 < amount <= EntryLimit
  }

  /** The amount a freshly built command holds for a request of `requested`:
      the request itself when it is in range, otherwise the field's default. */
  function EntryAmount(requested: real): (stored: real)
    ensures 0.0 <= stored <= EntryLimit
    ensures stored != 0.0 <==> InEntryRange(requested)
    ensures stored != 0.0 ==> stored == requested
  {
    if InEntryRange(requested) then requested else 0.0
  }

  /** A withdraw or deposit command; `amount` starts at 0 and is set once, guarded by the bound. */
  class TransactionCommand {
    const kind: Kind
    var amount: real

    constructor (kind: Kind, requested: real)
      ensures this.kind == kind
      ensures amount == EntryAmount(requested)
    {
      this.kind := kind;
      amount := 0.0;
      new;
      SetAmount(requested);
    }

    /** Stores `requested` only when it lies in the entry range; otherwise the amount is kept. */
    method SetAmount(requested: real)
      modifies this
      ensures InEntryRange(requested) ==> amount == requested
      ensures !InEntryRange(requested) ==> amount == old(amount)
    {
      if requested > 0.0 && requested <= EntryLimit {
        amount := requested;
      }
    }
  }
}
