/**
  The wallet ledger of user_wallet/models.py: a balance that `deduct_balance`
  and `add_balance` change in place, each change paired with one
  `WalletTransaction` audit record carrying the signed amount and the balance
  after it.
*/
module Ledger {
  import opened Common

  /** A `WalletTransaction` row: signed amount (negative for a debit) and the balance after it. */
  datatype Transaction = Transaction(kind: string, amount: int, balanceAfter: int, description: string, game: Option<nat>)

  /** The value of a wallet: its balance and its transactions, oldest first. */
  datatype Account = Account(balance: int, transactions: seq<Transaction>)

  /** Sum of the signed amounts of a transaction history. */
  function Total(ts: seq<Transaction>): int
  {
    if ts == [] then 0 else Total(ts[..|ts| - 1]) + ts[|ts| - 1].amount
  }

  /**
    Every record's `balance_after` is the running total of the amounts up to
    and including it.
  */
  ghost predicate Recorded(ts: seq<Transaction>)
    decreases |ts|
  {
    ts == [] || (Recorded(ts[..|ts| - 1]) && ts[|ts| - 1].balanceAfter == Total(ts))
  }

  /** The ledger invariant: the balance is the sum of every recorded amount, and every record shows its running total. */
  ghost predicate Consistent(a: Account)
  {
    a.balance == Total(a.transactions) && Recorded(a.transactions)
  }

  lemma PrefixOfPrefix<T>(s: seq<T>, n: nat, m: nat)
    requires m <= n <= |s|
    ensures s[..n][..m] == s[..m]
  {
  }

  /**
    In a history that satisfies `Recorded`, the `balance_after` of record `k`
    is the total of the amounts of records 0 to `k`.
  */
  lemma {:induction false} RecordedRunningTotal(ts: seq<Transaction>, k: nat)
    requires Recorded(ts) && k < |ts|
    ensures ts[k].balanceAfter == Total(ts[..k + 1])
    decreases |ts|
  {
    if k < |ts| - 1 {
      RecordedRunningTotal(ts[..|ts| - 1], k);
      PrefixOfPrefix(ts, |ts| - 1, k + 1);
      assert ts[..|ts| - 1][k] == ts[k];
    } else {
      assert ts[..k + 1] == ts;
    }
  }

  /** The welcome balance and its record, as chat/signals.py:31-44 create them. */
  const WelcomeBonus := 100000

  function Opening(): (a: Account)
    ensures Consistent(a) && a.balance == WelcomeBonus
  {
    var t := Transaction("initial", WelcomeBonus, WelcomeBonus, "Welcome bonus - Initial balance", None);
    assert [t][..0] == [];
    Account(WelcomeBonus, [t])
  }

  /** `add_balance`: raise the balance by `amount` and record `+amount`. */
  function Credit(a: Account, amount: int, kind: string, description: string, game: Option<nat>): Account
  {
    var b := a.balance + amount;
    Account(b, a.transactions + [Transaction(kind, amount, b, description, game)])
  }

  /** `deduct_balance`: `None` where the source raises `ValueError`; otherwise lower the balance and record `-amount`. */
  function Debit(a: Account, amount: int, kind: string, description: string, game: Option<nat>): Option<Account>
  {
    if a.balance < amount then None
    else
      var b := a.balance - amount;
      Some(Account(b, a.transactions + [Transaction(kind, -amount, b, description, game)]))
  }

  /** Appending a record whose `balance_after` is the new total keeps the ledger consistent. */
  lemma AppendKeepsConsistent(a: Account, t: Transaction)
    requires Consistent(a) && t.balanceAfter == a.balance + t.amount
    ensures Consistent(Account(a.balance + t.amount, a.transactions + [t]))
  {
    var ts' := a.transactions + [t];
    assert ts'[..|ts'| - 1] == a.transactions;
  }

  /** A credit keeps the ledger invariant and raises the balance by exactly `amount`. */
  lemma CreditConsistent(a: Account, amount: int, kind: string, description: string, game: Option<nat>)
    requires Consistent(a)
    ensures Consistent(Credit(a, amount, kind, description, game))
    ensures Credit(a, amount, kind, description, game).balance == a.balance + amount
  {
    AppendKeepsConsistent(a, Transaction(kind, amount, a.balance + amount, description, game));
  }

  /**
    A debit fails exactly on insufficient funds, and then changes nothing;
    otherwise it keeps the ledger invariant, lowers the balance by exactly
    `amount`, and (for a non-negative amount) never makes it negative.
  */
  lemma DebitConsistent(a: Account, amount: int, kind: string, description: string, game: Option<nat>)
    requires Consistent(a)
    ensures Debit(a, amount, kind, description, game).None? <==> a.balance < amount
    ensures Debit(a, amount, kind, description, game).Some? ==>
      var a' := Debit(a, amount, kind, description, game).value;
      Consistent(a') && a'.balance == a.balance - amount && a'.balance >= 0
  {
    if a.balance >= amount {
      AppendKeepsConsistent(a, Transaction(kind, -amount, a.balance - amount, description, game));
    }
  }

  /** The newest record always shows the current balance. */
  lemma LatestRecordShowsBalance(a: Account)
    requires Consistent(a) && |a.transactions| > 0
    ensures a.transactions[|a.transactions| - 1].balanceAfter == a.balance
  {
    assert a.transactions[..|a.transactions|] == a.transactions;
  }

  /** `add_balance(x)` followed by `deduct_balance(x)` succeeds and restores the balance. */
  lemma CreditThenDebitRestores(a: Account, amount: int, kind: string, description: string, game: Option<nat>,
                                kind': string, description': string, game': Option<nat>)
    requires a.balance >= 0
    ensures Debit(Credit(a, amount, kind, description, game), amount, kind', description', game').Some?
    ensures Debit(Credit(a, amount, kind, description, game), amount, kind', description', game').value.balance == a.balance
  {
  }

  /** One ledger operation, as the callers of a wallet issue them. */
  datatype Op = Add(amount: int) | Deduct(amount: int)

  /** The account after one operation; a deduction that raises leaves it as it was. */
  function Apply(a: Account, op: Op): Account
  {
    match op
    case Add(x) => Credit(a, x, "game_win", "", None)
    case Deduct(x) => var r := Debit(a, x, "game_bet", "", None); if r.Some? then r.value else a
  }

  /** The account after a sequence of operations. */
  function ApplyAll(a: Account, ops: seq<Op>): Account
    decreases |ops|
  {
    if ops == [] then a else ApplyAll(Apply(a, ops[0]), ops[1..])
  }

  /**
    Over any sequence of operations the ledger stays consistent (the balance
    is the sum of the recorded amounts and every record shows the running
    total), and with non-negative amounts the balance never goes below zero.
  */
  lemma {:induction false} ApplyAllConsistent(a: Account, ops: seq<Op>)
    requires Consistent(a) && a.balance >= 0
    requires forall i :: 0 <= i < |ops| ==> ops[i].amount >= 0
    ensures Consistent(ApplyAll(a, ops)) && ApplyAll(a, ops).balance >= 0
    decreases |ops|
  {
    if ops != [] {
      match ops[0] {
        case Add(x) => CreditConsistent(a, x, "game_win", "", None);
        case Deduct(x) => DebitConsistent(a, x, "game_bet", "", None);
      }
      ApplyAllConsistent(Apply(a, ops[0]), ops[1..]);
    }
  }

  /** The `Wallet` row: a balance updated in place and its audit records. */
  class Wallet {
    var balance: int
    var transactions: seq<Transaction>

    function State(): Account
      reads this
    {
      Account(balance, transactions)
    }

    ghost predicate Valid()
      reads this
    {
      Consistent(State())
    }

    /** A new user's wallet: the welcome balance and its record. */
    constructor ()
      ensures Valid() && State() == Opening()
    {
      balance := WelcomeBonus;
      transactions := Opening().transactions;
    }

    /** `has_sufficient_balance`. */
    function HasSufficientBalance(amount: int): (ok: bool)
      reads this
      ensures ok <==> Debit(State(), amount, "", "", None).Some?
    {
      balance >= amount
    }

    /**
      `deduct_balance`: on insufficient funds it raises `ValueError`
      (`raised`), leaving balance and history alone; otherwise it lowers the
      balance by `amount`, appends the `-amount` record and returns `True`.
    */
    method DeductBalance(amount: int, kind: string, description: string, game: Option<nat>) returns (raised: bool)
      requires Valid()
      modifies this`balance, this`transactions
      ensures Valid()
      ensures raised <==> old(balance) < amount
      ensures raised ==> State() == old(State())
      ensures !raised ==> State() == Debit(old(State()), amount, kind, description, game).value
    {
      DebitConsistent(State(), amount, kind, description, game);
      if !HasSufficientBalance(amount) {
        return true;
      }
      balance := balance - amount;
      transactions := transactions + [Transaction(kind, -amount, balance, description, game)];
      return false;
    }

    /** `add_balance`: raise the balance by `amount`, append the `+amount` record, return `True`. */
    method AddBalance(amount: int, kind: string, description: string, game: Option<nat>) returns (ok: bool)
      requires Valid()
      modifies this`balance, this`transactions
      ensures Valid() && ok
      ensures State() == Credit(old(State()), amount, kind, description, game)
    {
      CreditConsistent(State(), amount, kind, description, game);
      balance := balance + amount;
      transactions := transactions + [Transaction(kind, amount, balance, description, game)];
      return true;
    }
  }
}
