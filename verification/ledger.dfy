/**
 * The cashback ledger of a registered user (`User.add_cashback`,
 * `User.use_cashback` and the `CashbackTransaction` audit log).
 */
module Ledger {
  import opened Base

  datatype TxKind = Credit | Debit

  /** One row of the append-only cashback audit log. The timestamp is left out. */
  datatype CashbackTransaction = CashbackTransaction(amount: Cents, kind: TxKind, description: string)

  /** The cashback-relevant part of a registered account. */
  datatype User = User(email: string, balance: Cents, log: seq<CashbackTransaction>)

  /** The two `ValueError`s the ledger raises. */
  datatype LedgerError = InvalidAmount | InsufficientBalance

  const EarnedNote := "Cashback earned from order"
  const SpentNote := "Cashback used on order"

  /** v is u with the balance moved and exactly the one log row t appended. */
  ghost predicate Posted(u: User, v: User, t: CashbackTransaction) {
    v.email == u.email && v.log == u.log + [t]
  }

  /** Credits a positive amount; a non-positive one is refused and nothing changes. */
  function AddCashback(u: User, amount: Cents): (r: Result<User, LedgerError>)
    ensures r.Err? <==> amount <= 0
    ensures r.Err? ==> r.error == InvalidAmount
    ensures r.Ok? ==> r.value.balance == u.balance + amount
    ensures r.Ok? ==> Posted(u, r.value, CashbackTransaction(amount, Credit, EarnedNote))
  {
    if amount <= 0 then Err(InvalidAmount)
    else Ok(u.(balance := u.balance + amount,
               log := u.log + [CashbackTransaction(amount, Credit, EarnedNote)]))
  }

  /**
   * Debits a positive amount no larger than the balance; the amount check
   * comes first, then the balance check, and a refusal changes nothing.
   */
  function UseCashback(u: User, amount: Cents): (r: Result<User, LedgerError>)
    ensures r.Ok? <==> 0 < amount <= u.balance
    ensures amount <= 0 ==> r == Err(InvalidAmount)
    ensures 0 < amount && u.balance < amount ==> r == Err(InsufficientBalance)
    ensures r.Ok? ==> r.value.balance == u.balance - amount >= 0
    ensures r.Ok? ==> Posted(u, r.value, CashbackTransaction(amount, Debit, SpentNote))
  {
    if amount <= 0 then Err(InvalidAmount)
    else if amount > u.balance then Err(InsufficientBalance)
    else Ok(u.(balance := u.balance - amount,
               log := u.log + [CashbackTransaction(amount, Debit, SpentNote)]))
  }

  /** A ledger call as a caller issues it. */
  datatype LedgerOp = Earn(amount: Cents) | Spend(amount: Cents)

  /** One ledger call; when it raises, the account is left as it was. */
  function Apply(u: User, op: LedgerOp): User {
    var r := match op
      case Earn(a) => AddCashback(u, a)
      case Spend(a) => UseCashback(u, a);
    if r.Ok? then r.value else u
  }

  function ApplyAll(u: User, ops: seq<LedgerOp>): User
    decreases |ops|
  {
    if |ops| == 0 then u else ApplyAll(Apply(u, ops[0]), ops[1..])
  }

  /** What one log row does to the balance. */
  function Signed(t: CashbackTransaction): int {
    if t.kind == Credit then t.amount else -t.amount
  }

  /** The net balance movement a stretch of the log records. */
  function Net(log: seq<CashbackTransaction>): int {
    if |log| == 0 then 0 else Net(log[..|log| - 1]) + Signed(log[|log| - 1])
  }

  lemma {:induction false} NetConcat(a: seq<CashbackTransaction>, b: seq<CashbackTransaction>)
    ensures Net(a + b) == Net(a) + Net(b)
    decreases |b|
  {
    if |b| > 0 {
      var b' := b[..|b| - 1];
      assert (a + b)[..|a + b| - 1] == a + b';
      assert (a + b)[|a + b| - 1] == b[|b| - 1];
      NetConcat(a, b');
    } else {
      assert a + b == a;
    }
  }

  /**
   * Over any sequence of credits and debits the balance stays non-negative,
   * the log is only appended to, every appended row carries a positive amount,
   * and the appended rows account exactly for the balance movement.
   */
  lemma {:induction false} LedgerReplay(u: User, ops: seq<LedgerOp>)
    requires u.balance >= 0
    ensures var v := ApplyAll(u, ops);
      && v.balance >= 0
      && |u.log| <= |v.log|
      && v.log[..|u.log|] == u.log
      && v.balance == u.balance + Net(v.log[|u.log|..])
      && forall i :: |u.log| <= i < |v.log| ==> v.log[i].amount > 0
    decreases |ops|
  {
    if |ops| == 0 {
      assert u.log[|u.log|..] == [];
    } else {
      var w := Apply(u, ops[0]);
      assert w.balance >= 0;
      assert |w.log| == |u.log| || |w.log| == |u.log| + 1;
      assert w.log[..|u.log|] == u.log;
      assert w.balance == u.balance + Net(w.log[|u.log|..]) by {
        if |w.log| == |u.log| {
          assert w == u;
          assert w.log[|u.log|..] == [];
        } else {
          var t := w.log[|u.log|];
          assert w.log[|u.log|..] == [t];
          assert [t] == [] + [t];
          assert Net([t]) == Signed(t);
        }
      }
      LedgerReplay(w, ops[1..]);
      var v := ApplyAll(w, ops[1..]);
      assert v == ApplyAll(u, ops);
      assert v.log[..|u.log|] == u.log by {
        assert v.log[..|u.log|] == v.log[..|w.log|][..|u.log|];
      }
      assert v.log[|u.log|..] == w.log[|u.log|..] + v.log[|w.log|..] by {
        assert v.log[..|w.log|] == w.log;
      }
      NetConcat(w.log[|u.log|..], v.log[|w.log|..]);
      forall i | |u.log| <= i < |v.log|
        ensures v.log[i].amount > 0
      {
        if i >= |w.log| {
        } else {
          assert v.log[i] == w.log[i];
        }
      }
    }
  }
}
