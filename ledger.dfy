/** The financial service: account balances kept in step with the transactions booked to them.
    A transaction's effect is applied when it is created, reversed and re-applied when it is
    updated, and reversed when it is deleted; `Reconciled` is the invariant this maintains. */
module Ledger {
  import opened Store
  import opened Sums

  /** The signed change a transaction of direction `d` and amount `amount` makes to its account. */
  function Effect(d: Direction, amount: real): (r: real)
    ensures d == In ==> r == amount
    ensures d == Out ==> r == -amount
  {
    if d == In then amount else -amount
  }

  /** The direction used to reverse a transaction's effect. */
  function Opposite(d: Direction): (r: Direction)
    ensures r != d
  {
    if d == In then Out else In
  }

  lemma OppositeCancels(d: Direction, amount: real)
    ensures Effect(Opposite(d), amount) == -Effect(d, amount)
    ensures Opposite(Opposite(d)) == d
  {
  }

  /** The effects of the transactions booked to account `a`, keyed by transaction id. */
  function AccountEffects(txns: map<Id, Txn>, a: Id): map<Id, real> {
    map k | k in txns && txns[k].account_id == a :: Effect(txns[k].direction, txns[k].amount)
  }

  /** The sum of IN amounts minus the sum of OUT amounts over the transactions of account `a`. */
  ghost function Net(txns: map<Id, Txn>, a: Id): real {
    SumValues(AccountEffects(txns, a))
  }

  /** The amount `t` contributes to account `a`'s net. */
  function Share(t: Txn, a: Id): real {
    if t.account_id == a then Effect(t.direction, t.amount) else 0.0
  }

  lemma NetEmpty(txns: map<Id, Txn>, a: Id)
    requires forall k :: k in txns ==> txns[k].account_id != a
    ensures Net(txns, a) == 0.0
  {
    assert AccountEffects(txns, a) == map[];
  }

  lemma NetInsert(txns: map<Id, Txn>, k: Id, t: Txn, a: Id)
    requires k !in txns
    ensures Net(txns[k := t], a) == Net(txns, a) + Share(t, a)
  {
    if t.account_id == a {
      assert AccountEffects(txns[k := t], a) == AccountEffects(txns, a)[k := Effect(t.direction, t.amount)];
      SumValuesInsert(AccountEffects(txns, a), k, Effect(t.direction, t.amount));
    } else {
      assert AccountEffects(txns[k := t], a) == AccountEffects(txns, a);
    }
  }

  lemma NetRemove(txns: map<Id, Txn>, k: Id, a: Id)
    requires k in txns
    ensures Net(txns - {k}, a) == Net(txns, a) - Share(txns[k], a)
  {
    NetInsert(txns - {k}, k, txns[k], a);
    assert (txns - {k})[k := txns[k]] == txns;
  }

  lemma NetReplace(txns: map<Id, Txn>, k: Id, t: Txn, a: Id)
    requires k in txns
    ensures Net(txns[k := t], a) == Net(txns, a) - Share(txns[k], a) + Share(t, a)
  {
    NetRemove(txns, k, a);
    NetInsert(txns - {k}, k, t, a);
    assert (txns - {k})[k := t] == txns[k := t];
  }

  /** Every transaction is booked to an existing account (the foreign key on `account_id`). */
  ghost predicate AccountsExist(db: Session)
    reads db
  {
    forall k :: k in db.transactions ==> db.transactions[k].account_id in db.accounts
  }

  /** Each account's balance is the net of the transactions that currently exist for it. */
  ghost predicate Reconciled(db: Session)
    reads db
  {
    && AccountsExist(db)
    && forall a :: a in db.accounts ==> db.accounts[a].balance == Net(db.transactions, a)
  }

  /** `create_account`: a new account starts at the column default balance 0. */
  method CreateAccount(db: Session, name: string) returns (id: Id)
    modifies db`accounts
    ensures id !in old(db.accounts)
    ensures db.accounts == old(db.accounts)[id := Account(name, 0.0)]
    ensures old(Reconciled(db)) ==> Reconciled(db)
  {
    ghost var wasReconciled := Reconciled(db);
    id := FreshKey(db.accounts);
    db.accounts := db.accounts[id := Account(name, 0.0)];
    if wasReconciled {
      NetEmpty(db.transactions, id);
    }
  }

  /** `get_account_balance`: the stored balance, or None for an unknown account. */
  function AccountBalance(db: Session, accountId: Id): (r: Option<real>)
    reads db
    ensures r.None? <==> accountId !in db.accounts
    ensures r.Some? && Reconciled(db) ==> r.value == Net(db.transactions, accountId)
  {
    if accountId in db.accounts then Some(db.accounts[accountId].balance) else None
  }

  /** `_apply_transaction_to_account`: IN adds `amount` to the balance, any other direction subtracts it. */
  method ApplyTransactionToAccount(db: Session, accountId: Id, direction: Direction, amount: real)
    requires accountId in db.accounts
    modifies db`accounts
    ensures accountId in db.accounts
    ensures direction == In ==> db.accounts[accountId].balance == old(db.accounts[accountId].balance) + amount
    ensures direction == Out ==> db.accounts[accountId].balance == old(db.accounts[accountId].balance) - amount
    ensures db.accounts == old(db.accounts)[accountId := old(db.accounts[accountId]).(balance := db.accounts[accountId].balance)]
  {
    var account := db.accounts[accountId];
    if direction == In {
      db.accounts := db.accounts[accountId := account.(balance := account.balance + amount)];
    } else {
      db.accounts := db.accounts[accountId := account.(balance := account.balance - amount)];
    }
  }

  /** `create_transaction`: records `txn` under a fresh id and applies its effect to its account. */
  method CreateTransaction(db: Session, txn: Txn) returns (r: Result<Id>)
    modifies db`accounts, db`transactions
    ensures r.Err? <==> txn.account_id !in old(db.accounts)
    ensures r.Err? ==> r.error == AccountNotFound
    ensures r.Err? ==> db.accounts == old(db.accounts) && db.transactions == old(db.transactions)
    ensures r.Ok? ==> r.value !in old(db.transactions) && db.transactions == old(db.transactions)[r.value := txn]
    ensures r.Ok? ==>
      var a := txn.account_id;
      db.accounts == old(db.accounts)[a := old(db.accounts[a]).(balance := old(db.accounts[a].balance) + Effect(txn.direction, txn.amount))]
    ensures old(Reconciled(db)) ==> Reconciled(db)
  {
    if txn.account_id !in db.accounts {
      return Err(AccountNotFound);
    }
    ghost var wasReconciled := Reconciled(db);
    ghost var before := db.transactions;
    var id := FreshKey(db.transactions);
    db.transactions := db.transactions[id := txn];
    ApplyTransactionToAccount(db, txn.account_id, txn.direction, txn.amount);
    r := Ok(id);
    if wasReconciled {
      forall a | a in db.accounts
        ensures db.accounts[a].balance == Net(db.transactions, a)
      {
        NetInsert(before, id, txn, a);
      }
    }
  }

  /** A field of an update payload: `Unset` when the field was not sent, so the stored value stays. */
  datatype Patch<T> = Unset | Set(value: T)

  /** `FinancialTransactionUpdate`: it has no `account_id`, so an update never moves a transaction. */
  datatype TxnUpdate = TxnUpdate(
    partner_id: Patch<Option<Id>>,
    order_id: Patch<Option<Id>>,
    purchase_order_id: Patch<Option<Id>>,
    direction: Patch<Direction>,
    amount: Patch<real>,
    description: Patch<Option<string>>)

  function Pick<T>(p: Patch<T>, current: T): T {
    if p.Set? then p.value else current
  }

  /** The transaction after the fields sent in `u` are written over it. */
  function Patched(t: Txn, u: TxnUpdate): (r: Txn)
    ensures r.account_id == t.account_id
    ensures u.direction.Unset? && u.amount.Unset? ==> r.direction == t.direction && r.amount == t.amount
  {
    t.(partner_id := Pick(u.partner_id, t.partner_id),
       order_id := Pick(u.order_id, t.order_id),
       purchase_order_id := Pick(u.purchase_order_id, t.purchase_order_id),
       direction := Pick(u.direction, t.direction),
       amount := Pick(u.amount, t.amount),
       description := Pick(u.description, t.description))
  }

  /** How much an update moves the balance: the new effect minus the old one. */
  lemma UpdateDelta(t: Txn, u: TxnUpdate)
    ensures var n := Patched(t, u);
      var delta := Effect(n.direction, n.amount) - Effect(t.direction, t.amount);
      && (n.direction == t.direction == In ==> delta == n.amount - t.amount)
      && (n.direction == t.direction == Out ==> delta == t.amount - n.amount)
      && (t.direction == Out && n.direction == In && n.amount == t.amount ==> delta == 2.0 * t.amount)
      && (t.direction == In && n.direction == Out && n.amount == t.amount ==> delta == -2.0 * t.amount)
      && (n.direction == t.direction && n.amount == t.amount ==> delta == 0.0)
  {
  }

  /** `update_transaction`: reverses the old effect, writes the sent fields, applies the new effect. */
  method UpdateTransaction(db: Session, id: Id, u: TxnUpdate) returns (r: Option<Txn>)
    requires AccountsExist(db)
    modifies db`accounts, db`transactions
    ensures r.None? <==> id !in old(db.transactions)
    ensures r.None? ==> db.accounts == old(db.accounts) && db.transactions == old(db.transactions)
    ensures r.Some? ==> r.value == Patched(old(db.transactions[id]), u)
    ensures r.Some? ==> db.transactions == old(db.transactions)[id := r.value]
    ensures r.Some? ==>
      var t := old(db.transactions[id]);
      var a := t.account_id;
      a in old(db.accounts) &&
      db.accounts == old(db.accounts)[a := old(db.accounts[a]).(balance :=
        old(db.accounts[a].balance) - Effect(t.direction, t.amount) + Effect(r.value.direction, r.value.amount))]
    ensures AccountsExist(db)
    ensures old(Reconciled(db)) ==> Reconciled(db)
  {
    if id !in db.transactions {
      return None;
    }
    ghost var wasReconciled := Reconciled(db);
    ghost var before := db.transactions;
    var t := db.transactions[id];
    // Reverse the old effect on the account.
    ApplyTransactionToAccount(db, t.account_id, Opposite(t.direction), t.amount);
    var n := Patched(t, u);
    db.transactions := db.transactions[id := n];
    // Apply the new effect.
    ApplyTransactionToAccount(db, n.account_id, n.direction, n.amount);
    r := Some(n);
    if wasReconciled {
      forall a | a in db.accounts
        ensures db.accounts[a].balance == Net(db.transactions, a)
      {
        NetReplace(before, id, n, a);
      }
    }
  }

  /** `delete_transaction`: reverses the transaction's effect and removes it; False for an unknown id. */
  method DeleteTransaction(db: Session, id: Id) returns (deleted: bool)
    requires AccountsExist(db)
    modifies db`accounts, db`transactions
    ensures deleted <==> id in old(db.transactions)
    ensures !deleted ==> db.accounts == old(db.accounts) && db.transactions == old(db.transactions)
    ensures deleted ==> db.transactions == old(db.transactions) - {id}
    ensures deleted ==>
      var t := old(db.transactions[id]);
      var a := t.account_id;
      a in old(db.accounts) &&
      db.accounts == old(db.accounts)[a := old(db.accounts[a]).(balance := old(db.accounts[a].balance) - Effect(t.direction, t.amount))]
    ensures AccountsExist(db)
    ensures old(Reconciled(db)) ==> Reconciled(db)
  {
    if id !in db.transactions {
      return false;
    }
    ghost var wasReconciled := Reconciled(db);
    ghost var before := db.transactions;
    var t := db.transactions[id];
    ApplyTransactionToAccount(db, t.account_id, Opposite(t.direction), t.amount);
    db.transactions := db.transactions - {id};
    deleted := true;
    if wasReconciled {
      forall a | a in db.accounts
        ensures db.accounts[a].balance == Net(db.transactions, a)
      {
        NetRemove(before, id, a);
      }
    }
  }

  /** Deleting a transaction right after creating it restores every balance and the transaction table. */
  method CreateThenDelete(db: Session, txn: Txn) returns (r: Result<Id>)
    requires AccountsExist(db)
    modifies db`accounts, db`transactions
    ensures db.accounts == old(db.accounts) && db.transactions == old(db.transactions)
  {
    r := CreateTransaction(db, txn);
    if r.Ok? {
      var deleted := DeleteTransaction(db, r.value);
      assert db.transactions == old(db.transactions);
    }
  }

  /** The IN transaction `create_payment_for_order` books for an order. */
  function PaymentTxn(orderId: Id, accountId: Id, amount: real, description: Option<string>): (r: Txn)
    ensures r.account_id == accountId && r.order_id == Some(orderId)
    ensures r.direction == In && r.amount == amount && r.description == description
    ensures r.partner_id.None? && r.purchase_order_id.None?
  {
    Txn(accountId, None, Some(orderId), None, In, amount, description)
  }

  /** `create_payment_for_order`: books an IN transaction linked to the order, then marks the order
      "TESLIM EDILDI" whatever the amount. */
  method CreatePaymentForOrder(db: Session, orderId: Id, accountId: Id, amount: real, description: Option<string>)
    returns (r: Result<Id>)
    modifies db`accounts, db`transactions, db`orders
    ensures r.Ok? <==> orderId in old(db.orders) && accountId in old(db.accounts)
    ensures orderId !in old(db.orders) ==> r == Err(OrderNotFound)
    ensures orderId in old(db.orders) && accountId !in old(db.accounts) ==> r == Err(AccountNotFound)
    ensures r.Err? ==>
      db.accounts == old(db.accounts) && db.transactions == old(db.transactions) && db.orders == old(db.orders)
    ensures r.Ok? ==>
      && r.value !in old(db.transactions)
      && db.transactions == old(db.transactions)[r.value := PaymentTxn(orderId, accountId, amount, description)]
      && db.accounts == old(db.accounts)[accountId := old(db.accounts[accountId]).(balance := old(db.accounts[accountId].balance) + amount)]
      && db.orders == old(db.orders)[orderId := old(db.orders[orderId]).(status := TeslimEdildi)]
    ensures old(Reconciled(db)) ==> Reconciled(db)
  {
    if orderId !in db.orders {
      return Err(OrderNotFound);
    }
    r := CreateTransaction(db, PaymentTxn(orderId, accountId, amount, description));
    if r.Ok? {
      db.orders := db.orders[orderId := db.orders[orderId].(status := TeslimEdildi)];
    }
  }

  /** Create IN 50.00, update it to OUT 50.00, delete it, on an account that starts at 0.00. */
  method BalanceScenario() returns (afterCreate: real, afterUpdate: real, afterDelete: real)
    ensures afterCreate == 50.0 && afterUpdate == -50.0 && afterDelete == 0.0
  {
    var db := new Session();
    var a := CreateAccount(db, "Kasa");
    var created := CreateTransaction(db, Txn(a, None, None, None, In, 50.0, None));
    afterCreate := AccountBalance(db, a).value;
    var updated := UpdateTransaction(db, created.value, TxnUpdate(Unset, Unset, Unset, Set(Out), Set(50.0), Unset));
    afterUpdate := AccountBalance(db, a).value;
    var deleted := DeleteTransaction(db, created.value);
    afterDelete := AccountBalance(db, a).value;
  }

  /** A payment against an order that does not exist books nothing and moves no balance. */
  method UnknownOrderPaymentScenario() returns (r: Result<Id>, balance: real, booked: nat)
    ensures r == Err(OrderNotFound) && balance == 0.0 && booked == 0
  {
    var db := new Session();
    var a := CreateAccount(db, "Kasa");
    r := CreatePaymentForOrder(db, 7, a, 100.0, None);
    balance := AccountBalance(db, a).value;
    booked := |db.transactions|;
  }
}
