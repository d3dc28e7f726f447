/** The payment database: accounts, transactions, the double-entry journal and deposits, with
    the unique indexes and checks of its schema, and the transactions that write it. */
module Ledger {
  import opened Common

  datatype AccountType = Wallet | PodAccount | MerchantSettlement | MerchantPayout | CommissionPool | ExternalSettlement

  datatype Account = Account(kind: AccountType, balance: int, version: nat)

  datatype Tx = Tx(id: int, from: int, to: int, amount: int, key: string, category: Option<int>)

  datatype Direction = Debit | Credit
  datatype JournalEntry = JournalEntry(tx: int, account: int, amount: int, direction: Direction)

  datatype DepositStatus = Created | Paid | Failed
  datatype Deposit = Deposit(account: int, amount: int, status: DepositStatus, completed: bool)

  datatype Pod = Pod(account: int, user: int)

  /** The tables; wallets, handles and keys are the unique indexes on the wallet of a user, on
      account handles and on (idempotency key, sender), the last giving a row position in txs. */
  datatype Db = Db(
    accounts: map<int, Account>,
    wallets: map<int, int>,
    handles: map<string, int>,
    txs: seq<Tx>,
    txIds: set<int>,
    keys: map<(string, int), nat>,
    journal: seq<JournalEntry>,
    deposits: map<string, Deposit>,
    pods: map<int, Pod>,
    categories: map<int, int>)        // the owner of each

  /** What a use case asks the ledger for; the identifier is generated for it. */
  datatype Order = Order(id: int, from: int, to: int, amount: int, key: string, category: Option<int>)

  /** The error that stops a transfer, in the order in which the statements meet it. */
  function Refusal(db: Db, o: Order): Option<Error> {
    if o.from !in db.accounts || o.to !in db.accounts then Some(NotFound)
    else if db.accounts[o.from].balance < o.amount then Some(InsufficientFunds)
    else if o.amount <= 0 || o.from == o.to then Some(InvalidInput)
    else if o.id in db.txIds || (o.key, o.from) in db.keys then Some(AlreadyExists)
    else if o.category.Some? && o.category.value !in db.categories then Some(NotFound)
    else if db.accounts[o.to].balance + o.amount > MAX_INT64 then Some(OutOfRange)
    else None
  }

  function Moved(a: Account, amount: int): Account {
    Account(a.kind, a.balance + amount, a.version + 1)
  }

  function Row(o: Order): Tx {
    Tx(o.id, o.from, o.to, o.amount, o.key, o.category)
  }

  function DebitOf(t: Tx): JournalEntry {
    JournalEntry(t.id, t.from, t.amount, Debit)
  }

  function CreditOf(t: Tx): JournalEntry {
    JournalEntry(t.id, t.to, t.amount, Credit)
  }

  function Recorded(db: Db, t: Tx): Db {
    db.(txs := db.txs + [t],
        txIds := db.txIds + {t.id},
        keys := db.keys[(t.key, t.from) := |db.txs|],
        journal := db.journal + [DebitOf(t), CreditOf(t)])
  }

  /** One atomic transfer: all of it or nothing; an unanswered commit reports a failure all the same. */
  function Execute(db: Db, o: Order, fate: Fate): (r: (Db, Result<Tx>))
  {
    if fate.Dropped? then (db, Err(Failure))
    else if Refusal(db, o).Some? then (db, Err(Refusal(db, o).value))
    else
      var accounts := db.accounts[o.from := Moved(db.accounts[o.from], -o.amount)]
                                 [o.to := Moved(db.accounts[o.to], o.amount)];
      (Recorded(db, Row(o)).(accounts := accounts), if fate.Answered? then Ok(Row(o)) else Err(Failure))
  }

  function DepositRefusal(db: Db, settlement: int, order: string, d: Deposit, txId: int): Option<Error> {
    if d.account in db.accounts && db.accounts[d.account].balance + d.amount > MAX_INT64 then Some(OutOfRange)
    else if d.amount <= 0 || settlement == d.account then Some(InvalidInput)
    else if txId in db.txIds || (order, settlement) in db.keys then Some(AlreadyExists)
    else if settlement !in db.accounts || d.account !in db.accounts then Some(NotFound)
    else None
  }

  /** Confirming a payment credits the wallet and writes both journal entries, but leaves the balance
      of the settlement account alone; only a deposit still in the created state is credited. */
  function Confirm(db: Db, settlement: int, order: string, txId: int, fate: Fate): (r: (Db, Result<bool>))
  {
    if fate.Dropped? then (db, Err(Failure))
    else if order !in db.deposits then (db, Err(NotFound))
    else
      var d := db.deposits[order];
      if !d.status.Created? then (db, if fate.Answered? then Ok(false) else Err(Failure))
      else if DepositRefusal(db, settlement, order, d, txId).Some? then
        (db, Err(DepositRefusal(db, settlement, order, d, txId).value))
      else
        var t := Tx(txId, settlement, d.account, d.amount, order, None);
        (Recorded(db, t).(accounts := db.accounts[d.account := Moved(db.accounts[d.account], d.amount)],
                          deposits := db.deposits[order := d.(status := Paid, completed := true)]),
         if fate.Answered? then Ok(true) else Err(Failure))
  }

  function OpenDeposit(db: Db, order: string, account: int, amount: int, fate: Fate): (r: (Db, Option<Error>))
  {
    if fate.Dropped? then (db, Some(Failure))
    else if amount <= 0 then (db, Some(InvalidInput))
    else if order in db.deposits then (db, Some(AlreadyExists))
    else if account !in db.accounts then (db, Some(NotFound))
    else (db.(deposits := db.deposits[order := Deposit(account, amount, Created, false)]),
          if fate.Answered? then None else Some(Failure))
  }

  /** A failed payment overwrites the status, whatever it was. */
  function FailDeposit(db: Db, order: string, fate: Fate): (r: (Db, Option<Error>))
  {
    if fate.Dropped? then (db, Some(Failure))
    else if order !in db.deposits then (db, Some(NotFound))
    else (db.(deposits := db.deposits[order := db.deposits[order].(status := Failed)]),
          if fate.Answered? then None else Some(Failure))
  }

  predicate HasSettlement(accounts: map<int, Account>) {
    exists a | a in accounts :: accounts[a].kind.ExternalSettlement?
  }

  /** Accounts start empty; a user has one wallet, a handle one account, and settlement is unique. */
  function NewAccount(db: Db, id: int, kind: AccountType, user: Option<int>, handle: Option<string>, fate: Fate): (r: (Db, Option<Error>))
  {
    if fate.Dropped? then (db, Some(Failure))
    else if id in db.accounts || (kind.Wallet? && user.Some? && user.value in db.wallets)
            || (handle.Some? && handle.value in db.handles) || (kind.ExternalSettlement? && HasSettlement(db.accounts))
    then (db, Some(AlreadyExists))
    else (db.(accounts := db.accounts[id := Account(kind, 0, 0)],
              wallets := if kind.Wallet? && user.Some? then db.wallets[user.value := id] else db.wallets,
              handles := if handle.Some? then db.handles[handle.value := id] else db.handles),
          if fate.Answered? then None else Some(Failure))
  }

  /** The repositories: each method is one database transaction. */
  class LedgerStore {
    var accounts: map<int, Account>
    var wallets: map<int, int>
    var handles: map<string, int>
    var txs: seq<Tx>
    var txIds: set<int>
    var keys: map<(string, int), nat>
    var journal: seq<JournalEntry>
    var deposits: map<string, Deposit>
    var pods: map<int, Pod>
    var categories: map<int, int>

    function State(): Db
      reads this
    {
      Db(accounts, wallets, handles, txs, txIds, keys, journal, deposits, pods, categories)
    }

    constructor (db: Db)
      ensures State() == db
    {
      accounts, wallets, handles, txs, txIds := db.accounts, db.wallets, db.handles, db.txs, db.txIds;
      keys, journal, deposits, pods, categories := db.keys, db.journal, db.deposits, db.pods, db.categories;
    }

    method InsertTransaction(t: Tx)
      modifies this`txs, this`txIds, this`keys
      ensures txs == old(txs) + [t] && txIds == old(txIds) + {t.id} && keys == old(keys)[(t.key, t.from) := |old(txs)|]
    {
      keys := keys[(t.key, t.from) := |txs|];
      txIds := txIds + {t.id};
      txs := txs + [t];
    }

    method InsertJournalEntry(e: JournalEntry)
      modifies this`journal
      ensures journal == old(journal) + [e]
    {
      journal := journal + [e];
    }

    method AddBalance(id: int, amount: int)
      requires id in accounts
      modifies this`accounts
      ensures accounts == old(accounts)[id := Moved(old(accounts)[id], amount)]
    {
      accounts := accounts[id := Account(accounts[id].kind, accounts[id].balance + amount, accounts[id].version + 1)];
    }

    /** The ledger write, statement by statement. A statement that fails rolls everything back. */
    method ExecuteTransfer(o: Order, fate: Fate) returns (r: Result<Tx>)
      modifies this
      ensures (State(), r) == Execute(old(State()), o, fate)
    {
      if fate.Dropped? {
        return Err(Failure);
      }
      var lock1, lock2 := o.from, o.to;
      if lock2 < lock1 {
        lock1, lock2 := lock2, lock1;
      }
      if lock1 !in accounts || lock2 !in accounts {
        return Err(NotFound);
      }
      var sender := if lock1 == o.from then accounts[lock1] else accounts[lock2];
      if sender.balance < o.amount {
        return Err(InsufficientFunds);
      }
      if o.amount <= 0 || o.from == o.to {
        return Err(InvalidInput);
      }
      if o.id in txIds || (o.key, o.from) in keys {
        return Err(AlreadyExists);
      }
      if o.category.Some? && o.category.value !in categories {
        return Err(NotFound);
      }
      if accounts[o.to].balance + o.amount > MAX_INT64 {
        return Err(OutOfRange);
      }
      InsertTransaction(Tx(o.id, o.from, o.to, o.amount, o.key, o.category));
      InsertJournalEntry(JournalEntry(o.id, o.from, o.amount, Debit));
      InsertJournalEntry(JournalEntry(o.id, o.to, o.amount, Credit));
      AddBalance(o.from, -o.amount);
      AddBalance(o.to, o.amount);
      assert journal == old(journal) + [DebitOf(Row(o)), CreditOf(Row(o))];
      r := if fate.Answered? then Ok(Tx(o.id, o.from, o.to, o.amount, o.key, o.category)) else Err(Failure);
    }

    /** The webhook's transaction: true when this call credited the wallet. */
    method ConfirmPayment(settlement: int, order: string, txId: int, fate: Fate) returns (r: Result<bool>)
      modifies this
      ensures (State(), r) == Confirm(old(State()), settlement, order, txId, fate)
    {
      if fate.Dropped? {
        return Err(Failure);
      }
      if order !in deposits {
        return Err(NotFound);
      }
      var d := deposits[order];
      if !d.status.Created? {
        return if fate.Answered? then Ok(false) else Err(Failure);
      }
      if d.account in accounts && accounts[d.account].balance + d.amount > MAX_INT64 {
        return Err(OutOfRange);
      }
      if d.amount <= 0 || settlement == d.account {
        return Err(InvalidInput);
      }
      if txId in txIds || (order, settlement) in keys {
        return Err(AlreadyExists);
      }
      if settlement !in accounts || d.account !in accounts {
        return Err(NotFound);
      }
      deposits := deposits[order := d.(status := Paid, completed := true)];
      AddBalance(d.account, d.amount);
      ghost var t := Tx(txId, settlement, d.account, d.amount, order, None);
      InsertTransaction(Tx(txId, settlement, d.account, d.amount, order, None));
      InsertJournalEntry(JournalEntry(txId, settlement, d.amount, Debit));
      InsertJournalEntry(JournalEntry(txId, d.account, d.amount, Credit));
      assert journal == old(journal) + [DebitOf(t), CreditOf(t)];
      r := if fate.Answered? then Ok(true) else Err(Failure);
    }

    method CreateDeposit(order: string, account: int, amount: int, fate: Fate) returns (err: Option<Error>)
      modifies this`deposits
      ensures (State(), err) == OpenDeposit(old(State()), order, account, amount, fate)
    {
      if fate.Dropped? {
        return Some(Failure);
      }
      if amount <= 0 {
        return Some(InvalidInput);
      }
      if order in deposits {
        return Some(AlreadyExists);
      }
      if account !in accounts {
        return Some(NotFound);
      }
      deposits := deposits[order := Deposit(account, amount, Created, false)];
      return if fate.Answered? then None else Some(Failure);
    }

    method MarkFailed(order: string, fate: Fate) returns (err: Option<Error>)
      modifies this`deposits
      ensures (State(), err) == FailDeposit(old(State()), order, fate)
    {
      if fate.Dropped? {
        return Some(Failure);
      }
      if order !in deposits {
        return Some(NotFound);
      }
      deposits := deposits[order := deposits[order].(status := Failed)];
      return if fate.Answered? then None else Some(Failure);
    }

    method CreateAccount(id: int, kind: AccountType, user: Option<int>, handle: Option<string>, fate: Fate) returns (err: Option<Error>)
      modifies this`accounts, this`wallets, this`handles
      ensures (State(), err) == NewAccount(old(State()), id, kind, user, handle, fate)
    {
      if fate.Dropped? {
        return Some(Failure);
      }
      if id in accounts || (kind.Wallet? && user.Some? && user.value in wallets) {
        return Some(AlreadyExists);
      }
      if (handle.Some? && handle.value in handles) || (kind.ExternalSettlement? && HasSettlement(accounts)) {
        return Some(AlreadyExists);
      }
      accounts := accounts[id := Account(kind, 0, 0)];
      if kind.Wallet? && user.Some? {
        wallets := wallets[user.value := id];
      }
      if handle.Some? {
        handles := handles[handle.value := id];
      }
      return if fate.Answered? then None else Some(Failure);
    }
  }
}
