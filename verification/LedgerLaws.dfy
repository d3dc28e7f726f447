/** What every write of the payment database keeps: double entry, one transaction per key,
    balances that agree with the journal, and money that is only moved. */
module LedgerLaws {
  import opened Common
  import opened Sums
  import opened Ledger

  // ---- Structure ----

  /** Transaction i owns journal rows 2i and 2i+1: its debit and its equal credit. */
  ghost predicate DoubleEntry(db: Db) {
    |db.journal| == 2 * |db.txs| &&
    forall i {:trigger db.txs[i]} | 0 <= i < |db.txs| ::
      db.journal[2 * i] == DebitOf(db.txs[i]) && db.journal[2 * i + 1] == CreditOf(db.txs[i])
  }

  /** The key index and the identifiers describe the rows exactly, so both are unique. */
  ghost predicate Indexed(db: Db) {
    && (forall p | p in db.keys :: db.keys[p] < |db.txs| && db.txs[db.keys[p]].key == p.0 && db.txs[db.keys[p]].from == p.1)
    && (forall i | 0 <= i < |db.txs| ::
          && (db.txs[i].key, db.txs[i].from) in db.keys && db.keys[(db.txs[i].key, db.txs[i].from)] == i
          && db.txs[i].id in db.txIds)
    && (forall i, j | 0 <= i < j < |db.txs| :: db.txs[i].id != db.txs[j].id)
  }

  ghost predicate Sound(db: Db) {
    && (forall a | a in db.accounts :: 0 <= db.accounts[a].balance <= MAX_INT64)
    && (forall i | 0 <= i < |db.txs| ::
          db.txs[i].amount > 0 && db.txs[i].from != db.txs[i].to
          && db.txs[i].from in db.accounts && db.txs[i].to in db.accounts)
    && (forall u | u in db.wallets :: db.wallets[u] in db.accounts && db.accounts[db.wallets[u]].kind.Wallet?)
    && (forall h | h in db.handles :: db.handles[h] in db.accounts)
    && (forall o | o in db.deposits :: db.deposits[o].amount > 0 && (db.deposits[o].status.Created? ==> !db.deposits[o].completed))
  }

  ghost predicate WellFormed(db: Db) {
    DoubleEntry(db) && Indexed(db) && Sound(db)
  }

  /** One (sender, key) pair names at most one transaction. */
  lemma PairIsUnique(db: Db, i: nat, j: nat)
    requires Indexed(db) && i < |db.txs| && j < |db.txs|
    requires db.txs[i].key == db.txs[j].key && db.txs[i].from == db.txs[j].from
    ensures i == j
  {
  }

  lemma RecordedDoubleEntry(db: Db, t: Tx)
    requires DoubleEntry(db)
    ensures DoubleEntry(Recorded(db, t))
  {
  }

  lemma RecordedIndexed(db: Db, t: Tx)
    requires Indexed(db) && t.id !in db.txIds && (t.key, t.from) !in db.keys
    ensures Indexed(Recorded(db, t))
  {
    var db' := Recorded(db, t);
    forall p | p in db'.keys
      ensures db'.keys[p] < |db'.txs| && db'.txs[db'.keys[p]].key == p.0 && db'.txs[db'.keys[p]].from == p.1
    {
      if p != (t.key, t.from) {
        assert db'.txs[db'.keys[p]] == db.txs[db.keys[p]];
      }
    }
    forall i | 0 <= i < |db.txs|
      ensures (db'.txs[i].key, db'.txs[i].from) in db'.keys && db'.keys[(db'.txs[i].key, db'.txs[i].from)] == i
      ensures db'.txs[i].id in db.txIds
    {
      assert db'.txs[i] == db.txs[i];
    }
  }

  lemma ExecuteSound(db: Db, o: Order)
    requires Sound(db) && Refusal(db, o).None?
    ensures Sound(Execute(db, o, Answered).0)
  {
  }

  lemma ExecuteWellFormed(db: Db, o: Order, fate: Fate)
    requires WellFormed(db)
    ensures WellFormed(Execute(db, o, fate).0)
  {
    hide Sound, DoubleEntry, Indexed;
    if !fate.Dropped? && Refusal(db, o).None? {
      ExecuteSound(db, o);
      RecordedDoubleEntry(db, Row(o));
      RecordedIndexed(db, Row(o));
      SameRecords(Recorded(db, Row(o)), Execute(db, o, fate).0);
    }
  }

  lemma ConfirmSound(db: Db, settlement: int, order: string, txId: int, fate: Fate)
    requires Sound(db)
    ensures Sound(Confirm(db, settlement, order, txId, fate).0)
  {
  }

  lemma ConfirmWellFormed(db: Db, settlement: int, order: string, txId: int, fate: Fate)
    requires WellFormed(db)
    ensures WellFormed(Confirm(db, settlement, order, txId, fate).0)
  {
    hide Sound, DoubleEntry, Indexed;
    var db' := Confirm(db, settlement, order, txId, fate).0;
    ConfirmSound(db, settlement, order, txId, fate);
    if db' != db {
      var d := db.deposits[order];
      var t := Tx(txId, settlement, d.account, d.amount, order, None);
      RecordedDoubleEntry(db, t);
      RecordedIndexed(db, t);
      SameRecords(Recorded(db, t), db');
    }
  }

  // ---- Money ----

  function Balances(db: Db): map<int, int> {
    map a | a in db.accounts :: db.accounts[a].balance
  }

  /** Deposits whose payment was credited, by order. */
  function Credited(deposits: map<string, Deposit>): map<string, int> {
    map o | o in deposits && deposits[o].completed :: deposits[o].amount
  }

  /** Credits minus debits of one account in the journal. */
  function Net(journal: seq<JournalEntry>, account: int): int {
    if journal == [] then 0
    else
      var e := journal[|journal| - 1];
      Net(journal[..|journal| - 1], account)
      + (if e.account != account then 0 else if e.direction.Credit? then e.amount else -e.amount)
  }

  function Opening(start: map<int, int>, account: int): int {
    if account in start then start[account] else 0
  }

  /** The books: every balance is its opening balance plus its journal, except that the settlement account
      was never debited for deposits; and the total grew by exactly the deposits credited. */
  ghost predicate Balanced(start: map<int, int>, settlement: int, db: Db) {
    var deposited := Sum(Credited(db.deposits));
    && start.Keys <= db.accounts.Keys
    && Sum(Balances(db)) == Sum(start) + deposited
    && (forall a | a in db.accounts ::
          db.accounts[a].balance
          == Opening(start, a) + Net(db.journal, a) + if a == settlement then deposited else 0)
    && (forall a | a !in db.accounts && a != settlement :: Net(db.journal, a) == 0)
    && (settlement !in db.accounts ==> Net(db.journal, settlement) == 0 && deposited == 0)
  }

  lemma NetRecorded(db: Db, t: Tx, account: int)
    requires t.from != t.to
    ensures Net(Recorded(db, t).journal, account)
         == Net(db.journal, account) + (if account == t.from then -t.amount else if account == t.to then t.amount else 0)
  {
    var j := Recorded(db, t).journal;
    assert j[..|j| - 1] == db.journal + [DebitOf(t)];
    assert (db.journal + [DebitOf(t)])[..|db.journal|] == db.journal;
  }

  /** Money moved between two accounts leaves the sum of the balances alone. */
  lemma MovedSum(db: Db, o: Order)
    requires Refusal(db, o).None?
    ensures Sum(Balances(Execute(db, o, Answered).0)) == Sum(Balances(db))
  {
    hide Sum, Net;
    var b := Balances(db);
    SumUpdate(b, o.from, b[o.from] - o.amount);
    SumUpdate(b[o.from := b[o.from] - o.amount], o.to, b[o.to] + o.amount);
    assert Balances(Execute(db, o, Answered).0) == b[o.from := b[o.from] - o.amount][o.to := b[o.to] + o.amount];
  }

  lemma ExecuteBalanced(db: Db, o: Order, fate: Fate, start: map<int, int>, settlement: int)
    requires Balanced(start, settlement, db)
    ensures Balanced(start, settlement, Execute(db, o, fate).0)
  {
    hide Net, Sum, Credited, Balances;
    var db' := Execute(db, o, fate).0;
    if !fate.Dropped? && Refusal(db, o).None? {
      forall a ensures Net(db'.journal, a)
        == Net(db.journal, a) + (if a == o.from then -o.amount else if a == o.to then o.amount else 0)
      {
        NetRecorded(db, Row(o), a);
      }
      MovedSum(db, o);
    }
  }

  /** A confirmed deposit raises the sum of the balances and the sum of the credited deposits by its amount. */
  lemma CreditedSums(db: Db, settlement: int, order: string, txId: int)
    requires Sound(db) && Confirm(db, settlement, order, txId, Answered).1 == Ok(true)
    ensures var db' := Confirm(db, settlement, order, txId, Answered).0;
            && Sum(Balances(db')) == Sum(Balances(db)) + db.deposits[order].amount
            && Sum(Credited(db'.deposits)) == Sum(Credited(db.deposits)) + db.deposits[order].amount
  {
    hide Sum, Net;
    var d, db' := db.deposits[order], Confirm(db, settlement, order, txId, Answered).0;
    var b := Balances(db);
    SumUpdate(b, d.account, b[d.account] + d.amount);
    assert Balances(db') == b[d.account := b[d.account] + d.amount];
    SumUpdate(Credited(db.deposits), order, d.amount);
    assert Credited(db'.deposits) == Credited(db.deposits)[order := d.amount];
  }

  lemma ConfirmBalanced(db: Db, order: string, txId: int, fate: Fate, start: map<int, int>, settlement: int)
    requires Balanced(start, settlement, db) && Sound(db)
    ensures Balanced(start, settlement, Confirm(db, settlement, order, txId, fate).0)
  {
    hide Net, Sum, Balances, Credited, Sound;
    var db' := Confirm(db, settlement, order, txId, fate).0;
    if db' != db {
      var d := db.deposits[order];
      var t := Tx(txId, settlement, d.account, d.amount, order, None);
      forall a ensures Net(db'.journal, a)
        == Net(db.journal, a) + (if a == settlement then -d.amount else if a == d.account then d.amount else 0)
      {
        NetRecorded(db, t, a);
      }
      CreditedSums(db, settlement, order, txId);
    }
  }

  lemma DepositBalanced(db: Db, deposits: map<string, Deposit>, start: map<int, int>, settlement: int)
    requires Balanced(start, settlement, db)
    requires Credited(deposits) == Credited(db.deposits)
    ensures Balanced(start, settlement, db.(deposits := deposits))
  {
  }

  lemma NewAccountSum(db: Db, id: int, kind: AccountType, user: Option<int>, handle: Option<string>, fate: Fate)
    ensures Sum(Balances(NewAccount(db, id, kind, user, handle, fate).0)) == Sum(Balances(db))
  {
    hide Sum, HasSettlement;
    var db' := NewAccount(db, id, kind, user, handle, fate).0;
    if db' != db {
      SumUpdate(Balances(db), id, 0);
      assert Balances(db') == Balances(db)[id := 0];
    }
  }

  lemma NewAccountBalanced(db: Db, id: int, kind: AccountType, user: Option<int>, handle: Option<string>, fate: Fate,
                           start: map<int, int>, settlement: int)
    requires Balanced(start, settlement, db)
    ensures Balanced(start, settlement, NewAccount(db, id, kind, user, handle, fate).0)
  {
    hide Net, Sum, Balances, Credited, HasSettlement;
    NewAccountSum(db, id, kind, user, handle, fate);
  }

  lemma NewAccountSound(db: Db, id: int, kind: AccountType, user: Option<int>, handle: Option<string>, fate: Fate)
    requires Sound(db)
    ensures Sound(NewAccount(db, id, kind, user, handle, fate).0)
  {
  }

  lemma NewAccountRecords(db: Db, id: int, kind: AccountType, user: Option<int>, handle: Option<string>, fate: Fate)
    ensures var db' := NewAccount(db, id, kind, user, handle, fate).0;
            db'.txs == db.txs && db'.txIds == db.txIds && db'.keys == db.keys && db'.journal == db.journal
  {
  }

  lemma NewAccountWellFormed(db: Db, id: int, kind: AccountType, user: Option<int>, handle: Option<string>, fate: Fate)
    requires WellFormed(db)
    ensures WellFormed(NewAccount(db, id, kind, user, handle, fate).0)
  {
    hide DoubleEntry, Indexed, Sound, NewAccount;
    NewAccountSound(db, id, kind, user, handle, fate);
    NewAccountRecords(db, id, kind, user, handle, fate);
    SameRecords(db, NewAccount(db, id, kind, user, handle, fate).0);
  }

  lemma SameRecords(db: Db, db': Db)
    requires DoubleEntry(db) && Indexed(db)
    requires db'.txs == db.txs && db'.txIds == db.txIds && db'.keys == db.keys && db'.journal == db.journal
    ensures DoubleEntry(db') && Indexed(db')
  {
  }
}
