/** What each payment command answers and leaves behind, in terms of balances, journal and rows: when the ledger moves
    money, and who gains and who loses by a transfer, a withdrawal, a pod move, a system transfer or a deposit. */
module PaymentOutcomes {
  import opened Common
  import opened Strings
  import opened Ledger
  import opened LedgerLaws
  import opened Payments
  import opened PaymentRuns
  import opened TransferRace

  // ---- The ledger ----

  /** The amount has left one account and reached the other; one transaction and its two entries were recorded, and
      nothing else changed. */
  ghost predicate Moves(db: Db, db': Db, from: int, to: int, amount: int, key: string, id: int, category: Option<int>) {
    && from in db.accounts && to in db.accounts && from != to && amount > 0
    && db'.accounts.Keys == db.accounts.Keys
    && db'.accounts[from].balance == db.accounts[from].balance - amount
    && db'.accounts[to].balance == db.accounts[to].balance + amount
    && db'.accounts[from].kind == db.accounts[from].kind && db'.accounts[to].kind == db.accounts[to].kind
    && (forall a | a in db.accounts && a != from && a != to :: db'.accounts[a] == db.accounts[a])
    && db'.txs == db.txs + [Tx(id, from, to, amount, key, category)] && db'.txIds == db.txIds + {id}
    && db'.keys == db.keys[(key, from) := |db.txs|]
    && db'.journal == db.journal + [JournalEntry(id, from, amount, Debit), JournalEntry(id, to, amount, Credit)]
    && db'.wallets == db.wallets && db'.handles == db.handles && db'.deposits == db.deposits && db'.pods == db.pods
    && db'.categories == db.categories
  }

  /** Both accounts are there and differ, the sender has the amount and the receiver room for it, and neither the pair nor
      the identifier was used. */
  predicate CanMove(db: Db, from: int, to: int, amount: int, key: string, id: int, category: Option<int>) {
    && from in db.accounts && to in db.accounts && from != to
    && 0 < amount <= db.accounts[from].balance && db.accounts[to].balance + amount <= MAX_INT64
    && (key, from) !in db.keys && id !in db.txIds
    && (category.Some? ==> category.value in db.categories)
  }

  /** The ledger write succeeds exactly when the money can move and the commit is answered; it moves it exactly when it can
      and the write is not dropped, and otherwise changes nothing. */
  lemma ExecuteIff(db: Db, o: Order, fate: Fate)
    ensures var (db', r) := Execute(db, o, fate);
            var can := CanMove(db, o.from, o.to, o.amount, o.key, o.id, o.category);
            && (r.Ok? <==> can && fate.Answered?)
            && (r.Ok? ==> r.value == Tx(o.id, o.from, o.to, o.amount, o.key, o.category))
            && (if can && !fate.Dropped? then Moves(db, db', o.from, o.to, o.amount, o.key, o.id, o.category) else db' == db)
  {
  }

  /** The error of a refused write names its first reason. */
  lemma ExecuteErrors(db: Db, o: Order, fate: Fate)
    requires !fate.Dropped?
    ensures var r := Execute(db, o, fate).1;
            var there := o.from in db.accounts && o.to in db.accounts;
            var funded := there && db.accounts[o.from].balance >= o.amount;
            var valid := funded && o.amount > 0 && o.from != o.to;
            var unused := valid && o.id !in db.txIds && (o.key, o.from) !in db.keys;
            var filed := unused && (o.category.Some? ==> o.category.value in db.categories);
            && (r == Err(InsufficientFunds) <==> there && !funded)
            && (r == Err(InvalidInput) <==> funded && !valid)
            && (r == Err(AlreadyExists) <==> valid && !unused)
            && (r == Err(NotFound) <==> !there || (unused && !filed))
            && (r == Err(OutOfRange) <==> filed && db.accounts[o.to].balance + o.amount > MAX_INT64)
  {
  }

  /** Balances read back: the present one, or zero when the read failed. */
  predicate Reads(db: Db, account: int, read: bool, balance: int) {
    balance == if read && account in db.accounts then db.accounts[account].balance else 0
  }

  // ---- Transfers between users ----

  /** The category asked for, if any, was found to be the caller's. */
  predicate Filing(db: Db, in_: TransferInput, env: Env, category: Option<int>) {
    Filed(db, in_, category) && (in_.category.Category? ==> env.category)
  }

  /** A call whose parties are accepted and whose pair is new: it succeeds exactly when the pre-check was answered, the
      category is the caller's, the money can move and the commit is answered. Then exactly this money has moved, and the
      result carries the new balances. */
  lemma NewTransferIff(db: Db, in_: TransferInput, env: Env, from: int, to: int)
    requires WellFormed(db) && env.wallet && env.target && Goes(db, in_, from, to) && (TrimSpace(in_.key), from) !in db.keys
    ensures var (db', r) := Transfer(db, in_, env);
            var category := if in_.category.Category? then Some(in_.category.id) else None;
            var can := env.before && Filing(db, in_, env, category)
                       && CanMove(db, from, to, in_.amount, TrimSpace(in_.key), env.id, category);
            && (r.Ok? <==> can && env.fate.Answered?)
            && (if can && !env.fate.Dropped? then Moves(db, db', from, to, in_.amount, TrimSpace(in_.key), env.id, category)
                else db' == db)
            && (r.Ok? ==> Reads(db', from, env.from, r.value.fromBalance) && Reads(db', to, env.to, r.value.toBalance)
                          && r.value.tx == Tx(env.id, from, to, in_.amount, TrimSpace(in_.key), category)
                          && r.value.debit == None && r.value.credit == None)
  {
    hide TrimSpace, Execute, Indexed, Sound, DoubleEntry, CanMove, Moves, Goes;
    var key := TrimSpace(in_.key);
    AcceptedIff(db, in_, env, from, to);
    GoesPays(db, in_, from, to);
    FindNames(db, in_, from);
    FinishStep(db, Call(in_, Start), env);
    FinishStep(db, Call(in_, Resolved(from, to)), env);
    if env.before {
      FinishStep(db, Call(in_, Unseen(from, to)), env);
      var cat := CategoryOf(db, in_, env);
      if cat.Ok? {
        var o := Order(env.id, from, to, in_.amount, key, cat.value);
        FinishStep(db, Call(in_, Ready(from, to, cat.value)), env);
        ExecuteIff(db, o, env.fate);
        NeverIdempotencyKeyUsed(db, o, env.fate);
        var (db1, r1) := Execute(db, o, env.fate);
        if r1.Ok? {
          FinishStep(db1, Call(in_, Executed(r1.value)), env);
        }
      }
    }
  }

  /** A call whose parties are not accepted is an error and changes nothing. */
  lemma RefusedTransfer(db: Db, in_: TransferInput, env: Env)
    requires forall from, to :: env.wallet && env.target ==> !Goes(db, in_, from, to)
    ensures Transfer(db, in_, env).0 == db && Transfer(db, in_, env).1.Err?
  {
    hide TrimSpace, Goes;
    var r := Resolve(db, in_, env);
    if r.Ok? {
      AcceptedIff(db, in_, env, r.value.0, r.value.1);
    }
    FinishStep(db, Call(in_, Start), env);
  }

  // ---- Withdrawals and system transfers ----

  /** A withdrawal that is not a replay: the amount goes from the caller's wallet to the settlement account, within the
      limits, and the two new balances come back. */
  lemma WithdrawalIff(db: Db, settlement: int, user: Option<int>, amount: int, key: string, env: Env)
    requires user.Some? && user.value in db.wallets && env.before ==> Find(db, key, db.wallets[user.value]).None?
    ensures var (db', r) := Withdraw(db, settlement, user, amount, key, env);
            var can := && user.Some? && env.wallet && user.value in db.wallets && key != ""
                       && 100 <= amount <= 20000000
                       && CanMove(db, db.wallets[user.value], settlement, amount, key, env.id, None);
            && (r.Ok? <==> can && env.fate.Answered?)
            && (if can && !env.fate.Dropped? then Moves(db, db', db.wallets[user.value], settlement, amount, key, env.id, None)
                else db' == db)
            && (r.Ok? ==>
                  && r.value.tx == Tx(env.id, db.wallets[user.value], settlement, amount, key, None)
                  && Reads(db', db.wallets[user.value], env.from, r.value.fromBalance)
                  && Reads(db', settlement, env.to, r.value.toBalance))
  {
    hide Execute, Moves, CanMove, Replay;
    if user.Some? && user.value in db.wallets {
      ExecuteIff(db, Order(env.id, db.wallets[user.value], settlement, amount, key, None), env.fate);
    }
  }

  /** A system transfer goes from the first account named to the second. */
  lemma SystemTransferIff(db: Db, from: int, to: int, amount: int, key: string, env: Env)
    ensures var (db', r) := SystemTransfer(db, from, to, amount, key, env);
            var can := TrimSpace(key) != "" && CanMove(db, from, to, amount, key, env.id, None);
            && (r.Ok? <==> can && env.fate.Answered?)
            && (if can && !env.fate.Dropped? then Moves(db, db', from, to, amount, key, env.id, None) else db' == db)
            && (r.Ok? ==> r.value.tx == Tx(env.id, from, to, amount, key, None)
                          && Reads(db', from, env.from, r.value.fromBalance) && Reads(db', to, env.to, r.value.toBalance))
  {
    hide Execute, Moves, TrimSpace;
    ExecuteIff(db, Order(env.id, from, to, amount, key, None), env.fate);
  }

  // ---- Pods ----

  predicate Says(direction: string, word: string) {
    ToLower(TrimSpace(direction)) == word
  }

  /** The pod is the caller's own, and the caller has a wallet. */
  predicate OwnPod(db: Db, in_: PodInput, env: Env) {
    && in_.user.Some? && in_.pod.Some? && env.target && env.wallet
    && in_.pod.value in db.pods && db.pods[in_.pod.value].user == in_.user.value && in_.user.value in db.wallets
  }

  function WalletOf(db: Db, in_: PodInput): int
    requires in_.user.Some? && in_.user.value in db.wallets
  {
    db.wallets[in_.user.value]
  }

  function PodOf(db: Db, in_: PodInput): int
    requires in_.pod.Some? && in_.pod.value in db.pods
  {
    db.pods[in_.pod.value].account
  }

  function PodKey(in_: PodInput, env: Env): string {
    if TrimSpace(in_.key) == "" then env.freshKey else TrimSpace(in_.key)
  }

  /** A deposit takes the amount from the wallet of the pod's owner and adds it to the pod, however "deposit" is spelled;
      it succeeds exactly for the owner and when the money can move. The two new balances come back under their names. */
  lemma PodDepositIff(db: Db, in_: PodInput, env: Env)
    requires Says(in_.direction, "deposit")
    ensures var (db', r) := TransferToPod(db, in_, env);
            var can := OwnPod(db, in_, env)
                       && CanMove(db, WalletOf(db, in_), PodOf(db, in_), in_.amount, PodKey(in_, env), env.id, None);
            && (r.Ok? <==> can && env.fate.Answered?)
            && (if can && !env.fate.Dropped?
                then Moves(db, db', WalletOf(db, in_), PodOf(db, in_), in_.amount, PodKey(in_, env), env.id, None)
                else db' == db)
            && (r.Ok? ==> Reads(db', WalletOf(db, in_), env.from, r.value.walletBalance)
                          && Reads(db', PodOf(db, in_), env.to, r.value.podBalance)
                          && r.value.tx.from == WalletOf(db, in_) && r.value.tx.to == PodOf(db, in_)
                          && r.value.tx.amount == in_.amount)
  {
    hide Execute, Moves, CanMove, TrimSpace, ToLower;
    assert "deposit"[0] != "withdraw"[0];
    if OwnPod(db, in_, env) {
      var o := Order(env.id, WalletOf(db, in_), PodOf(db, in_), in_.amount, PodKey(in_, env), None);
      if in_.amount > 0 {
        ExecuteIff(db, o, env.fate);
        assert TransferToPod(db, in_, env).0 == Execute(db, o, env.fate).0;
      } else {
        CannotMoveNothing(db, o);
      }
    }
  }

  /** A withdrawal from a pod goes the other way. */
  lemma PodWithdrawIff(db: Db, in_: PodInput, env: Env)
    requires Says(in_.direction, "withdraw")
    ensures var (db', r) := TransferToPod(db, in_, env);
            var can := OwnPod(db, in_, env)
                       && CanMove(db, PodOf(db, in_), WalletOf(db, in_), in_.amount, PodKey(in_, env), env.id, None);
            && (r.Ok? <==> can && env.fate.Answered?)
            && (if can && !env.fate.Dropped?
                then Moves(db, db', PodOf(db, in_), WalletOf(db, in_), in_.amount, PodKey(in_, env), env.id, None)
                else db' == db)
            && (r.Ok? ==> Reads(db', WalletOf(db, in_), env.to, r.value.walletBalance)
                          && Reads(db', PodOf(db, in_), env.from, r.value.podBalance)
                          && r.value.tx.from == PodOf(db, in_) && r.value.tx.to == WalletOf(db, in_)
                          && r.value.tx.amount == in_.amount)
  {
    hide Execute, Moves, CanMove, TrimSpace, ToLower;
    assert "deposit"[0] != "withdraw"[0];
    if OwnPod(db, in_, env) {
      var o := Order(env.id, PodOf(db, in_), WalletOf(db, in_), in_.amount, PodKey(in_, env), None);
      if in_.amount > 0 {
        ExecuteIff(db, o, env.fate);
        assert TransferToPod(db, in_, env).0 == Execute(db, o, env.fate).0;
      } else {
        CannotMoveNothing(db, o);
      }
    }
  }

  lemma CannotMoveNothing(db: Db, o: Order)
    requires o.amount <= 0
    ensures !CanMove(db, o.from, o.to, o.amount, o.key, o.id, o.category)
  {
  }

  /** Any other word, a stranger or a missing pod moves nothing. */
  lemma PodRefused(db: Db, in_: PodInput, env: Env)
    requires !Says(in_.direction, "deposit") && !Says(in_.direction, "withdraw")
    ensures TransferToPod(db, in_, env).0 == db && TransferToPod(db, in_, env).1.Err?
    ensures in_.user.Some? && in_.pod.Some? ==> TransferToPod(db, in_, env).1 == Err(InvalidInput)
  {
    hide TrimSpace, ToLower;
  }

  /** A new pod of the caller with an account of its own that is empty, and nothing else, or nothing at all. */
  lemma AddPodIff(db: Db, user: Option<int>, name: string, target: Option<int>, pod: int, account: int, fate: Fate)
    ensures var (db', e) := CreatePod(db, user, name, target, pod, account, fate);
            var can := user.Some? && TrimSpace(name) != "" && (target.Some? ==> target.value > 0)
                       && account !in db.accounts && pod !in db.pods;
            && (e == None <==> can && fate.Answered?)
            && db' == (if can && !fate.Dropped?
                       then db.(accounts := db.accounts[account := Account(PodAccount, 0, 0)],
                                pods := db.pods[pod := Pod(account, user.value)])
                       else db)
  {
    hide TrimSpace, HasSettlement;
  }

  /** A pod goes only when its owner asks and its account is empty; its account stays. */
  lemma RemovePodIff(db: Db, user: Option<int>, pod: Option<int>, env: Env)
    ensures var (db', e) := DeletePod(db, user, pod, env);
            var can := && user.Some? && pod.Some? && env.target && env.from
                       && pod.value in db.pods && db.pods[pod.value].user == user.value
                       && db.pods[pod.value].account in db.accounts && db.accounts[db.pods[pod.value].account].balance == 0;
            && (e == None <==> can && env.fate.Answered?)
            && db' == (if can && !env.fate.Dropped? then db.(pods := db.pods - {pod.value}) else db)
  {
  }

  // ---- Accounts and deposits ----

  /** An account is opened exactly when it, the wallet of its user, its handle and, for settlement, the settlement account
      are new; it starts empty. */
  lemma OpenAccountIff(db: Db, id: int, kind: AccountType, user: Option<int>, handle: Option<string>, fate: Fate)
    ensures var (db', e) := NewAccount(db, id, kind, user, handle, fate);
            var can := && id !in db.accounts && (kind.Wallet? && user.Some? ==> user.value !in db.wallets)
                       && (handle.Some? ==> handle.value !in db.handles)
                       && (kind.ExternalSettlement? ==>
                             forall a | a in db.accounts :: !db.accounts[a].kind.ExternalSettlement?);
            && (e == None <==> can && fate.Answered?)
            && (e == Some(AlreadyExists) <==> !can && !fate.Dropped?)
            && (if can && !fate.Dropped? then
                  && id in db'.accounts && db'.accounts[id].kind == kind && db'.accounts[id].balance == 0
                  && db'.accounts - {id} == db.accounts
                  && (forall u :: u in db'.wallets <==> u in db.wallets || (kind.Wallet? && user == Some(u)))
                  && (kind.Wallet? && user.Some? ==> db'.wallets[user.value] == id)
                  && (forall h :: h in db'.handles <==> h in db.handles || handle == Some(h))
                  && (handle.Some? ==> db'.handles[handle.value] == id)
                  && db'.txs == db.txs && db'.journal == db.journal && db'.deposits == db.deposits && db'.pods == db.pods
                else db' == db)
  {
  }

  /** A deposit is recorded for the caller's own wallet, with the amount asked for and nothing credited yet. */
  lemma InitiateIff(db: Db, user: Option<int>, amount: int, order: Option<string>, env: Env)
    ensures var (db', e) := InitiateDeposit(db, user, amount, order, env);
            var can := && user.Some? && env.wallet && user.value in db.wallets && 100 <= amount <= 50000000
                       && order.Some? && order.value !in db.deposits && db.wallets[user.value] in db.accounts;
            && (e == None <==> can && env.fate.Answered?)
            && db' == (if can && !env.fate.Dropped?
                       then db.(deposits := db.deposits[order.value := Deposit(db.wallets[user.value], amount, Created, false)])
                       else db)
  {
  }

  /** A confirmation credits the account of the deposit with its amount, once: exactly when the deposit awaits it, its
      account has room for it, and its order was not booked; the other balances, the settlement account's too, stay. */
  lemma ConfirmIff(db: Db, settlement: int, order: string, txId: int, fate: Fate)
    ensures var (db', r) := Confirm(db, settlement, order, txId, fate);
            var can := && order in db.deposits && db.deposits[order].status.Created?
                       && var d := db.deposits[order];
                       && d.amount > 0 && d.account in db.accounts && settlement in db.accounts && d.account != settlement
                       && db.accounts[d.account].balance + d.amount <= MAX_INT64
                       && (order, settlement) !in db.keys && txId !in db.txIds;
            && (r == Ok(true) <==> can && fate.Answered?)
            && (r == Ok(false) <==> order in db.deposits && !db.deposits[order].status.Created? && fate.Answered?)
            && (if can && !fate.Dropped? then
                  var d := db.deposits[order];
                  && db'.accounts.Keys == db.accounts.Keys
                  && db'.accounts[d.account].balance == db.accounts[d.account].balance + d.amount
                  && (forall a | a in db.accounts && a != d.account :: db'.accounts[a] == db.accounts[a])
                  && db'.deposits == db.deposits[order := Deposit(d.account, d.amount, Paid, true)]
                  && db'.txs == db.txs + [Tx(txId, settlement, d.account, d.amount, order, None)]
                  && db'.journal == db.journal + [JournalEntry(txId, settlement, d.amount, Debit),
                                                  JournalEntry(txId, d.account, d.amount, Credit)]
                  && db'.wallets == db.wallets && db'.handles == db.handles && db'.pods == db.pods
                else db' == db)
  {
  }

  /** A failure marks the deposit and moves no money. */
  lemma FailIff(db: Db, order: string, fate: Fate)
    ensures var (db', e) := FailDeposit(db, order, fate);
            && (e == None <==> order in db.deposits && fate.Answered?)
            && db' == (if order in db.deposits && !fate.Dropped?
                       then db.(deposits := db.deposits[order := db.deposits[order].(status := Failed)])
                       else db)
  {
  }
}
