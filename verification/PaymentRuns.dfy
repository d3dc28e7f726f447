/** The books over every run of the payment service. */
module PaymentRuns {
  import opened Common
  import opened Sums
  import opened Strings
  import opened Ledger
  import opened LedgerLaws
  import opened Payments

  datatype Command =
    | TransferCmd(input: TransferInput, env: Env)
    | WithdrawCmd(user: Option<int>, amount: int, key: string, env: Env)
    | SystemCmd(from: int, to: int, amount: int, key: string, env: Env)
    | PodCmd(pod: PodInput, env: Env)
    | CreatePodCmd(user: Option<int>, name: string, target: Option<int>, podId: int, account: int, fate: Fate)
    | DeletePodCmd(user: Option<int>, gone: Option<int>, env: Env)
    | DepositCmd(user: Option<int>, amount: int, order: Option<string>, env: Env)
    | ConfirmCmd(orderId: string, txId: int, fate: Fate)
    | FailCmd(orderId: string, fate: Fate)
    | AccountCmd(account: int, kind: AccountType, owner: Option<int>, handle: Option<string>, fate: Fate)

  function Step(settlement: int, db: Db, c: Command): Db {
    match c
    case TransferCmd(i, env) => Transfer(db, i, env).0
    case WithdrawCmd(u, amount, key, env) => Withdraw(db, settlement, u, amount, key, env).0
    case SystemCmd(from, to, amount, key, env) => SystemTransfer(db, from, to, amount, key, env).0
    case PodCmd(i, env) => TransferToPod(db, i, env).0
    case CreatePodCmd(u, name, target, pod, account, fate) => CreatePod(db, u, name, target, pod, account, fate).0
    case DeletePodCmd(u, pod, env) => DeletePod(db, u, pod, env).0
    case DepositCmd(u, amount, order, env) => InitiateDeposit(db, u, amount, order, env).0
    case ConfirmCmd(order, txId, fate) => Confirm(db, settlement, order, txId, fate).0
    case FailCmd(order, fate) => FailDeposit(db, order, fate).0
    case AccountCmd(a, kind, owner, handle, fate) => NewAccount(db, a, kind, owner, handle, fate).0
  }

  function Run(settlement: int, db: Db, cs: seq<Command>): Db {
    if cs == [] then db else Step(settlement, Run(settlement, db, cs[..|cs| - 1]), cs[|cs| - 1])
  }

  /** A database before its first transaction; accounts may have been seeded with money. */
  ghost predicate Initial(db: Db) {
    db.txs == [] && db.txIds == {} && db.keys == map[] && db.journal == [] && db.deposits == map[] && Sound(db)
  }

  /** Accounts keep their kind and their owner, and handles and categories theirs. */
  ghost predicate Registers(db: Db, db': Db) {
    && db.categories == db'.categories
    && (forall a | a in db.accounts :: a in db'.accounts && db'.accounts[a].kind == db.accounts[a].kind)
    && (forall u | u in db.wallets :: u in db'.wallets && db'.wallets[u] == db.wallets[u])
    && (forall h | h in db.handles :: h in db'.handles && db'.handles[h] == db.handles[h])
  }

  ghost predicate Records(db: Db, db': Db) {
    && db.txs <= db'.txs && db.journal <= db'.journal
    && (forall p | p in db.keys :: p in db'.keys && db'.keys[p] == db.keys[p])
  }

  /** Nothing recorded is ever taken back, and nothing registered ever changes hands. */
  ghost predicate Grows(db: Db, db': Db) {
    Registers(db, db') && Records(db, db')
  }

  ghost predicate Books(start: map<int, int>, settlement: int, db: Db) {
    WellFormed(db) && Balanced(start, settlement, db)
  }

  ghost predicate Kept(start: map<int, int>, settlement: int, db: Db, db': Db) {
    Books(start, settlement, db') && Grows(db, db')
  }

  lemma ExecuteGrows(db: Db, o: Order, fate: Fate)
    ensures Grows(db, Execute(db, o, fate).0) && Execute(db, o, fate).0.deposits == db.deposits
  {
    hide Registers, Records;
    ExecuteRegisters(db, o, fate);
    ExecuteRecords(db, o, fate);
  }

  lemma ExecuteRegisters(db: Db, o: Order, fate: Fate)
    ensures Registers(db, Execute(db, o, fate).0)
  {
  }

  lemma ExecuteRecords(db: Db, o: Order, fate: Fate)
    ensures Records(db, Execute(db, o, fate).0)
  {
  }

  lemma ExecuteKeeps(start: map<int, int>, settlement: int, db: Db, o: Order, fate: Fate)
    requires Books(start, settlement, db)
    ensures Kept(start, settlement, db, Execute(db, o, fate).0)
  {
    hide Balanced, WellFormed, Execute, Grows;
    ExecuteWellFormed(db, o, fate);
    ExecuteBalanced(db, o, fate, start, settlement);
    ExecuteGrows(db, o, fate);
  }

  lemma {:induction false} FinishKeeps(start: map<int, int>, settlement: int, db: Db, c: Call, env: Env)
    requires Books(start, settlement, db)
    ensures Kept(start, settlement, db, Finish(db, c, env).0)
    decreases Rank(c.phase)
  {
    hide Balanced, WellFormed, Execute, Resolve, CategoryOf, Replay, Find;
    if !c.phase.Done? {
      var (db', c') := Advance(db, c, env);
      if c.phase.Ready? {
        ExecuteKeeps(start, settlement, db, Order(env.id, c.phase.from, c.phase.to, c.input.amount, TrimSpace(c.input.key),
                                                  c.phase.category), env.fate);
      }
      FinishKeeps(start, settlement, db', c', env);
      GrowsTransitive(db, db', Finish(db', c', env).0);
    }
  }

  lemma GrowsTransitive(a: Db, b: Db, c: Db)
    requires Grows(a, b) && Grows(b, c)
    ensures Grows(a, c)
  {
  }

  lemma NewAccountGrows(db: Db, id: int, kind: AccountType, user: Option<int>, handle: Option<string>, fate: Fate)
    ensures Grows(db, NewAccount(db, id, kind, user, handle, fate).0)
    ensures NewAccount(db, id, kind, user, handle, fate).0.deposits == db.deposits
  {
    hide HasSettlement, Registers;
    NewAccountRegisters(db, id, kind, user, handle, fate);
  }

  lemma NewAccountRegisters(db: Db, id: int, kind: AccountType, user: Option<int>, handle: Option<string>, fate: Fate)
    ensures Registers(db, NewAccount(db, id, kind, user, handle, fate).0)
  {
    hide HasSettlement;
  }

  lemma NewAccountKeeps(start: map<int, int>, settlement: int, db: Db, id: int, kind: AccountType, user: Option<int>,
                        handle: Option<string>, fate: Fate)
    requires Books(start, settlement, db)
    ensures Kept(start, settlement, db, NewAccount(db, id, kind, user, handle, fate).0)
  {
    hide Balanced, WellFormed, NewAccount, Grows;
    NewAccountWellFormed(db, id, kind, user, handle, fate);
    NewAccountBalanced(db, id, kind, user, handle, fate, start, settlement);
    NewAccountGrows(db, id, kind, user, handle, fate);
  }

  lemma PodTableKeeps(start: map<int, int>, settlement: int, db: Db, pods: map<int, Pod>)
    requires Books(start, settlement, db)
    ensures Kept(start, settlement, db, db.(pods := pods))
  {
  }

  lemma DepositTableKeeps(start: map<int, int>, settlement: int, db: Db, order: string, d: Deposit)
    requires Books(start, settlement, db) && d.amount > 0 && (d.status.Created? ==> !d.completed)
    requires if order in db.deposits then d.completed == db.deposits[order].completed && d.amount == db.deposits[order].amount
             else !d.completed
    ensures Kept(start, settlement, db, db.(deposits := db.deposits[order := d]))
  {
    hide Balanced;
    assert Credited(db.deposits[order := d]) == Credited(db.deposits);
    DepositBalanced(db, db.deposits[order := d], start, settlement);
  }

  lemma WithdrawKeeps(start: map<int, int>, settlement: int, db: Db, user: Option<int>, amount: int, key: string, env: Env)
    requires Books(start, settlement, db)
    ensures Kept(start, settlement, db, Withdraw(db, settlement, user, amount, key, env).0)
  {
    hide Balanced, WellFormed, Execute, Replay;
    if user.Some? && user.value in db.wallets {
      ExecuteKeeps(start, settlement, db, Order(env.id, db.wallets[user.value], settlement, amount, key, None), env.fate);
    }
  }

  lemma SystemKeeps(start: map<int, int>, settlement: int, db: Db, from: int, to: int, amount: int, key: string, env: Env)
    requires Books(start, settlement, db)
    ensures Kept(start, settlement, db, SystemTransfer(db, from, to, amount, key, env).0)
  {
    hide Balanced, WellFormed, Execute;
    ExecuteKeeps(start, settlement, db, Order(env.id, from, to, amount, key, None), env.fate);
  }

  lemma PodCmdKeeps(start: map<int, int>, settlement: int, db: Db, i: PodInput, env: Env)
    requires Books(start, settlement, db)
    ensures Kept(start, settlement, db, TransferToPod(db, i, env).0)
  {
    hide Balanced, WellFormed, Execute;
    if i.user.Some? && i.pod.Some? && i.pod.value in db.pods && i.user.value in db.wallets {
      var key := if TrimSpace(i.key) == "" then env.freshKey else TrimSpace(i.key);
      var wallet, pod := db.wallets[i.user.value], db.pods[i.pod.value].account;
      ExecuteKeeps(start, settlement, db, Order(env.id, wallet, pod, i.amount, key, None), env.fate);
      ExecuteKeeps(start, settlement, db, Order(env.id, pod, wallet, i.amount, key, None), env.fate);
    }
  }

  lemma CreatePodKeeps(start: map<int, int>, settlement: int, db: Db, user: Option<int>, name: string, target: Option<int>,
                       pod: int, account: int, fate: Fate)
    requires Books(start, settlement, db)
    ensures Kept(start, settlement, db, CreatePod(db, user, name, target, pod, account, fate).0)
  {
    hide Books, NewAccount;
    NewAccountKeeps(start, settlement, db, account, PodAccount, user, None, Answered);
    if user.Some? {
      var db1 := NewAccount(db, account, PodAccount, user, None, Answered).0;
      PodTableKeeps(start, settlement, db1, db1.pods[pod := Pod(account, user.value)]);
    }
  }

  lemma DeletePodKeeps(start: map<int, int>, settlement: int, db: Db, user: Option<int>, pod: Option<int>, env: Env)
    requires Books(start, settlement, db)
    ensures Kept(start, settlement, db, DeletePod(db, user, pod, env).0)
  {
    hide Books;
    if pod.Some? {
      PodTableKeeps(start, settlement, db, db.pods - {pod.value});
    }
  }

  lemma DepositKeeps(start: map<int, int>, settlement: int, db: Db, user: Option<int>, amount: int, order: Option<string>, env: Env)
    requires Books(start, settlement, db)
    ensures Kept(start, settlement, db, InitiateDeposit(db, user, amount, order, env).0)
  {
    hide Books;
    if user.Some? && user.value in db.wallets && order.Some? && order.value !in db.deposits && amount > 0 {
      DepositTableKeeps(start, settlement, db, order.value, Deposit(db.wallets[user.value], amount, Created, false));
    }
  }

  lemma FailKeeps(start: map<int, int>, settlement: int, db: Db, order: string, fate: Fate)
    requires Books(start, settlement, db)
    ensures Kept(start, settlement, db, FailDeposit(db, order, fate).0)
  {
    hide Balanced;
    if order in db.deposits {
      DepositTableKeeps(start, settlement, db, order, db.deposits[order].(status := Failed));
    }
  }

  lemma ConfirmGrows(db: Db, settlement: int, order: string, txId: int, fate: Fate)
    requires Indexed(db)
    ensures Grows(db, Confirm(db, settlement, order, txId, fate).0)
  {
    var db' := Confirm(db, settlement, order, txId, fate).0;
    if db' != db {
      assert (order, settlement) !in db.keys;
    }
  }

  lemma ConfirmKeeps(start: map<int, int>, settlement: int, db: Db, order: string, txId: int, fate: Fate)
    requires Books(start, settlement, db)
    ensures Kept(start, settlement, db, Confirm(db, settlement, order, txId, fate).0)
  {
    hide Balanced, Sound, DoubleEntry, Indexed, Confirm, Grows;
    ConfirmWellFormed(db, settlement, order, txId, fate);
    ConfirmBalanced(db, order, txId, fate, start, settlement);
    ConfirmGrows(db, settlement, order, txId, fate);
  }

  lemma StepKeeps(start: map<int, int>, settlement: int, db: Db, c: Command)
    requires Books(start, settlement, db)
    ensures Kept(start, settlement, db, Step(settlement, db, c))
  {
    hide Books, Grows, Finish, Withdraw, SystemTransfer, TransferToPod, CreatePod, DeletePod, InitiateDeposit, Confirm,
         FailDeposit, NewAccount;
    match c
    case TransferCmd(i, env) => FinishKeeps(start, settlement, db, Call(i, Start), env);
    case WithdrawCmd(u, amount, key, env) => WithdrawKeeps(start, settlement, db, u, amount, key, env);
    case SystemCmd(from, to, amount, key, env) => SystemKeeps(start, settlement, db, from, to, amount, key, env);
    case PodCmd(i, env) => PodCmdKeeps(start, settlement, db, i, env);
    case CreatePodCmd(u, name, target, pod, account, fate) =>
      CreatePodKeeps(start, settlement, db, u, name, target, pod, account, fate);
    case DeletePodCmd(u, pod, env) => DeletePodKeeps(start, settlement, db, u, pod, env);
    case DepositCmd(u, amount, order, env) => DepositKeeps(start, settlement, db, u, amount, order, env);
    case ConfirmCmd(order, txId, fate) => ConfirmKeeps(start, settlement, db, order, txId, fate);
    case FailCmd(order, fate) => FailKeeps(start, settlement, db, order, fate);
    case AccountCmd(a, kind, owner, handle, fate) => NewAccountKeeps(start, settlement, db, a, kind, owner, handle, fate);
  }

  lemma SeedIsBalanced(db: Db, settlement: int)
    requires Initial(db)
    ensures Books(Balances(db), settlement, db)
  {
  }

  /** Every run, with any failures in it: the journal is double entry, keys are unique, no balance is negative,
      every account but the settlement account equals its opening balance plus its journal, and the total is the
      opening total plus the deposits credited. */
  lemma {:induction false} RunKeepsBooks(settlement: int, db: Db, cs: seq<Command>)
    requires Initial(db)
    ensures Kept(Balances(db), settlement, db, Run(settlement, db, cs))
  {
    if cs == [] {
      SeedIsBalanced(db, settlement);
    } else {
      hide Books, Initial;
      var init := cs[..|cs| - 1];
      RunKeepsBooks(settlement, db, init);
      StepKeeps(Balances(db), settlement, Run(settlement, db, init), cs[|cs| - 1]);
      GrowsTransitive(db, Run(settlement, db, init), Run(settlement, db, cs));
    }
  }

  // ---- What the books say ----

  /** Money is conserved, and the settlement account agrees with its journal, exactly when no deposit was credited. */
  lemma ConservedExactly(settlement: int, db: Db, cs: seq<Command>)
    requires Initial(db)
    ensures var end := Run(settlement, db, cs);
            && (Sum(Balances(end)) == Sum(Balances(db)) <==> Credited(end.deposits) == map[])
            && (settlement in end.accounts ==>
                  (end.accounts[settlement].balance == Opening(Balances(db), settlement) + Net(end.journal, settlement)
                   <==> Credited(end.deposits) == map[]))
  {
    RunKeepsBooks(settlement, db, cs);
    var credited := Credited(Run(settlement, db, cs).deposits);
    SumZero(credited);
    assert credited == map[] <==> forall o | o in credited :: credited[o] == 0;
  }

  /** The entries read back for a transaction are its debit and its credit, in that order. */
  lemma EntriesExact(db: Db, i: nat)
    requires WellFormed(db) && i < |db.txs|
    ensures EntriesOf(db.journal, db.txs[i].id) == [DebitOf(db.txs[i]), CreditOf(db.txs[i])]
  {
    EntriesUpTo(db, i, |db.txs|);
    assert db.journal[..2 * |db.txs|] == db.journal;
  }

  lemma {:induction false} EntriesUpTo(db: Db, i: nat, n: nat)
    requires WellFormed(db) && i < |db.txs| && n <= |db.txs|
    ensures EntriesOf(db.journal[..2 * n], db.txs[i].id)
         == if i < n then [DebitOf(db.txs[i]), CreditOf(db.txs[i])] else []
  {
    if n > 0 {
      EntriesUpTo(db, i, n - 1);
      var j := db.journal;
      assert j[..2 * n][..2 * n - 1] == j[..2 * n - 1];
      assert j[..2 * n - 1][..2 * n - 2] == j[..2 * (n - 1)];
      assert j[2 * (n - 1)] == DebitOf(db.txs[n - 1]) && j[2 * (n - 1) + 1] == CreditOf(db.txs[n - 1]);
      if i < n - 1 {
        assert db.txs[i].id != db.txs[n - 1].id;
      }
    }
  }

  // ---- Deposits ----

  ghost predicate Decided(db: Db, order: string) {
    order in db.deposits && !db.deposits[order].status.Created?
  }

  lemma ConfirmDecided(settlement: int, db: Db, other: string, txId: int, fate: Fate, order: string)
    requires Decided(db, order)
    ensures var db' := Confirm(db, settlement, other, txId, fate).0;
            Decided(db', order) && db'.deposits[order] == db.deposits[order]
  {
  }

  /** Only the three deposit commands touch deposits. */
  lemma SameDeposits(settlement: int, db: Db, c: Command)
    requires !c.DepositCmd? && !c.ConfirmCmd? && !c.FailCmd?
    ensures Step(settlement, db, c).deposits == db.deposits
  {
    hide Execute, NewAccount, Finish, Replay;
    match c
    case TransferCmd(i, env) => FinishDeposits(db, Call(i, Start), env);
    case WithdrawCmd(u, amount, key, env) =>
      if u.Some? && u.value in db.wallets {
        ExecuteGrows(db, Order(env.id, db.wallets[u.value], settlement, amount, key, None), env.fate);
      }
    case SystemCmd(from, to, amount, key, env) => ExecuteGrows(db, Order(env.id, from, to, amount, key, None), env.fate);
    case PodCmd(i, env) =>
      if i.user.Some? && i.pod.Some? && i.pod.value in db.pods && i.user.value in db.wallets {
        var key := if TrimSpace(i.key) == "" then env.freshKey else TrimSpace(i.key);
        var wallet, pod := db.wallets[i.user.value], db.pods[i.pod.value].account;
        ExecuteGrows(db, Order(env.id, wallet, pod, i.amount, key, None), env.fate);
        ExecuteGrows(db, Order(env.id, pod, wallet, i.amount, key, None), env.fate);
      }
    case CreatePodCmd(u, _, _, _, account, _) => NewAccountGrows(db, account, PodAccount, u, None, Answered);
    case AccountCmd(a, kind, owner, handle, fate) => NewAccountGrows(db, a, kind, owner, handle, fate);
    case DeletePodCmd(_, _, _) =>
  }

  lemma DecidedStep(settlement: int, db: Db, c: Command, order: string)
    requires Decided(db, order)
    ensures var db' := Step(settlement, db, c);
            Decided(db', order) && db'.deposits[order].completed == db.deposits[order].completed
  {
    hide Finish, Withdraw, SystemTransfer, TransferToPod, CreatePod, DeletePod, NewAccount, Confirm;
    match c
    case DepositCmd(_, _, _, _) =>
    case ConfirmCmd(other, txId, fate) => ConfirmDecided(settlement, db, other, txId, fate, order);
    case FailCmd(_, _) =>
    case _ => SameDeposits(settlement, db, c);
  }

  lemma {:induction false} FinishDeposits(db: Db, c: Call, env: Env)
    ensures Finish(db, c, env).0.deposits == db.deposits
    decreases Rank(c.phase)
  {
    if !c.phase.Done? {
      FinishDeposits(Advance(db, c, env).0, Advance(db, c, env).1, env);
    }
  }

  /** A deposit that was paid is never credited again, and one that was marked failed first never is:
      from then on every confirmation, after any run, answers false and changes nothing. */
  lemma {:induction false} DecidedForever(settlement: int, db: Db, cs: seq<Command>, order: string, txId: int)
    requires Decided(db, order)
    ensures var end := Run(settlement, db, cs);
            && Decided(end, order)
            && end.deposits[order].completed == db.deposits[order].completed
            && Confirm(end, settlement, order, txId, Answered) == (end, Ok(false))
  {
    if cs != [] {
      var init := cs[..|cs| - 1];
      DecidedForever(settlement, db, init, order, txId);
      DecidedStep(settlement, Run(settlement, db, init), cs[|cs| - 1], order);
    }
  }

  /** The command is a confirmation or a failure of a deposit that awaits one, and takes effect. */
  predicate Settles(settlement: int, db: Db, c: Command, order: string) {
    && order in db.deposits && db.deposits[order].status.Created?
    && ((c.ConfirmCmd? && c.orderId == order) || (c.FailCmd? && c.orderId == order))
    && Step(settlement, db, c) != db
  }

  /** The first command of the run that settles the deposit. */
  function FirstVerdict(settlement: int, db: Db, cs: seq<Command>, order: string): Option<Command> {
    if cs == [] then None
    else
      var init, c := cs[..|cs| - 1], cs[|cs| - 1];
      var earlier := FirstVerdict(settlement, db, init, order);
      if earlier.None? && Settles(settlement, Run(settlement, db, init), c, order) then Some(c) else earlier
  }

  predicate Waiting(db: Db, order: string) {
    order in db.deposits ==> db.deposits[order].status.Created? && !db.deposits[order].completed
  }

  lemma WaitingStep(settlement: int, db: Db, c: Command, order: string)
    requires Waiting(db, order)
    ensures var db' := Step(settlement, db, c);
            if Settles(settlement, db, c, order) then Decided(db', order) && (db'.deposits[order].completed <==> c.ConfirmCmd?)
            else Waiting(db', order)
  {
    hide Finish, Withdraw, SystemTransfer, TransferToPod, CreatePod, DeletePod, NewAccount, DepositRefusal;
    match c
    case DepositCmd(_, _, _, _) =>
    case ConfirmCmd(_, _, _) =>
    case FailCmd(_, _) =>
    case _ => SameDeposits(settlement, db, c);
  }

  /** Over every run: a deposit is credited exactly when the first confirmation or failure that took effect was a
      confirmation, and it is open to one exactly while there was neither. */
  lemma {:induction false} FirstVerdictDecides(settlement: int, db: Db, cs: seq<Command>, order: string)
    requires db.deposits == map[]
    ensures var end, verdict := Run(settlement, db, cs), FirstVerdict(settlement, db, cs, order);
            && (verdict.Some? <==> Decided(end, order))
            && (order in end.deposits && end.deposits[order].completed <==> verdict.Some? && verdict.value.ConfirmCmd?)
            && (verdict.None? ==> Waiting(end, order))
  {
    hide Step, Settles;
    if cs != [] {
      var init, c := cs[..|cs| - 1], cs[|cs| - 1];
      FirstVerdictDecides(settlement, db, init, order);
      var before := Run(settlement, db, init);
      if FirstVerdict(settlement, db, init, order).Some? {
        DecidedStep(settlement, before, c, order);
      } else {
        WaitingStep(settlement, before, c, order);
      }
    }
  }
}
