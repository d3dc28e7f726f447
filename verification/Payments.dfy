/** The payment use cases: transfers between users, withdrawals, pods, system transfers and deposits. */
module Payments {
  import opened Common
  import opened Strings
  import opened Ledger

  /** What a transfer returns: entries are filled in only when an earlier transfer is replayed. */
  datatype LedgerResult = LedgerResult(
    tx: Tx,
    debit: Option<JournalEntry>,
    credit: Option<JournalEntry>,
    fromBalance: int,
    toBalance: int)

  datatype CategoryRef = NoCategory | Malformed | Category(id: int)

  /** Identifiers that fail to parse are None. */
  datatype TransferInput = TransferInput(user: Option<int>, handle: string, amount: int, key: string, category: CategoryRef)

  /** Outcomes of the reads and of the ledger write of one call, and the identifiers generated for it. */
  datatype Env = Env(
    wallet: bool,
    target: bool,
    before: bool,
    category: bool,
    fate: Fate,
    id: int,
    freshKey: string,
    winner: bool,
    entries: bool,
    from: bool,
    to: bool)

  function EntriesOf(journal: seq<JournalEntry>, tx: int): seq<JournalEntry> {
    if journal == [] then []
    else
      var rest := EntriesOf(journal[..|journal| - 1], tx);
      if journal[|journal| - 1].tx == tx then rest + [journal[|journal| - 1]] else rest
  }

  function Last(entries: seq<JournalEntry>, d: Direction): Option<JournalEntry> {
    if entries == [] then None
    else if entries[|entries| - 1].direction == d then Some(entries[|entries| - 1])
    else Last(entries[..|entries| - 1], d)
  }

  function BalanceOr0(db: Db, read: bool, account: int): int {
    if read && account in db.accounts then db.accounts[account].balance else 0
  }

  /** An earlier transaction answered again: its own entries, and the balances of the moment. */
  function Replay(db: Db, t: Tx, env: Env): (r: Result<LedgerResult>)
  {
    if !env.entries then Err(Failure)
    else
      var es := EntriesOf(db.journal, t.id);
      Ok(LedgerResult(t, Last(es, Debit), Last(es, Credit), BalanceOr0(db, env.from, t.from), BalanceOr0(db, env.to, t.to)))
  }

  /** A transaction just made: the ledger write reads the new balances and returns no entries. */
  function Fresh(db: Db, t: Tx, env: Env): LedgerResult {
    LedgerResult(t, None, None, BalanceOr0(db, env.from, t.from), BalanceOr0(db, env.to, t.to))
  }

  function Find(db: Db, key: string, from: int): Option<Tx>
  {
    if (key, from) in db.keys && db.keys[(key, from)] < |db.txs| then Some(db.txs[db.keys[(key, from)]]) else None
  }

  // ---- Transfer between users ----

  /** Validation and the two lookups: sender and receiver, or the error. */
  function Resolve(db: Db, in_: TransferInput, env: Env): (r: Result<(int, int)>)
  {
    if in_.amount <= 0 || TrimSpace(in_.key) == "" then Err(InvalidInput)
    else if in_.user.None? then Err(Unauthorized)
    else if !env.wallet then Err(Failure)
    else if in_.user.value !in db.wallets then Err(NotFound)
    else if TrimSpace(in_.handle) == "" then Err(InvalidInput)
    else if !env.target then Err(Failure)
    else if TrimSpace(in_.handle) !in db.handles then Err(InvalidInput)
    else
      var from, to := db.wallets[in_.user.value], db.handles[TrimSpace(in_.handle)];
      if to !in db.accounts then Err(InvalidInput)
      else if !db.accounts[to].kind.Wallet? && !db.accounts[to].kind.MerchantSettlement? then Err(InvalidInput)
      else if from == to then Err(InvalidInput)
      else Ok((from, to))
  }

  /** The category must parse, exist and belong to the caller. */
  function CategoryOf(db: Db, in_: TransferInput, env: Env): (r: Result<Option<int>>)
  {
    match in_.category
    case NoCategory => Ok(None)
    case Malformed => Err(InvalidInput)
    case Category(c) =>
      if env.category && c in db.categories && in_.user == Some(db.categories[c]) then Ok(Some(c)) else Err(InvalidInput)
  }

  /** Where a call stands between two of its database accesses. */
  datatype Phase =
    | Start
    | Resolved(from: int, to: int)
    | Unseen(from: int, to: int)
    | Ready(from: int, to: int, category: Option<int>)
    | Lost(from: int)
    | Replaying(tx: Tx)
    | Executed(tx: Tx)
    | Done(result: Result<LedgerResult>)

  datatype Call = Call(input: TransferInput, phase: Phase)

  function Rank(p: Phase): nat {
    match p
    case Start => 6
    case Resolved(_, _) => 5
    case Unseen(_, _) => 4
    case Ready(_, _, _) => 3
    case Lost(_) => 2
    case Replaying(_) => 1
    case Executed(_) => 1
    case Done(_) => 0
  }

  /** One database access of a call. Other calls may run between any two of them. */
  function Advance(db: Db, c: Call, env: Env): (r: (Db, Call))
    ensures c.phase.Done? ==> r == (db, c)
    ensures !c.phase.Done? ==> Rank(r.1.phase) < Rank(c.phase)
    ensures r.1.input == c.input
  {
    var key := TrimSpace(c.input.key);
    match c.phase
    case Start =>
      var r := Resolve(db, c.input, env);
      (db, c.(phase := if r.Err? then Done(Err(r.error)) else Resolved(r.value.0, r.value.1)))
    case Resolved(from, to) =>
      (db, c.(phase :=
        if !env.before then Done(Err(Failure))
        else if Find(db, key, from).Some? then Replaying(Find(db, key, from).value)
        else Unseen(from, to)))
    case Unseen(from, to) =>
      var cat := CategoryOf(db, c.input, env);
      (db, c.(phase := if cat.Err? then Done(Err(cat.error)) else Ready(from, to, cat.value)))
    case Ready(from, to, cat) =>
      var (db', r) := Execute(db, Order(env.id, from, to, c.input.amount, key, cat), env.fate);
      (db', c.(phase :=
        if r.Ok? then Executed(r.value)
        else if r.error.IdempotencyKeyUsed? then Lost(from)
        else Done(Err(r.error))))
    case Lost(from) =>
      (db, c.(phase :=
        if !env.winner then Done(Err(Failure))
        else if Find(db, key, from).Some? then Replaying(Find(db, key, from).value)
        else Done(Err(NotFound))))
    case Replaying(t) => (db, c.(phase := Done(Replay(db, t, env))))
    case Executed(t) => (db, c.(phase := Done(Ok(Fresh(db, t, env)))))
    case Done(_) => (db, c)
  }

  /** A call that nothing interrupts. */
  function Finish(db: Db, c: Call, env: Env): (r: (Db, Call))
    ensures r.1.phase.Done?
    decreases Rank(c.phase)
  {
    if c.phase.Done? then (db, c)
    else var (db', c') := Advance(db, c, env); Finish(db', c', env)
  }

  lemma FinishStep(db: Db, c: Call, env: Env)
    requires !c.phase.Done?
    ensures Finish(db, c, env) == Finish(Advance(db, c, env).0, Advance(db, c, env).1, env)
  {
  }

  function Transfer(db: Db, in_: TransferInput, env: Env): (Db, Result<LedgerResult>) {
    var (db', c) := Finish(db, Call(in_, Start), env);
    (db', c.phase.result)
  }

  // ---- Withdrawals, system transfers, pods ----

  const MIN_WITHDRAWAL := 100
  const MAX_WITHDRAWAL := 200000 * 100

  /** RequestWithdrawal: the key is used as given, a failed pre-check is ignored, a used key is an error. */
  function Withdraw(db: Db, settlement: int, user: Option<int>, amount: int, key: string, env: Env): (r: (Db, Result<LedgerResult>))
  {
    if amount < MIN_WITHDRAWAL || amount > MAX_WITHDRAWAL || key == "" || user.None? then (db, Err(InvalidInput))
    else if !env.wallet then (db, Err(Failure))
    else if user.value !in db.wallets then (db, Err(NotFound))
    else
      var from := db.wallets[user.value];
      if env.before && Find(db, key, from).Some? then (db, Replay(db, Find(db, key, from).value, env))
      else
        var (db', r) := Execute(db, Order(env.id, from, settlement, amount, key, None), env.fate);
        (db', if r.Ok? then Ok(Fresh(db', r.value, env)) else Err(r.error))
  }

  function SystemTransfer(db: Db, from: int, to: int, amount: int, key: string, env: Env): (r: (Db, Result<LedgerResult>))
  {
    if amount <= 0 || TrimSpace(key) == "" || from == to then (db, Err(InvalidInput))
    else
      var (db', r) := Execute(db, Order(env.id, from, to, amount, key, None), env.fate);
      (db', if r.Ok? then Ok(Fresh(db', r.value, env)) else Err(r.error))
  }

  datatype PodInput = PodInput(user: Option<int>, pod: Option<int>, amount: int, direction: string, key: string)
  datatype PodResult = PodResult(tx: Tx, walletBalance: int, podBalance: int)

  /** TransferToPod: a missing key is replaced by a fresh one, and only the owner may move money. */
  function TransferToPod(db: Db, in_: PodInput, env: Env): (r: (Db, Result<PodResult>))
  {
    var direction := ToLower(TrimSpace(in_.direction));
    var key := if TrimSpace(in_.key) == "" then env.freshKey else TrimSpace(in_.key);
    if in_.user.None? then (db, Err(Unauthorized))
    else if in_.pod.None? then (db, Err(NotFound))
    else if in_.amount <= 0 || (direction != "deposit" && direction != "withdraw") then (db, Err(InvalidInput))
    else if !env.target then (db, Err(Failure))
    else if in_.pod.value !in db.pods then (db, Err(NotFound))
    else if db.pods[in_.pod.value].user != in_.user.value then (db, Err(Forbidden))
    else if !env.wallet then (db, Err(Failure))
    else if in_.user.value !in db.wallets then (db, Err(NotFound))
    else
      var wallet, pod := db.wallets[in_.user.value], db.pods[in_.pod.value].account;
      var deposit := direction == "deposit";
      var o := Order(env.id, if deposit then wallet else pod, if deposit then pod else wallet, in_.amount, key, None);
      var (db', r) := Execute(db, o, env.fate);
      (db', if r.Err? then Err(r.error)
            else
              var f := Fresh(db', r.value, env);
              Ok(if deposit then PodResult(r.value, f.fromBalance, f.toBalance) else PodResult(r.value, f.toBalance, f.fromBalance)))
  }

  /** A pod comes with its own empty account, in one transaction. */
  function CreatePod(db: Db, user: Option<int>, name: string, target: Option<int>, pod: int, account: int, fate: Fate)
    : (r: (Db, Option<Error>))
  {
    if user.None? then (db, Some(Unauthorized))
    else if TrimSpace(name) == "" || (target.Some? && target.value <= 0) then (db, Some(InvalidInput))
    else if fate.Dropped? then (db, Some(Failure))
    else
      var (db1, e) := NewAccount(db, account, PodAccount, user, None, Answered);
      if e.Some? then (db, e)
      else if pod in db.pods then (db, Some(AlreadyExists))
      else (db1.(pods := db1.pods[pod := Pod(account, user.value)]), if fate.Answered? then None else Some(Failure))
  }

  /** A pod is deleted only by its owner and only while its account is empty. */
  function DeletePod(db: Db, user: Option<int>, pod: Option<int>, env: Env): (r: (Db, Option<Error>))
  {
    if user.None? then (db, Some(Unauthorized))
    else if pod.None? then (db, Some(NotFound))
    else if !env.target then (db, Some(Failure))
    else if pod.value !in db.pods || db.pods[pod.value].user != user.value then (db, Some(NotFound))
    else if !env.from then (db, Some(Failure))
    else if db.pods[pod.value].account !in db.accounts then (db, Some(NotFound))
    else if db.accounts[db.pods[pod.value].account].balance != 0 then (db, Some(PodNonZeroBalance))
    else (if env.fate.Dropped? then db else db.(pods := db.pods - {pod.value}), if env.fate.Answered? then None else Some(Failure))
  }

  // ---- Deposits ----

  const MIN_DEPOSIT := 100
  const MAX_DEPOSIT := 500000 * 100

  /** InitiateDeposit: the order comes from the payment provider, and the deposit is recorded under it. */
  function InitiateDeposit(db: Db, user: Option<int>, amount: int, order: Option<string>, env: Env): (r: (Db, Option<Error>))
  {
    if amount < MIN_DEPOSIT || amount > MAX_DEPOSIT || user.None? then (db, Some(InvalidInput))
    else if !env.wallet then (db, Some(Failure))
    else if user.value !in db.wallets then (db, Some(NotFound))
    else if order.None? then (db, Some(Failure))
    else OpenDeposit(db, order.value, db.wallets[user.value], amount, env.fate)
  }

  // ---- The use cases, as they drive the repositories ----

  class TransferUsecase {
    const ledger: LedgerStore

    constructor (store: LedgerStore)
      ensures ledger == store
    {
      ledger := store;
    }

    method Entries(tx: int) returns (es: seq<JournalEntry>)
      ensures es == EntriesOf(ledger.journal, tx)
    {
      es := [];
      ghost var j := ledger.journal;
      for i := 0 to |ledger.journal|
        invariant es == EntriesOf(j[..i], tx)
      {
        assert j[..i + 1][..i] == j[..i];
        if ledger.journal[i].tx == tx {
          es := es + [ledger.journal[i]];
        }
      }
      assert j[..|j|] == j;
    }

    method ReplayTransfer(t: Tx, env: Env) returns (r: Result<LedgerResult>)
      ensures r == Replay(ledger.State(), t, env)
    {
      if !env.entries {
        return Err(Failure);
      }
      var es := Entries(t.id);
      var debit: Option<JournalEntry> := None;
      var credit: Option<JournalEntry> := None;
      for i := 0 to |es|
        invariant debit == Last(es[..i], Debit) && credit == Last(es[..i], Credit)
      {
        assert es[..i + 1][..i] == es[..i];
        match es[i].direction
        case Debit => debit := Some(es[i]);
        case Credit => credit := Some(es[i]);
      }
      assert es[..|es|] == es;
      var fromBalance, toBalance := 0, 0;
      if env.from && t.from in ledger.accounts {
        fromBalance := ledger.accounts[t.from].balance;
      }
      if env.to && t.to in ledger.accounts {
        toBalance := ledger.accounts[t.to].balance;
      }
      return Ok(LedgerResult(t, debit, credit, fromBalance, toBalance));
    }

    method Lookup(key: string, from: int) returns (t: Option<Tx>)
      ensures t == Find(ledger.State(), key, from)
    {
      if (key, from) in ledger.keys && ledger.keys[(key, from)] < |ledger.txs| {
        return Some(ledger.txs[ledger.keys[(key, from)]]);
      }
      return None;
    }

    /** The validation at the head of Transfer, and its two lookups. */
    method ResolveParties(in_: TransferInput, env: Env) returns (r: Result<(int, int)>)
      ensures r == Resolve(ledger.State(), in_, env)
    {
      if in_.amount <= 0 {
        return Err(InvalidInput);
      }
      if TrimSpace(in_.key) == "" {
        return Err(InvalidInput);
      }
      if in_.user.None? {
        return Err(Unauthorized);
      }
      if !env.wallet {
        return Err(Failure);
      }
      if in_.user.value !in ledger.wallets {
        return Err(NotFound);
      }
      var from := ledger.wallets[in_.user.value];
      var handle := TrimSpace(in_.handle);
      if handle == "" {
        return Err(InvalidInput);
      }
      if !env.target {
        return Err(Failure);
      }
      if handle !in ledger.handles || ledger.handles[handle] !in ledger.accounts {
        return Err(InvalidInput);
      }
      var to := ledger.handles[handle];
      if !ledger.accounts[to].kind.Wallet? && !ledger.accounts[to].kind.MerchantSettlement? {
        return Err(InvalidInput);
      }
      if from == to {
        return Err(InvalidInput);
      }
      return Ok((from, to));
    }

    method ResolveCategory(in_: TransferInput, env: Env) returns (r: Result<Option<int>>)
      ensures r == CategoryOf(ledger.State(), in_, env)
    {
      match in_.category
      case NoCategory => return Ok(None);
      case Malformed => return Err(InvalidInput);
      case Category(c) =>
        if !env.category || c !in ledger.categories || in_.user != Some(ledger.categories[c]) {
          return Err(InvalidInput);
        }
        return Ok(Some(c));
    }

    method TransferMoney(in_: TransferInput, env: Env) returns (r: Result<LedgerResult>)
      modifies ledger
      ensures (ledger.State(), r) == Transfer(old(ledger.State()), in_, env)
    {
      hide Resolve, CategoryOf, Execute, Replay, TrimSpace, Find;
      ghost var db0 := ledger.State();
      FinishStep(db0, Call(in_, Start), env);
      var parties := ResolveParties(in_, env);
      if parties.Err? {
        return Err(parties.error);
      }
      var (from, to) := parties.value;
      var key := TrimSpace(in_.key);
      FinishStep(db0, Call(in_, Resolved(from, to)), env);
      if !env.before {
        return Err(Failure);
      }
      var existing := Lookup(key, from);
      if existing.Some? {
        FinishStep(db0, Call(in_, Replaying(existing.value)), env);
        r := ReplayTransfer(existing.value, env);
        return;
      }
      FinishStep(db0, Call(in_, Unseen(from, to)), env);
      var category := ResolveCategory(in_, env);
      if category.Err? {
        return Err(category.error);
      }
      FinishStep(db0, Call(in_, Ready(from, to, category.value)), env);
      var executed := ledger.ExecuteTransfer(Order(env.id, from, to, in_.amount, key, category.value), env.fate);
      ghost var db1 := ledger.State();
      if executed.Err? {
        if executed.error.IdempotencyKeyUsed? {
          FinishStep(db1, Call(in_, Lost(from)), env);
          if !env.winner {
            return Err(Failure);
          }
          var winner := Lookup(key, from);
          if winner.None? {
            return Err(NotFound);
          }
          FinishStep(db1, Call(in_, Replaying(winner.value)), env);
          r := ReplayTransfer(winner.value, env);
          return;
        }
        return Err(executed.error);
      }
      FinishStep(db1, Call(in_, Executed(executed.value)), env);
      return Ok(Fresh(ledger.State(), executed.value, env));
    }

    method RequestWithdrawal(settlement: int, user: Option<int>, amount: int, key: string, env: Env) returns (r: Result<LedgerResult>)
      modifies ledger
      ensures (ledger.State(), r) == Withdraw(old(ledger.State()), settlement, user, amount, key, env)
    {
      if amount < MIN_WITHDRAWAL || amount > MAX_WITHDRAWAL {
        return Err(InvalidInput);
      }
      if key == "" || user.None? {
        return Err(InvalidInput);
      }
      if !env.wallet {
        return Err(Failure);
      }
      if user.value !in ledger.wallets {
        return Err(NotFound);
      }
      var from := ledger.wallets[user.value];
      var existing := Lookup(key, from);
      if env.before && existing.Some? {
        r := ReplayTransfer(existing.value, env);
        return;
      }
      var executed := ledger.ExecuteTransfer(Order(env.id, from, settlement, amount, key, None), env.fate);
      if executed.Err? {
        return Err(executed.error);
      }
      return Ok(Fresh(ledger.State(), executed.value, env));
    }
  }

  class SystemTransferUsecase {
    const ledger: LedgerStore

    constructor (store: LedgerStore)
      ensures ledger == store
    {
      ledger := store;
    }

    method TransferMoney(from: int, to: int, amount: int, key: string, env: Env) returns (r: Result<LedgerResult>)
      modifies ledger
      ensures (ledger.State(), r) == SystemTransfer(old(ledger.State()), from, to, amount, key, env)
    {
      if amount <= 0 {
        return Err(InvalidInput);
      }
      if TrimSpace(key) == "" || from == to {
        return Err(InvalidInput);
      }
      var executed := ledger.ExecuteTransfer(Order(env.id, from, to, amount, key, None), env.fate);
      if executed.Err? {
        return Err(executed.error);
      }
      return Ok(Fresh(ledger.State(), executed.value, env));
    }
  }

  class PodUsecase {
    const ledger: LedgerStore

    constructor (store: LedgerStore)
      ensures ledger == store
    {
      ledger := store;
    }

    method PodTransfer(in_: PodInput, env: Env) returns (r: Result<PodResult>)
      modifies ledger
      ensures (ledger.State(), r) == TransferToPod(old(ledger.State()), in_, env)
    {
      if in_.user.None? {
        return Err(Unauthorized);
      }
      if in_.pod.None? {
        return Err(NotFound);
      }
      if in_.amount <= 0 {
        return Err(InvalidInput);
      }
      var direction := ToLower(TrimSpace(in_.direction));
      if direction != "deposit" && direction != "withdraw" {
        return Err(InvalidInput);
      }
      var key := TrimSpace(in_.key);
      if key == "" {
        key := env.freshKey;
      }
      if !env.target {
        return Err(Failure);
      }
      if in_.pod.value !in ledger.pods {
        return Err(NotFound);
      }
      var pod := ledger.pods[in_.pod.value];
      if pod.user != in_.user.value {
        return Err(Forbidden);
      }
      if !env.wallet {
        return Err(Failure);
      }
      if in_.user.value !in ledger.wallets {
        return Err(NotFound);
      }
      var from, to := ledger.wallets[in_.user.value], pod.account;
      if direction != "deposit" {
        from, to := to, from;
      }
      var executed := ledger.ExecuteTransfer(Order(env.id, from, to, in_.amount, key, None), env.fate);
      if executed.Err? {
        return Err(executed.error);
      }
      var f := Fresh(ledger.State(), executed.value, env);
      if direction == "deposit" {
        return Ok(PodResult(executed.value, f.fromBalance, f.toBalance));
      }
      return Ok(PodResult(executed.value, f.toBalance, f.fromBalance));
    }

    /** Account and pod are created in one transaction: if the pod cannot be, the account is rolled back. */
    method AddPod(user: Option<int>, name: string, target: Option<int>, pod: int, account: int, fate: Fate) returns (err: Option<Error>)
      modifies ledger
      ensures (ledger.State(), err) == CreatePod(old(ledger.State()), user, name, target, pod, account, fate)
    {
      if user.None? {
        return Some(Unauthorized);
      }
      if TrimSpace(name) == "" {
        return Some(InvalidInput);
      }
      if target.Some? && target.value <= 0 {
        return Some(InvalidInput);
      }
      if fate.Dropped? {
        return Some(Failure);
      }
      var accounts, wallets, handles := ledger.accounts, ledger.wallets, ledger.handles;
      err := ledger.CreateAccount(account, PodAccount, user, None, Answered);
      if err.Some? {
        return;
      }
      if pod in ledger.pods {
        ledger.accounts, ledger.wallets, ledger.handles := accounts, wallets, handles;
        return Some(AlreadyExists);
      }
      ledger.pods := ledger.pods[pod := Pod(account, user.value)];
      return if fate.Answered? then None else Some(Failure);
    }

    method RemovePod(user: Option<int>, pod: Option<int>, env: Env) returns (err: Option<Error>)
      modifies ledger
      ensures (ledger.State(), err) == DeletePod(old(ledger.State()), user, pod, env)
    {
      if user.None? {
        return Some(Unauthorized);
      }
      if pod.None? {
        return Some(NotFound);
      }
      if !env.target {
        return Some(Failure);
      }
      if pod.value !in ledger.pods || ledger.pods[pod.value].user != user.value {
        return Some(NotFound);
      }
      if !env.from {
        return Some(Failure);
      }
      var account := ledger.pods[pod.value].account;
      if account !in ledger.accounts {
        return Some(NotFound);
      }
      if ledger.accounts[account].balance != 0 {
        return Some(PodNonZeroBalance);
      }
      if !env.fate.Dropped? {
        ledger.pods := ledger.pods - {pod.value};
      }
      return if env.fate.Answered? then None else Some(Failure);
    }
  }

  class DepositUsecase {
    const ledger: LedgerStore

    constructor (store: LedgerStore)
      ensures ledger == store
    {
      ledger := store;
    }

    method Initiate(user: Option<int>, amount: int, order: Option<string>, env: Env) returns (err: Option<Error>)
      modifies ledger
      ensures (ledger.State(), err) == InitiateDeposit(old(ledger.State()), user, amount, order, env)
    {
      if amount < MIN_DEPOSIT || amount > MAX_DEPOSIT || user.None? {
        return Some(InvalidInput);
      }
      if !env.wallet {
        return Some(Failure);
      }
      if user.value !in ledger.wallets {
        return Some(NotFound);
      }
      var wallet := ledger.wallets[user.value];
      if order.None? {
        return Some(Failure);
      }
      err := ledger.CreateDeposit(order.value, wallet, amount, env.fate);
    }
  }
}
