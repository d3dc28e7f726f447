/** Any number of transfers interleaved access by access, with every other payment command in between. */
module TransferRace {
  import opened Common
  import opened Strings
  import opened Ledger
  import opened LedgerLaws
  import opened Payments
  import opened PaymentRuns

  datatype Sys = Sys(db: Db, calls: map<int, Call>)

  datatype Action =
    | Begin(call: int, input: TransferInput)
    | Go(call: int, env: Env)
    | Other(command: Command)

  function Act(settlement: int, s: Sys, a: Action): Sys {
    match a
    case Begin(id, input) => if id in s.calls then s else s.(calls := s.calls[id := Call(input, Start)])
    case Go(id, env) =>
      if id !in s.calls then s
      else var (db, c) := Advance(s.db, s.calls[id], env); Sys(db, s.calls[id := c])
    case Other(c) => s.(db := Step(settlement, s.db, c))
  }

  function Trace(settlement: int, s: Sys, acts: seq<Action>): Sys {
    if acts == [] then s else Act(settlement, Trace(settlement, s, acts[..|acts| - 1]), acts[|acts| - 1])
  }

  // ---- What is known of one call at any moment ----

  /** The pair under which a call's money moves: its trimmed key and the caller's wallet. */
  predicate Pays(db: Db, in_: TransferInput, from: int) {
    in_.user.Some? && in_.user.value in db.wallets && db.wallets[in_.user.value] == from
  }

  /** From the caller's own wallet to the account of the handle asked for, which belongs to a user or a merchant. */
  predicate Goes(db: Db, in_: TransferInput, from: int, to: int) {
    && Pays(db, in_, from) && in_.amount > 0 && TrimSpace(in_.key) != "" && from != to
    && TrimSpace(in_.handle) != "" && TrimSpace(in_.handle) in db.handles && db.handles[TrimSpace(in_.handle)] == to
    && to in db.accounts && (db.accounts[to].kind.Wallet? || db.accounts[to].kind.MerchantSettlement?)
  }

  /** No category when none was asked for, and otherwise the one asked for, which is the caller's. */
  predicate Filed(db: Db, in_: TransferInput, category: Option<int>) {
    match in_.category
    case NoCategory => category == None
    case Malformed => false
    case Category(c) => category == Some(c) && c in db.categories && in_.user == Some(db.categories[c])
  }

  /** The transaction moves what was asked for, to where it was asked, on the caller's authority. */
  predicate Asked(db: Db, in_: TransferInput, t: Tx) {
    Goes(db, in_, t.from, t.to) && t.amount == in_.amount && Filed(db, in_, t.category)
  }

  /** The parties are accepted exactly when the money may go from the one to the other and both lookups were answered. */
  lemma AcceptedIff(db: Db, in_: TransferInput, env: Env, from: int, to: int)
    ensures Resolve(db, in_, env) == Ok((from, to)) <==> env.wallet && env.target && Goes(db, in_, from, to)
  {
    hide TrimSpace;
  }

  /** t is the one transaction recorded for the caller's pair. */
  predicate Names(db: Db, in_: TransferInput, t: Tx) {
    && Pays(db, in_, t.from)
    && t.key == TrimSpace(in_.key)
    && (t.key, t.from) in db.keys
    && db.keys[(t.key, t.from)] < |db.txs|
    && db.txs[db.keys[(t.key, t.from)]] == t
  }

  /** This call moved the money itself: replayed transactions carry their entries, fresh ones do not. */
  predicate Mover(c: Call) {
    c.phase.Executed? || (c.phase.Done? && c.phase.result.Ok? && c.phase.result.value.debit.None?)
  }

  predicate Fits(db: Db, c: Call) {
    match c.phase
    case Start => true
    case Resolved(from, to) => Goes(db, c.input, from, to)
    case Unseen(from, to) => Goes(db, c.input, from, to)
    case Ready(from, to, category) => Goes(db, c.input, from, to) && Filed(db, c.input, category)
    case Lost(_) => false
    case Replaying(t) => Names(db, c.input, t)
    case Executed(t) => Names(db, c.input, t) && Asked(db, c.input, t)
    case Done(Err(_)) => true
    case Done(Ok(r)) =>
      && Names(db, c.input, r.tx)
      && ((r.debit == None && r.credit == None && Asked(db, c.input, r.tx)) || (r.debit == Some(DebitOf(r.tx)) && r.credit == Some(CreditOf(r.tx))))
  }

  function TxOf(c: Call): Tx
    requires Mover(c)
  {
    if c.phase.Executed? then c.phase.tx else c.phase.result.value.tx
  }

  ghost predicate Safe(s: Sys) {
    && (forall i | i in s.calls :: Fits(s.db, s.calls[i]))
    && (forall i, j | i in s.calls && j in s.calls && i != j && Mover(s.calls[i]) && Mover(s.calls[j]) ::
          TxOf(s.calls[i]) != TxOf(s.calls[j]))
  }

  lemma PaysForever(db: Db, db': Db, in_: TransferInput, from: int)
    requires Pays(db, in_, from) && Grows(db, db')
    ensures Pays(db', in_, from)
  {
    var u: int := in_.user.value;
    assert u in db.wallets && u in db'.wallets;
  }

  lemma GoesForever(db: Db, db': Db, in_: TransferInput, from: int, to: int)
    requires Goes(db, in_, from, to) && Grows(db, db')
    ensures Goes(db', in_, from, to)
  {
    hide TrimSpace;
    PaysForever(db, db', in_, from);
    assert db.accounts[to].kind == db'.accounts[to].kind;
  }

  lemma NamesForever(db: Db, db': Db, in_: TransferInput, t: Tx)
    requires Names(db, in_, t) && Grows(db, db')
    ensures Names(db', in_, t)
  {
    PaysForever(db, db', in_, t.from);
    assert db.keys[(t.key, t.from)] == db'.keys[(t.key, t.from)];
  }

  lemma FitsForever(db: Db, db': Db, c: Call)
    requires Fits(db, c) && Grows(db, db')
    ensures Fits(db', c)
  {
    hide Names, Goes;
    match c.phase
    case Resolved(from, to) => GoesForever(db, db', c.input, from, to);
    case Unseen(from, to) => GoesForever(db, db', c.input, from, to);
    case Ready(from, to, _) => GoesForever(db, db', c.input, from, to);
    case Replaying(t) => NamesForever(db, db', c.input, t);
    case Executed(t) =>
      NamesForever(db, db', c.input, t);
      GoesForever(db, db', c.input, t.from, t.to);
    case Done(Ok(r)) =>
      NamesForever(db, db', c.input, r.tx);
      if Asked(db, c.input, r.tx) {
        GoesForever(db, db', c.input, r.tx.from, r.tx.to);
      }
    case _ =>
  }

  /** The ledger reports a taken key as AlreadyExists, so the branch that fetches the winner is never entered. */
  lemma NeverIdempotencyKeyUsed(db: Db, o: Order, fate: Fate)
    ensures Execute(db, o, fate).1 != Err(IdempotencyKeyUsed)
    ensures (o.key, o.from) in db.keys ==> Execute(db, o, fate).1.Err? && Execute(db, o, fate).0 == db
  {
  }

  lemma ExecuteNames(db: Db, o: Order, fate: Fate, in_: TransferInput)
    requires Indexed(db) && Pays(db, in_, o.from) && o.key == TrimSpace(in_.key)
    ensures var (db', r) := Execute(db, o, fate); r.Ok? ==> Names(db', in_, r.value) && r.value == Row(o) && (o.key, o.from) !in db.keys
  {
  }

  /** A replay finds the debit and the credit in whichever order the two rows come back. */
  lemma LastOfPair(t: Tx)
    ensures Last([DebitOf(t), CreditOf(t)], Debit) == Last([CreditOf(t), DebitOf(t)], Debit) == Some(DebitOf(t))
    ensures Last([DebitOf(t), CreditOf(t)], Credit) == Last([CreditOf(t), DebitOf(t)], Credit) == Some(CreditOf(t))
  {
  }

  lemma ReplayExact(db: Db, in_: TransferInput, t: Tx, env: Env)
    requires WellFormed(db) && Names(db, in_, t)
    ensures var r := Replay(db, t, env);
            r.Ok? ==> r.value.tx == t && r.value.debit == Some(DebitOf(t)) && r.value.credit == Some(CreditOf(t))
  {
    EntriesExact(db, db.keys[(t.key, t.from)]);
    LastOfPair(t);
  }

  lemma FindNames(db: Db, in_: TransferInput, from: int)
    requires Indexed(db) && Pays(db, in_, from)
    ensures var f := Find(db, TrimSpace(in_.key), from);
            (f.Some? <==> (TrimSpace(in_.key), from) in db.keys) && (f.Some? ==> Names(db, in_, f.value))
  {
  }

  /** The ledger write of a call. */
  lemma WriteFits(db: Db, c: Call, env: Env)
    requires WellFormed(db) && Fits(db, c) && c.phase.Ready?
    ensures Fits(Advance(db, c, env).0, Advance(db, c, env).1)
    ensures Mover(Advance(db, c, env).1) ==> (TrimSpace(c.input.key), c.phase.from) !in db.keys
  {
    hide Execute, DoubleEntry, Sound, Indexed, TrimSpace, Goes, Grows;
    var from, to := c.phase.from, c.phase.to;
    var o := Order(env.id, from, to, c.input.amount, TrimSpace(c.input.key), c.phase.category);
    NeverIdempotencyKeyUsed(db, o, env.fate);
    GoesPays(db, c.input, from, to);
    ExecuteNames(db, o, env.fate, c.input);
    ExecuteGrows(db, o, env.fate);
    GoesForever(db, Execute(db, o, env.fate).0, c.input, from, to);
    SameCategories(db, Execute(db, o, env.fate).0);
  }

  lemma GoesPays(db: Db, in_: TransferInput, from: int, to: int)
    requires Goes(db, in_, from, to)
    ensures Pays(db, in_, from)
  {
  }

  lemma SameCategories(db: Db, db': Db)
    requires Grows(db, db')
    ensures db'.categories == db.categories
  {
  }

  /** One access of one call, against a sound database. */
  lemma AdvanceFits(db: Db, c: Call, env: Env)
    requires WellFormed(db) && Fits(db, c)
    ensures Fits(Advance(db, c, env).0, Advance(db, c, env).1)
    ensures !Mover(c) && Mover(Advance(db, c, env).1) ==> c.phase.Ready? && (TrimSpace(c.input.key), c.phase.from) !in db.keys
  {
    hide Execute, Replay, Find, EntriesOf, DoubleEntry, Sound, Indexed, TrimSpace;
    match c.phase
    case Start =>
      if Resolve(db, c.input, env).Ok? {
        AcceptedIff(db, c.input, env, Resolve(db, c.input, env).value.0, Resolve(db, c.input, env).value.1);
      }
    case Resolved(from, _) => FindNames(db, c.input, from);
    case Ready(_, _, _) => WriteFits(db, c, env);
    case Replaying(t) => ReplayExact(db, c.input, t, env);
    case _ =>
  }

  lemma AdvanceKeeps(start: map<int, int>, settlement: int, db: Db, c: Call, env: Env)
    requires Books(start, settlement, db)
    ensures Kept(start, settlement, db, Advance(db, c, env).0)
  {
    hide Books, Execute, Resolve, CategoryOf, Replay, Find;
    if c.phase.Ready? {
      ExecuteKeeps(start, settlement, db,
                   Order(env.id, c.phase.from, c.phase.to, c.input.amount, TrimSpace(c.input.key), c.phase.category), env.fate);
    }
  }

  lemma MoverIsNamed(db: Db, c: Call)
    requires Fits(db, c) && Mover(c)
    ensures Names(db, c.input, TxOf(c))
  {
  }

  /** A call that starts moving money does so in a transaction no other call has. */
  lemma NewMoverIsAlone(db: Db, c: Call, env: Env, other: Call)
    requires WellFormed(db) && Fits(db, c) && Fits(db, other) && Mover(other)
    requires !Mover(c) && Mover(Advance(db, c, env).1)
    ensures TxOf(Advance(db, c, env).1) != TxOf(other)
  {
    hide Execute, WellFormed;
    AdvanceFits(db, c, env);
    MoverIsNamed(db, other);
    MoverIsNamed(Advance(db, c, env).0, Advance(db, c, env).1);
    MoverSameWallet(db, c, env);
  }

  lemma MoverSameWallet(db: Db, c: Call, env: Env)
    requires c.phase.Ready? && Mover(Advance(db, c, env).1)
    ensures TxOf(Advance(db, c, env).1).from == c.phase.from && TxOf(Advance(db, c, env).1).key == TrimSpace(c.input.key)
  {
  }

  lemma MoverStays(db: Db, c: Call, env: Env)
    requires Mover(c)
    ensures Mover(Advance(db, c, env).1) && TxOf(Advance(db, c, env).1) == TxOf(c)
  {
  }

  lemma GoSafe(s: Sys, id: int, env: Env, settlement: int)
    requires WellFormed(s.db) && Safe(s) && id in s.calls
    requires Grows(s.db, Advance(s.db, s.calls[id], env).0)
    ensures Safe(Act(settlement, s, Go(id, env)))
  {
    hide Advance, Fits, Grows, WellFormed, Mover, TxOf;
    var s' := Act(settlement, s, Go(id, env));
    var c' := s'.calls[id];
    AdvanceFits(s.db, s.calls[id], env);
    forall j | j in s'.calls && j != id ensures Fits(s'.db, s'.calls[j]) && s'.calls[j] == s.calls[j]
      ensures Mover(c') && Mover(s.calls[j]) ==> TxOf(c') != TxOf(s.calls[j])
    {
      FitsForever(s.db, s'.db, s.calls[j]);
      if Mover(c') && Mover(s.calls[j]) {
        if Mover(s.calls[id]) {
          MoverStays(s.db, s.calls[id], env);
        } else {
          NewMoverIsAlone(s.db, s.calls[id], env, s.calls[j]);
        }
      }
    }
  }

  lemma ActKeeps(start: map<int, int>, settlement: int, s: Sys, a: Action)
    requires Books(start, settlement, s.db) && Safe(s)
    ensures Kept(start, settlement, s.db, Act(settlement, s, a).db) && Safe(Act(settlement, s, a))
  {
    hide Step, Fits, Balanced, Grows, Advance, Mover, TxOf, DoubleEntry, Indexed, Sound;
    match a
    case Begin(id, input) =>
      assert Fits(s.db, Call(input, Start)) && !Mover(Call(input, Start)) by { BeginFits(s.db, input); }
      GrowsItself(s.db);
    case Go(id, env) =>
      if id in s.calls {
        AdvanceKeeps(start, settlement, s.db, s.calls[id], env);
        GoSafe(s, id, env, settlement);
      } else {
        GrowsItself(s.db);
      }
    case Other(c) =>
      StepKeeps(start, settlement, s.db, c);
      forall i | i in s.calls ensures Fits(Step(settlement, s.db, c), s.calls[i]) {
        FitsForever(s.db, Step(settlement, s.db, c), s.calls[i]);
      }
  }

  lemma GrowsItself(db: Db)
    ensures Grows(db, db)
  {
  }

  lemma BeginFits(db: Db, in_: TransferInput)
    ensures Fits(db, Call(in_, Start)) && !Mover(Call(in_, Start))
  {
  }

  /** Over every interleaving the books hold, and every call is where its phase says. */
  lemma {:induction false} TraceKeeps(settlement: int, db: Db, acts: seq<Action>)
    requires Initial(db)
    ensures var s := Trace(settlement, Sys(db, map[]), acts);
            Books(Balances(db), settlement, s.db) && Safe(s)
  {
    if acts == [] {
      SeedIsBalanced(db, settlement);
    } else {
      hide Initial, Books, Act, Safe;
      var init := acts[..|acts| - 1];
      TraceKeeps(settlement, db, init);
      ActKeeps(Balances(db), settlement, Trace(settlement, Sys(db, map[]), init), acts[|acts| - 1]);
    }
  }

  // ---- What callers can rely on ----

  predicate SamePair(a: TransferInput, b: TransferInput) {
    a.user == b.user && TrimSpace(a.key) == TrimSpace(b.key)
  }

  /** All successful calls of one caller under one key answer with one transaction; at most one of them moved
      money, and those that carry journal entries carry the same two. */
  lemma OneTransactionPerKey(settlement: int, db: Db, acts: seq<Action>, i: int, j: int)
    requires Initial(db)
    requires var s := Trace(settlement, Sys(db, map[]), acts);
             i in s.calls && j in s.calls && i != j && SamePair(s.calls[i].input, s.calls[j].input)
    ensures var s := Trace(settlement, Sys(db, map[]), acts);
            && !(Mover(s.calls[i]) && Mover(s.calls[j]))
            && (s.calls[i].phase.Done? && s.calls[i].phase.result.Ok? && s.calls[j].phase.Done? && s.calls[j].phase.result.Ok? ==>
                  var a, b := s.calls[i].phase.result.value, s.calls[j].phase.result.value;
                  && a.tx == b.tx
                  && (a.debit.Some? && b.debit.Some? ==> a.debit == b.debit == Some(DebitOf(a.tx))
                                                         && a.credit == b.credit == Some(CreditOf(a.tx))))
  {
    hide Initial, Books, Trace;
    TraceKeeps(settlement, db, acts);
    var s := Trace(settlement, Sys(db, map[]), acts);
    assert Fits(s.db, s.calls[i]) && Fits(s.db, s.calls[j]);
    if Mover(s.calls[i]) && Mover(s.calls[j]) {
      MoverIsNamed(s.db, s.calls[i]);
      MoverIsNamed(s.db, s.calls[j]);
    }
  }

  /** Over every interleaving, a call that moved money moved the amount it was asked to move, from its caller's own wallet
      to the account of the handle it was given, under a category of the caller's if any, and recorded just that. */
  lemma MoneyGoesAsAsked(settlement: int, db: Db, acts: seq<Action>, i: int)
    requires Initial(db)
    requires var s := Trace(settlement, Sys(db, map[]), acts); i in s.calls && Mover(s.calls[i])
    ensures var s := Trace(settlement, Sys(db, map[]), acts);
            var t := TxOf(s.calls[i]);
            Asked(s.db, s.calls[i].input, t) && t in s.db.txs
  {
    hide Initial, Books, Trace, Asked;
    TraceKeeps(settlement, db, acts);
    var s := Trace(settlement, Sys(db, map[]), acts);
    assert Fits(s.db, s.calls[i]);
    MoverIsNamed(s.db, s.calls[i]);
  }

  /** However the calls interleave, a recorded transaction stays the only one of its pair: its two journal rows are
      the only ones written for it. */
  lemma MovedOnce(settlement: int, db: Db, acts: seq<Action>, i: nat)
    requires Initial(db) && i < |Trace(settlement, Sys(db, map[]), acts).db.txs|
    ensures var end := Trace(settlement, Sys(db, map[]), acts).db;
            && (forall j | 0 <= j < |end.txs| && end.txs[j].key == end.txs[i].key && end.txs[j].from == end.txs[i].from :: j == i)
            && EntriesOf(end.journal, end.txs[i].id) == [DebitOf(end.txs[i]), CreditOf(end.txs[i])]
  {
    hide Initial, Trace, Balanced, EntriesOf;
    TraceKeeps(settlement, db, acts);
    var end := Trace(settlement, Sys(db, map[]), acts).db;
    EntriesExact(end, i);
    forall j | 0 <= j < |end.txs| && end.txs[j].key == end.txs[i].key && end.txs[j].from == end.txs[i].from
      ensures j == i
    {
      PairIsUnique(end, i, j);
    }
  }

  /** A call whose pre-check and later steps see different databases. If its pair is taken by the time it would
      write, it answers with the recorded transaction exactly when its pre-check already saw that pair. */
  lemma WinnerReturnedIff(seen: Db, now: Db, c: Call, env: Env)
    requires WellFormed(seen) && WellFormed(now) && Grows(seen, now)
    requires c.phase.Resolved? && Pays(seen, c.input, c.phase.from) && env.before && env.entries
    requires (TrimSpace(c.input.key), c.phase.from) in now.keys
    ensures var (end, c') := Finish(now, Advance(seen, c, env).1, env);
            && end == now
            && (c'.phase.result.Ok? <==> (TrimSpace(c.input.key), c.phase.from) in seen.keys)
            && (c'.phase.result.Ok? ==> Fits(now, c') && !Mover(c'))
  {
    hide DoubleEntry, Indexed, Sound, Grows, Execute, EntriesOf, CategoryOf, TrimSpace;
    var c1 := Advance(seen, c, env).1;
    FindNames(seen, c.input, c.phase.from);
    if c1.phase.Replaying? {
      NamesForever(seen, now, c.input, c1.phase.tx);
      FinishStep(now, c1, env);
      ReplayExact(now, c.input, c1.phase.tx, env);
    } else {
      FinishStep(now, c1, env);
      var c2 := Advance(now, c1, env).1;
      if c2.phase.Ready? {
        FinishStep(now, c2, env);
        NeverIdempotencyKeyUsed(now, Order(env.id, c2.phase.from, c2.phase.to, c2.input.amount, TrimSpace(c2.input.key),
                                           c2.phase.category), env.fate);
      }
    }
  }

  /** Two calls of one caller under one key, both past the pre-check, for any two amounts, recipients and categories:
      once the first has moved its money, and whatever else happened since, the second moves none and is told an error,
      never the first one's transaction; the error is the first that its own order now meets. */
  lemma RaceLoserGetsError(db: Db, c: Call, env: Env, now: Db, other: Call, loser: Env)
    requires c.phase.Ready? && other.phase.Ready? && c.phase.from == other.phase.from
    requires TrimSpace(c.input.key) == TrimSpace(other.input.key)
    requires Advance(db, c, env).1.phase.Executed? && Grows(Advance(db, c, env).0, now)
    ensures var (end, lost) := Finish(now, other, loser);
            && end == now
            && lost.phase.result == Err(
                 if loser.fate.Dropped? then Failure
                 else if other.phase.to !in now.accounts then NotFound
                 else if now.accounts[other.phase.from].balance < other.input.amount then InsufficientFunds
                 else if other.input.amount <= 0 || other.phase.from == other.phase.to then InvalidInput
                 else AlreadyExists)
  {
    hide TrimSpace, Grows;
    GrowsHas(Advance(db, c, env).0, now, c.phase.from, TrimSpace(c.input.key));
    FinishStep(now, other, loser);
  }

  lemma GrowsHas(db: Db, db': Db, account: int, key: string)
    requires Grows(db, db') && account in db.accounts && (key, account) in db.keys
    ensures account in db'.accounts && (key, account) in db'.keys
  {
  }

  /** The present balances of both parties, or zero for one that could not be read. */
  predicate BalancesNow(db: Db, r: LedgerResult, env: Env) {
    && r.tx.from in db.accounts && r.fromBalance == (if env.from then db.accounts[r.tx.from].balance else 0)
    && r.tx.to in db.accounts && r.toBalance == (if env.to then db.accounts[r.tx.to].balance else 0)
  }

  lemma PartiesExist(db: Db, in_: TransferInput, t: Tx)
    requires WellFormed(db) && Names(db, in_, t)
    ensures t.from in db.accounts && t.to in db.accounts
  {
  }

  /** Asked again one after the other, a recorded key moves nothing and answers with its transaction and entries,
      whatever amount, recipient or category the repeated request names. */
  lemma RetryIsReplay(db: Db, in_: TransferInput, env: Env)
    requires WellFormed(db) && Resolve(db, in_, env).Ok? && env.before && env.entries
    requires (TrimSpace(in_.key), Resolve(db, in_, env).value.0) in db.keys
    ensures var (db', r) := Transfer(db, in_, env);
            && db' == db && r.Ok?
            && r.value.tx == db.txs[db.keys[(TrimSpace(in_.key), Resolve(db, in_, env).value.0)]]
            && r.value.debit == Some(DebitOf(r.value.tx)) && r.value.credit == Some(CreditOf(r.value.tx))
            && BalancesNow(db, r.value, env)
  {
    hide EntriesOf, CategoryOf, Execute, TrimSpace, DoubleEntry, Sound, Indexed;
    var (from, to) := Resolve(db, in_, env).value;
    assert Pays(db, in_, from);
    FindNames(db, in_, from);
    FinishStep(db, Call(in_, Start), env);
    FinishStep(db, Call(in_, Resolved(from, to)), env);
    var t := Find(db, TrimSpace(in_.key), from).value;
    FinishStep(db, Call(in_, Replaying(t)), env);
    ReplayExact(db, in_, t, env);
    PartiesExist(db, in_, t);
  }

  /** A withdrawal repeated under a recorded key moves nothing, and answers with the recorded transaction exactly
      when its pre-check could be read; otherwise the repeat is an error. */
  lemma WithdrawalRetryIff(db: Db, settlement: int, user: int, amount: int, key: string, env: Env)
    requires WellFormed(db) && user in db.wallets && env.wallet && env.entries
    requires MIN_WITHDRAWAL <= amount <= MAX_WITHDRAWAL && key != ""
    requires (key, db.wallets[user]) in db.keys
    ensures var (db', r) := Withdraw(db, settlement, Some(user), amount, key, env);
            && db' == db
            && (r.Ok? <==> env.before)
            && (r.Ok? ==> r.value.tx == db.txs[db.keys[(key, db.wallets[user])]]
                          && r.value.debit == Some(DebitOf(r.value.tx)) && r.value.credit == Some(CreditOf(r.value.tx))
                          && BalancesNow(db, r.value, env))
  {
    hide EntriesOf, DoubleEntry;
    var from := db.wallets[user];
    NeverIdempotencyKeyUsed(db, Order(env.id, from, settlement, amount, key, None), env.fate);
    if env.before {
      var t := Find(db, key, from).value;
      EntriesExact(db, db.keys[(t.key, t.from)]);
      LastOfPair(t);
    }
  }
}
