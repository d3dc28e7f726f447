/** From registration to wallet: the transactional outbox, its publishers, the topic, and the consumers that create
    wallets, with crashes between any two steps, repeated publishing and repeated or concurrent consumption. */
module Outbox {
  import opened Common
  import opened Ledger

  /** A row of the outbox; the payload names the user and the handle. */
  datatype Row = Row(user: int, handle: string, published: bool)

  /** A message of the topic user.registered, keyed by its event. */
  datatype Message = Message(event: int, user: int, handle: string)

  datatype Publisher = Batch(todo: seq<int>) | Sent(event: int, todo: seq<int>)

  /** Where CreateWallet stands between two database accesses. */
  datatype Consumer =
    | Got(user: int, handle: string)
    | Missing(user: int, handle: string)
    | Conflicted(user: int, handle: string)
    | Answered(user: int, handle: string, wallet: Result<int>)

  datatype World = World(
    users: map<int, string>,        // the handle of each registered user
    outbox: map<int, Row>,
    topic: seq<Message>,
    publishers: map<int, Publisher>,
    consumers: map<int, Consumer>,
    payment: Db)

  datatype Action =
    | Register(user: int, handle: string, event: int, fate: Fate)
    | Fetch(publisher: int, batch: seq<int>)
    | Publish(publisher: int, fate: Fate)
    | Mark(publisher: int, fate: Fate)
    | StopPublisher(publisher: int)
    | Read(consumer: int, offset: nat)
    | Check(consumer: int, ok: bool)
    | Insert(consumer: int, account: int, fate: Fate)
    | Fallback(consumer: int, ok: bool)
    | StopConsumer(consumer: int)

  const BATCH: nat := 20

  /** User, roles, PIN and event commit together or not at all; users and handles are unique. */
  function Registered(w: World, user: int, handle: string, event: int, fate: Fate): World {
    if fate.Dropped? || user in w.users || handle in w.users.Values || event in w.outbox then w
    else w.(users := w.users[user := handle], outbox := w.outbox[event := Row(user, handle, false)])
  }

  predicate Fetchable(w: World, batch: seq<int>) {
    |batch| <= BATCH && forall e | e in batch :: e in w.outbox && !w.outbox[e].published
  }

  /** CreateWallet's three accesses. */
  function Checked(db: Db, c: Consumer, ok: bool): Consumer
    requires c.Got?
  {
    if c.handle == "" then Consumer.Answered(c.user, c.handle, Err(InvalidInput))
    else if !ok then Consumer.Answered(c.user, c.handle, Err(Failure))
    else if c.user in db.wallets then Consumer.Answered(c.user, c.handle, Ok(db.wallets[c.user]))
    else Missing(c.user, c.handle)
  }

  function Inserted(c: Consumer, account: int, err: Option<Error>): Consumer {
    if err.None? then Consumer.Answered(c.user, c.handle, Ok(account))
    else if err.value.AlreadyExists? then Conflicted(c.user, c.handle)
    else Consumer.Answered(c.user, c.handle, Err(err.value))
  }

  function FellBack(db: Db, c: Consumer, ok: bool): Consumer {
    Consumer.Answered(c.user, c.handle,
      if !ok then Err(Failure)
      else if c.user in db.wallets then Ok(db.wallets[c.user]) else Err(NotFound))
  }

  /** CreateWallet as one call: the lookup reads db, the insert finds the database as between, and the fallback read
      finds it as after; other writers may have worked in the gaps. A user that is no identifier is None. */
  function CreateWallet(db: Db, between: Db, after: Db, user: Option<int>, handle: string, read: bool, account: int, fate: Fate,
                        again: bool): (Db, Result<int>)
  {
    if user.None? then (db, Err(InvalidInput))
    else
      var checked := Checked(db, Got(user.value, handle), read);
      if checked.Answered? then (db, checked.wallet)
      else
        var (db', err) := NewAccount(between, account, Wallet, user, Some(handle), fate);
        var inserted := Inserted(checked, account, err);
        if inserted.Answered? then (db', inserted.wallet) else (after, FellBack(after, inserted, again).wallet)
  }

  /** One step of anyone; steps that do not fit the state change nothing. */
  function Act(w: World, a: Action): World {
    match a
    case Register(user, handle, event, fate) => Registered(w, user, handle, event, fate)
    case Fetch(p, batch) =>
      if p in w.publishers || !Fetchable(w, batch) then w else w.(publishers := w.publishers[p := Batch(batch)])
    case Publish(p, fate) =>
      if p !in w.publishers || !w.publishers[p].Batch? || w.publishers[p].todo == [] then w
      else
        var event, rest := w.publishers[p].todo[0], w.publishers[p].todo[1..];
        if event !in w.outbox then w
        else
          w.(topic := if fate.Dropped? then w.topic
                      else w.topic + [Message(event, w.outbox[event].user, w.outbox[event].handle)],
             publishers := w.publishers[p := if fate == Fate.Answered then Sent(event, rest) else Batch(rest)])
    case Mark(p, fate) =>
      if p !in w.publishers || !w.publishers[p].Sent? then w
      else
        var event, rest := w.publishers[p].event, w.publishers[p].todo;
        w.(outbox := if fate.Dropped? || event !in w.outbox then w.outbox
                     else w.outbox[event := w.outbox[event].(published := true)],
           publishers := w.publishers[p := Batch(rest)])
    case StopPublisher(p) => w.(publishers := w.publishers - {p})
    case Read(c, offset) =>
      if c in w.consumers || offset >= |w.topic| then w
      else w.(consumers := w.consumers[c := Got(w.topic[offset].user, w.topic[offset].handle)])
    case Check(c, ok) =>
      if c !in w.consumers || !w.consumers[c].Got? then w
      else w.(consumers := w.consumers[c := Checked(w.payment, w.consumers[c], ok)])
    case Insert(c, account, fate) =>
      if c !in w.consumers || !w.consumers[c].Missing? || account in w.payment.accounts then w
      else
        var (db, err) := NewAccount(w.payment, account, Wallet, Some(w.consumers[c].user), Some(w.consumers[c].handle), fate);
        w.(payment := db, consumers := w.consumers[c := Inserted(w.consumers[c], account, err)])
    case Fallback(c, ok) =>
      if c !in w.consumers || !w.consumers[c].Conflicted? then w
      else w.(consumers := w.consumers[c := FellBack(w.payment, w.consumers[c], ok)])
    case StopConsumer(c) => w.(consumers := w.consumers - {c})
  }

  function Run(w: World, acts: seq<Action>): World {
    if acts == [] then w else Act(Run(w, acts[..|acts| - 1]), acts[|acts| - 1])
  }

  /** Users may have been seeded without events; no wallet exists yet. */
  ghost predicate Initial(w: World) {
    && w.outbox == map[] && w.topic == [] && w.publishers == map[] && w.consumers == map[]
    && w.payment.wallets == map[] && w.payment.handles == map[]
    && HandlesUnique(w.users)
  }

  // ---- Invariants ----

  ghost predicate HandlesUnique(users: map<int, string>) {
    forall u, v | u in users && v in users && users[u] == users[v] :: u == v
  }

  /** Every event belongs to a committed registration, and a registration has one event. */
  ghost predicate Registrations(w: World) {
    && HandlesUnique(w.users)
    && (forall e | e in w.outbox :: w.outbox[e].user in w.users && w.users[w.outbox[e].user] == w.outbox[e].handle)
    && (forall d, e | d in w.outbox && e in w.outbox && w.outbox[d].user == w.outbox[e].user :: d == e)
  }

  ghost predicate Posted(w: World, event: int) {
    exists i :: 0 <= i < |w.topic| && w.topic[i].event == event
  }

  /** Messages tell their event's truth; what is marked published, or about to be, was published. */
  ghost predicate Publishing(w: World) {
    && (forall m | m in w.topic ::
          m.event in w.outbox && w.outbox[m.event].user == m.user && w.outbox[m.event].handle == m.handle)
    && (forall e | e in w.outbox && w.outbox[e].published :: Posted(w, e))
    && (forall p | p in w.publishers && w.publishers[p].Sent? :: Posted(w, w.publishers[p].event))
  }

  /** A user with a wallet: the one account indexed under the user's handle. */
  ghost predicate OwnWallet(w: World, user: int) {
    && user in w.users && w.users[user] in w.payment.handles && user in w.payment.wallets
    && w.payment.handles[w.users[user]] == w.payment.wallets[user]
  }

  ghost predicate Wallets(w: World) {
    && (forall u | u in w.payment.wallets :: OwnWallet(w, u) && w.payment.wallets[u] in w.payment.accounts && Told(w, u, w.users[u]))
    && (forall h | h in w.payment.handles :: exists u | u in w.payment.wallets :: u in w.users && w.users[u] == h)
    && (forall u, v | u in w.payment.wallets && v in w.payment.wallets && w.payment.wallets[u] == w.payment.wallets[v] :: u == v)
  }

  ghost predicate Told(w: World, user: int, handle: string) {
    exists m :: m in w.topic && m.user == user && m.handle == handle
  }

  /** A conflict means the user's wallet is there, and so does success. */
  ghost predicate Settled(w: World, c: Consumer) {
    && (c.Conflicted? ==> c.user in w.payment.wallets)
    && (c.Answered? ==>
          match c.wallet
          case Ok(a) => c.user in w.payment.wallets && w.payment.wallets[c.user] == a
          case Err(e) => e != NotFound && e != AlreadyExists)
  }

  /** Every consumer works on a message of the topic. */
  ghost predicate Consuming(w: World) {
    forall c | c in w.consumers :: Told(w, w.consumers[c].user, w.consumers[c].handle) && Settled(w, w.consumers[c])
  }

  ghost predicate Sound(w: World) {
    Registrations(w) && Publishing(w) && Wallets(w) && Consuming(w)
  }

  lemma ToldByEvent(w: World, user: int, handle: string)
    requires Registrations(w) && Publishing(w) && Told(w, user, handle)
    ensures user in w.users && w.users[user] == handle
  {
  }

  lemma ToldForever(w: World, w': World, user: int, handle: string)
    requires w.topic <= w'.topic && Told(w, user, handle)
    ensures Told(w', user, handle)
  {
  }

  lemma PostedForever(w: World, w': World, event: int)
    requires w.topic <= w'.topic && Posted(w, event)
    ensures Posted(w', event)
  {
  }

  lemma RegisterRegistrations(w: World, user: int, handle: string, event: int, fate: Fate)
    requires Registrations(w)
    ensures Registrations(Registered(w, user, handle, event, fate))
  {
  }

  lemma RegisterPublishing(w: World, user: int, handle: string, event: int, fate: Fate)
    requires Publishing(w)
    ensures Publishing(Registered(w, user, handle, event, fate))
  {
    hide Posted;
    var w' := Registered(w, user, handle, event, fate);
    forall e | Posted(w, e) ensures Posted(w', e) {
      PostedForever(w, w', e);
    }
  }

  lemma RegisterWallets(w: World, user: int, handle: string, event: int, fate: Fate)
    requires Wallets(w)
    ensures Wallets(Registered(w, user, handle, event, fate))
  {
    var w' := Registered(w, user, handle, event, fate);
    forall u | u in w.payment.wallets ensures OwnWallet(w', u) && Told(w', u, w'.users[u]) {
      assert OwnWallet(w, u);
    }
  }

  lemma RegisterSound(w: World, user: int, handle: string, event: int, fate: Fate)
    requires Sound(w)
    ensures Sound(Registered(w, user, handle, event, fate))
  {
    hide Registrations, Publishing, Wallets, Told, Settled;
    var w' := Registered(w, user, handle, event, fate);
    RegisterRegistrations(w, user, handle, event, fate);
    RegisterPublishing(w, user, handle, event, fate);
    RegisterWallets(w, user, handle, event, fate);
    forall c | c in w'.consumers ensures Told(w', w'.consumers[c].user, w'.consumers[c].handle) && Settled(w', w'.consumers[c]) {
      ToldForever(w, w', w.consumers[c].user, w.consumers[c].handle);
      SettledForever(w, w', w.consumers[c]);
    }
  }

  lemma SameWallets(w: World, w': World)
    requires Wallets(w) && w'.users == w.users && w'.payment == w.payment && w.topic <= w'.topic
    ensures Wallets(w')
  {
  }

  lemma SameConsuming(w: World, w': World)
    requires Consuming(w) && w'.payment == w.payment && w'.consumers == w.consumers && w.topic <= w'.topic
    ensures Consuming(w')
  {
  }

  /** The publisher's steps change neither users nor wallets; the topic only grows. */
  lemma PublisherFrame(w: World, a: Action)
    requires a.Fetch? || a.Publish? || a.Mark? || a.StopPublisher?
    ensures var w' := Act(w, a);
            w'.users == w.users && w'.payment == w.payment && w'.consumers == w.consumers && w.topic <= w'.topic
  {
  }

  lemma PublisherSound(w: World, a: Action)
    requires Sound(w) && (a.Fetch? || a.Publish? || a.Mark? || a.StopPublisher?)
    ensures Sound(Act(w, a))
  {
    hide Act, Registrations, Publishing, Wallets, Consuming;
    PublisherFrame(w, a);
    SameWallets(w, Act(w, a));
    SameConsuming(w, Act(w, a));
    PublisherPublishing(w, a);
  }

  lemma PublisherRegistrations(w: World, a: Action)
    requires Registrations(w) && (a.Fetch? || a.Publish? || a.Mark? || a.StopPublisher?)
    ensures Registrations(Act(w, a))
  {
  }

  /** A publisher has a new event to mark only right after it put the event on the topic. */
  lemma SentIsPosted(w: World, a: Action, p: int)
    requires Publishing(w) && (a.Fetch? || a.Publish? || a.Mark? || a.StopPublisher?)
    requires p in Act(w, a).publishers && Act(w, a).publishers[p].Sent?
    ensures Posted(Act(w, a), Act(w, a).publishers[p].event)
  {
    hide Registered, Fetchable;
    var w' := Act(w, a);
    if p in w.publishers && w.publishers[p] == w'.publishers[p] {
      PostedForever(w, w', w.publishers[p].event);
    } else {
      assert a.Publish? && a.publisher == p;
      assert w'.topic[|w.topic|].event == w'.publishers[p].event;
    }
  }

  lemma MarkedIsPosted(w: World, a: Action, e: int)
    requires Publishing(w) && (a.Fetch? || a.Publish? || a.Mark? || a.StopPublisher?)
    requires e in Act(w, a).outbox && Act(w, a).outbox[e].published
    ensures Posted(Act(w, a), e)
  {
    hide Registered, Fetchable;
    var w' := Act(w, a);
    if w.outbox[e].published {
      PostedForever(w, w', e);
    } else {
      PostedForever(w, w', w.publishers[a.publisher].event);
    }
  }

  lemma MessagesTrue(w: World, a: Action)
    requires Publishing(w) && (a.Fetch? || a.Publish? || a.Mark? || a.StopPublisher?)
    ensures forall m | m in Act(w, a).topic ::
      m.event in Act(w, a).outbox && Act(w, a).outbox[m.event].user == m.user && Act(w, a).outbox[m.event].handle == m.handle
  {
    hide Registered, Fetchable, Posted;
  }

  lemma PublisherPublishing(w: World, a: Action)
    requires Registrations(w) && Publishing(w) && (a.Fetch? || a.Publish? || a.Mark? || a.StopPublisher?)
    ensures Registrations(Act(w, a)) && Publishing(Act(w, a))
  {
    hide Act, Registrations, Posted;
    var w' := Act(w, a);
    PublisherRegistrations(w, a);
    MessagesTrue(w, a);
    forall e | e in w'.outbox && w'.outbox[e].published ensures Posted(w', e) {
      MarkedIsPosted(w, a, e);
    }
    forall p | p in w'.publishers && w'.publishers[p].Sent? ensures Posted(w', w'.publishers[p].event) {
      SentIsPosted(w, a, p);
    }
  }

  /** Handles are unique among users, so an insert conflicts only with the same user's wallet. */
  lemma ConflictIsOwn(w: World, user: int, handle: string)
    requires Registrations(w) && Publishing(w) && Wallets(w) && Told(w, user, handle)
    ensures handle in w.payment.handles <==> user in w.payment.wallets
  {
  }

  /** A new account for a user and handle that had none. */
  lemma AddWallet(w: World, w': World, user: int, handle: string, account: int)
    requires Wallets(w) && HandlesUnique(w.users) && Told(w, user, handle)
    requires user in w.users && w.users[user] == handle && account !in w.payment.accounts
    requires user !in w.payment.wallets && handle !in w.payment.handles
    requires w'.users == w.users && w'.topic == w.topic
    requires w'.payment.wallets == w.payment.wallets[user := account] && w'.payment.handles == w.payment.handles[handle := account]
    requires w'.payment.accounts.Keys == w.payment.accounts.Keys + {account}
    ensures Wallets(w')
  {
    forall u | u in w'.payment.wallets
      ensures OwnWallet(w', u) && w'.payment.wallets[u] in w'.payment.accounts && Told(w', u, w'.users[u])
    {
      if u != user {
        assert OwnWallet(w, u) && w.users[u] != handle;
        ToldForever(w, w', u, w.users[u]);
      } else {
        ToldForever(w, w', user, handle);
      }
    }
    forall h | h in w'.payment.handles ensures exists u | u in w'.payment.wallets :: u in w'.users && w'.users[u] == h {
      if h == handle {
        assert user in w'.payment.wallets && w'.users[user] == h;
      } else {
        var u :| u in w.payment.wallets && u in w.users && w.users[u] == h;
        assert u in w'.payment.wallets && w'.users[u] == h;
      }
    }
  }

  lemma InsertWallets(w: World, c: int, account: int, fate: Fate)
    requires Sound(w)
    ensures Wallets(Act(w, Insert(c, account, fate)))
  {
    hide Wallets, Publishing, Settled, Told, HandlesUnique;
    var w' := Act(w, Insert(c, account, fate));
    if w'.payment != w.payment {
      var user, handle := w.consumers[c].user, w.consumers[c].handle;
      assert Told(w, user, handle);
      ToldByEvent(w, user, handle);
      AddWallet(w, w', user, handle, account);
    } else {
      SameWallets(w, w');
    }
  }

  lemma InsertSettles(w: World, c: int, account: int, fate: Fate)
    requires Sound(w) && c in w.consumers && w.consumers[c].Missing? && account !in w.payment.accounts
    ensures var w' := Act(w, Insert(c, account, fate));
            && Settled(w', w'.consumers[c])
            && (forall u | u in w.payment.wallets :: u in w'.payment.wallets && w'.payment.wallets[u] == w.payment.wallets[u])
  {
    hide Wallets, Registrations, Publishing;
    ConflictIsOwn(w, w.consumers[c].user, w.consumers[c].handle);
  }

  lemma SettledForever(w: World, w': World, c: Consumer)
    requires Settled(w, c)
    requires forall u | u in w.payment.wallets :: u in w'.payment.wallets && w'.payment.wallets[u] == w.payment.wallets[u]
    ensures Settled(w', c)
  {
  }

  lemma ConsumersSettled(w: World, a: Action)
    requires Sound(w) && (a.Read? || a.Check? || a.Insert? || a.Fallback? || a.StopConsumer?)
    ensures var w' := Act(w, a); forall c | c in w'.consumers :: Settled(w', w'.consumers[c])
  {
    hide Registrations, Publishing, Wallets, NewAccount, Told;
    var w' := Act(w, a);
    if a.Insert? {
      if w' != w {
        InsertSettles(w, a.consumer, a.account, a.fate);
        forall c | c in w'.consumers && c != a.consumer ensures Settled(w', w'.consumers[c]) {
          SettledForever(w, w', w.consumers[c]);
        }
      }
    }
  }

  lemma ConsumersTold(w: World, a: Action)
    requires Sound(w) && (a.Read? || a.Check? || a.Insert? || a.Fallback? || a.StopConsumer?)
    ensures var w' := Act(w, a); forall c | c in w'.consumers :: Told(w', w'.consumers[c].user, w'.consumers[c].handle)
  {
  }

  lemma ConsumerSound(w: World, a: Action)
    requires Sound(w) && (a.Read? || a.Check? || a.Insert? || a.Fallback? || a.StopConsumer?)
    ensures Sound(Act(w, a))
  {
    hide Wallets, Settled, Told;
    var w' := Act(w, a);
    ConsumersTold(w, a);
    ConsumersSettled(w, a);
    if a.Insert? {
      InsertWallets(w, a.consumer, a.account, a.fate);
    } else {
      SameWallets(w, w');
    }
    SamePublishing(w, w');
  }

  lemma SamePublishing(w: World, w': World)
    requires Registrations(w) && Publishing(w)
    requires w'.users == w.users && w'.outbox == w.outbox && w'.topic == w.topic && w'.publishers == w.publishers
    ensures Registrations(w') && Publishing(w')
  {
  }

  lemma ActSound(w: World, a: Action)
    requires Sound(w)
    ensures Sound(Act(w, a))
  {
    hide Sound, Registered;
    match a
    case Register(user, handle, event, fate) => RegisterSound(w, user, handle, event, fate);
    case Fetch(_, _) => PublisherSound(w, a);
    case Publish(_, _) => PublisherSound(w, a);
    case Mark(_, _) => PublisherSound(w, a);
    case StopPublisher(_) => PublisherSound(w, a);
    case _ => ConsumerSound(w, a);
  }

  /** In every run, with crashes anywhere: each event belongs to the one registration that wrote it, each event marked
      published is on the topic, and every wallet is the one wallet of a registered user, under that user's handle. */
  lemma {:induction false} RunSound(w: World, acts: seq<Action>)
    requires Initial(w)
    ensures Sound(Run(w, acts))
  {
    if acts != [] {
      hide Sound, Act, Initial;
      RunSound(w, acts[..|acts| - 1]);
      ActSound(Run(w, acts[..|acts| - 1]), acts[|acts| - 1]);
    }
  }

  // ---- What it comes to ----

  /** All consumers that succeed for one user answer with one wallet, indexed under the handle of the user's event. */
  lemma OneWalletPerUser(w: World, acts: seq<Action>, c: int, d: int)
    requires Initial(w)
    requires var end := Run(w, acts);
             && c in end.consumers && d in end.consumers && end.consumers[c].user == end.consumers[d].user
             && end.consumers[c].Answered? && end.consumers[c].wallet.Ok?
             && end.consumers[d].Answered? && end.consumers[d].wallet.Ok?
    ensures var end := Run(w, acts);
            && end.consumers[c].wallet == end.consumers[d].wallet
            && end.consumers[c].user in end.users
            && end.consumers[c].handle == end.consumers[d].handle == end.users[end.consumers[c].user]
            && end.consumers[c].handle in end.payment.handles
            && end.payment.handles[end.consumers[c].handle] == end.consumers[c].wallet.value
  {
    hide Run, Initial;
    RunSound(w, acts);
    var end := Run(w, acts);
    ToldByEvent(end, end.consumers[c].user, end.consumers[c].handle);
    ToldByEvent(end, end.consumers[d].user, end.consumers[d].handle);
    assert OwnWallet(end, end.consumers[c].user);
  }

  /** Losing the race for the insert is harmless: the fallback read, when it is answered, finds the wallet. */
  lemma FallbackFinds(w: World, acts: seq<Action>, c: int)
    requires Initial(w)
    requires c in Run(w, acts).consumers && Run(w, acts).consumers[c].Conflicted?
    ensures var end := Run(w, acts);
            var c' := Act(end, Fallback(c, true)).consumers[c];
            c'.Answered? && c'.wallet.Ok? && OwnWallet(end, c'.user) && c'.wallet.value == end.payment.wallets[c'.user]
  {
    hide Run, Initial;
    RunSound(w, acts);
    assert Run(w, acts).consumers[c].user in Run(w, acts).payment.wallets;
    assert OwnWallet(Run(w, acts), Run(w, acts).consumers[c].user);
  }

  /** Nothing recorded is taken back: registrations, wallets, messages and published marks stay. */
  ghost predicate Lasts(w: World, w': World) {
    && (forall u | u in w.users :: u in w'.users && w'.users[u] == w.users[u])
    && (forall u | u in w.payment.wallets :: u in w'.payment.wallets && w'.payment.wallets[u] == w.payment.wallets[u])
    && w.topic <= w'.topic
    && (forall e | e in w.outbox :: e in w'.outbox && w'.outbox[e].user == w.outbox[e].user && w'.outbox[e].handle == w.outbox[e].handle
                                    && (w.outbox[e].published ==> w'.outbox[e].published))
  }

  lemma ActLasts(w: World, a: Action)
    ensures Lasts(w, Act(w, a))
  {
    hide Registered, Fetchable, Checked, FellBack;
    if a.Register? {
      RegisterLasts(w, a);
    }
  }

  lemma RegisterLasts(w: World, a: Action)
    requires a.Register?
    ensures Lasts(w, Act(w, a))
  {
  }

  lemma {:induction false} RunLasts(w: World, acts: seq<Action>)
    ensures Lasts(w, Run(w, acts))
  {
    if acts != [] {
      hide Act;
      RunLasts(w, acts[..|acts| - 1]);
      ActLasts(Run(w, acts[..|acts| - 1]), acts[|acts| - 1]);
    }
  }

  ghost predicate Idle(w: World, user: int) {
    user !in w.payment.wallets && forall c | c in w.consumers && w.consumers[c].user == user :: w.consumers[c].Answered?
  }

  /** No step of the run reads a message of the user. */
  ghost predicate Unread(w: World, acts: seq<Action>, user: int) {
    forall i {:trigger acts[i]} | 0 <= i < |acts| && acts[i].Read? ::
      var topic := Run(w, acts[..i]).topic;
      acts[i].offset < |topic| ==> topic[acts[i].offset].user != user
  }

  lemma ActIdle(w: World, a: Action, user: int)
    requires Idle(w, user)
    requires a.Read? && a.offset < |w.topic| ==> w.topic[a.offset].user != user
    ensures Idle(Act(w, a), user)
  {
  }

  predicate Works(w: World, c: int, user: int) {
    c in w.consumers && w.consumers[c].user == user && !w.consumers[c].Answered?
  }

  /** The consumer that a step belongs to fails without a wallet: its check fails, its insert is lost, or it stops. */
  predicate Fails(w: World, a: Action, c: int) {
    c in w.consumers &&
    match a
    case Check(x, ok) => x == c && w.consumers[c].Got? && (!ok || w.consumers[c].handle == "")
    case Insert(x, account, fate) => x == c && w.consumers[c].Missing? && fate.Dropped? && account !in w.payment.accounts
    case StopConsumer(x) => x == c
    case _ => false
  }

  /** The last consumer at work for the user fails. */
  ghost predicate GivesUp(w: World, a: Action, user: int) {
    exists c :: Works(w, c, user) && Fails(w, a, c) && forall d | Works(w, d, user) :: d == c
  }

  lemma WorksOn(w: World, a: Action, user: int, d: int)
    requires Sound(w) && user !in w.payment.wallets && Works(w, d, user) && user !in Act(w, a).payment.wallets
    ensures Works(Act(w, a), d, user) <==> !Fails(w, a, d)
  {
    hide Registrations, Publishing, Wallets;
    if a.Insert? && a.consumer == d {
      assert Told(w, user, w.consumers[d].handle);
      ConflictIsOwn(w, user, w.consumers[d].handle);
    }
  }

  lemma StartsWork(w: World, a: Action, user: int, d: int)
    requires Works(Act(w, a), d, user) && !Works(w, d, user)
    ensures a.Read?
  {
  }

  lemma WalletNeedsWork(w: World, a: Action, user: int)
    requires user !in w.payment.wallets && user in Act(w, a).payment.wallets
    ensures a.Insert? && !Fails(w, a, a.consumer)
  {
  }

  /** Nobody is left at work for a user without a wallet from exactly this step on. */
  lemma GivesUpIff(w: World, a: Action, user: int)
    requires Sound(w) && user !in w.payment.wallets && !Idle(w, user)
    ensures Idle(Act(w, a), user) <==> GivesUp(w, a, user)
  {
    hide Act, Fails, Sound;
    var w' := Act(w, a);
    var c :| c in w.consumers && w.consumers[c].user == user && !w.consumers[c].Answered?;
    assert Works(w, c, user);
    if user in w'.payment.wallets {
      WalletNeedsWork(w, a, user);
      OnlyOwn(w, a);
    } else {
      forall d | Works(w, d, user) ensures Works(w', d, user) <==> !Fails(w, a, d) {
        WorksOn(w, a, user, d);
      }
      forall d | Works(w', d, user) && !Works(w, d, user) ensures a.Read? {
        StartsWork(w, a, user, d);
      }
      OnlyOwn(w, a);
      IdleIff(w', user);
    }
  }

  lemma IdleIff(w: World, user: int)
    requires user !in w.payment.wallets
    ensures Idle(w, user) <==> forall d :: !Works(w, d, user)
  {
    forall d | d in w.consumers && w.consumers[d].user == user && !Works(w, d, user) ensures w.consumers[d].Answered? {
    }
    forall d | Works(w, d, user) ensures !Idle(w, user) {
    }
  }

  /** A step fails one consumer at most, its own, and reading fails none. */
  lemma OnlyOwn(w: World, a: Action)
    ensures forall c | Fails(w, a, c) :: (a.Check? || a.Insert? || a.StopConsumer?) && a.consumer == c
  {
  }

  /** Publishing is at least once but consuming at most once: a consumer whose check fails is finished with its
      message, and unless the message is read again its user never gets a wallet, published event or not. */
  lemma {:induction false} FailedReadIsFinal(w: World, c: int, acts: seq<Action>)
    requires c in w.consumers && w.consumers[c].Got? && w.consumers[c].user !in w.payment.wallets
    requires forall d | d in w.consumers && d != c && w.consumers[d].user == w.consumers[c].user :: w.consumers[d].Answered?
    requires Unread(Act(w, Check(c, false)), acts, w.consumers[c].user)
    ensures Idle(Run(Act(w, Check(c, false)), acts), w.consumers[c].user)
  {
    if acts != [] {
      hide Act;
      var n, w0 := |acts| - 1, Act(w, Check(c, false));
      forall i | 0 <= i < n && acts[..n][i].Read? ensures acts[..n][..i] == acts[..i] && acts[..n][i] == acts[i] {
      }
      FailedReadIsFinal(w, c, acts[..n]);
      ActIdle(Run(w0, acts[..n]), acts[n], w.consumers[c].user);
    }
  }

  /** A registration whose event is published and marked, and whose message is read and not checked. */
  function LostMessage(user: int, handle: string, event: int, p: int, c: int): seq<Action> {
    [] + [Register(user, handle, event, Fate.Answered), Fetch(p, [event])]
       + [Publish(p, Fate.Answered), Mark(p, Fate.Answered)] + [Read(c, 0), Check(c, false)]
  }

  lemma RunPair(w: World, acts: seq<Action>, a: Action, b: Action)
    ensures Run(w, acts + [a, b]) == Act(Act(Run(w, acts), a), b)
  {
    hide Act;
    assert (acts + [a, b])[..|acts| + 1] == acts + [a];
    assert (acts + [a])[..|acts|] == acts;
  }

  lemma RegistersAndFetches(w: World, user: int, handle: string, event: int, p: int)
    requires Initial(w) && user !in w.users && handle !in w.users.Values
    ensures Act(Act(w, Register(user, handle, event, Fate.Answered)), Fetch(p, [event]))
         == World(w.users[user := handle], map[event := Row(user, handle, false)], [], map[p := Batch([event])], map[], w.payment)
  {
    var w1 := Act(w, Register(user, handle, event, Fate.Answered));
    assert w1 == World(w.users[user := handle], map[event := Row(user, handle, false)], [], map[], map[], w.payment);
    assert Fetchable(w1, [event]);
  }

  lemma PublishesAndMarks(w: World, user: int, handle: string, event: int, p: int)
    requires w.outbox == map[event := Row(user, handle, false)] && w.topic == [] && w.publishers == map[p := Batch([event])]
    ensures Act(Act(w, Publish(p, Fate.Answered)), Mark(p, Fate.Answered))
         == w.(outbox := map[event := Row(user, handle, true)], topic := [Message(event, user, handle)], publishers := map[p := Batch([])])
  {
    var w1 := Act(w, Publish(p, Fate.Answered));
    assert [event][1..] == [];
    assert w1.topic == [Message(event, user, handle)] && w1.publishers == map[p := Sent(event, [])];
    assert map[event := Row(user, handle, false)][event := Row(user, handle, true)] == map[event := Row(user, handle, true)];
    assert map[p := Sent(event, [])][p := Batch([])] == map[p := Batch([])];
  }

  /** Such a message can be lost in the first run of any system: the user is registered and the event marked published,
      and after any further steps that read no message of the user there is no wallet. */
  lemma LostMessageIsReached(w: World, user: int, handle: string, event: int, p: int, c: int, acts: seq<Action>)
    requires Initial(w) && user !in w.users && handle !in w.users.Values
    requires Unread(Run(w, LostMessage(user, handle, event, p, c)), acts, user)
    ensures var lost := Run(w, LostMessage(user, handle, event, p, c));
            && user in lost.users && lost.outbox == map[event := Row(user, handle, true)]
            && Idle(Run(lost, acts), user)
  {
    hide Act, Run, Unread, Idle;
    var first := [] + [Register(user, handle, event, Fate.Answered), Fetch(p, [event])];
    var second := first + [Publish(p, Fate.Answered), Mark(p, Fate.Answered)];
    RunPair(w, [], Register(user, handle, event, Fate.Answered), Fetch(p, [event]));
    RunPair(w, first, Publish(p, Fate.Answered), Mark(p, Fate.Answered));
    RunPair(w, second, Read(c, 0), Check(c, false));
    RunOfNone(w);
    RegistersAndFetches(w, user, handle, event, p);
    PublishesAndMarks(Run(w, first), user, handle, event, p);
    ReadsFirst(Run(w, second), c);
    FailedReadIsFinal(Act(Run(w, second), Read(c, 0)), c, acts);
    CheckFrame(Act(Run(w, second), Read(c, 0)), c);
  }

  lemma RunOfNone(w: World)
    ensures Run(w, []) == w
  {
  }

  lemma ReadsFirst(w: World, c: int)
    requires w.consumers == map[] && |w.topic| == 1
    ensures Act(w, Read(c, 0)) == w.(consumers := map[c := Got(w.topic[0].user, w.topic[0].handle)])
  {
  }

  lemma CheckFrame(w: World, c: int)
    ensures var w' := Act(w, Check(c, false)); w'.users == w.users && w'.outbox == w.outbox
  {
  }

  // ---- The use case ----

  /** Whatever others did in between, a call that succeeds leaves its wallet in place, and calling again returns it
      and changes nothing, whatever handle is asked for. */
  lemma CreateWalletIsIdempotent(db: Db, between: Db, after: Db, user: int, handle: string, account: int, fate: Fate, again: bool,
                                 other: string, id: int, x: Db, y: Db)
    requires CreateWallet(db, between, after, Some(user), handle, true, account, fate, again).1.Ok? && other != ""
    ensures var (db', r) := CreateWallet(db, between, after, Some(user), handle, true, account, fate, again);
            && user in db'.wallets && r == Ok(db'.wallets[user])
            && CreateWallet(db', x, y, Some(user), other, true, id, Fate.Answered, again) == (db', r)
  {
  }

  class WalletUsecase {
    const accounts: LedgerStore

    constructor (store: LedgerStore)
      ensures accounts == store
    {
      accounts := store;
    }

    /** What other writers leave behind between two accesses. */
    method Meanwhile(db: Db)
      modifies accounts
      ensures accounts.State() == db
    {
      accounts.accounts, accounts.wallets, accounts.handles := db.accounts, db.wallets, db.handles;
      accounts.txs, accounts.txIds, accounts.keys, accounts.journal := db.txs, db.txIds, db.keys, db.journal;
      accounts.deposits, accounts.pods, accounts.categories := db.deposits, db.pods, db.categories;
    }

    method Create(user: Option<int>, handle: string, read: bool, between: Db, account: int, fate: Fate, after: Db, again: bool)
      returns (r: Result<int>)
      modifies accounts
      ensures (accounts.State(), r) == CreateWallet(old(accounts.State()), between, after, user, handle, read, account, fate, again)
    {
      if user.None? || handle == "" {
        return Err(InvalidInput);
      }
      if !read {
        return Err(Failure);
      }
      if user.value in accounts.wallets {
        return Ok(accounts.wallets[user.value]);
      }
      Meanwhile(between);
      var err := accounts.CreateAccount(account, Wallet, user, Some(handle), fate);
      if err.Some? {
        if err.value.AlreadyExists? {
          Meanwhile(after);
          if !again {
            return Err(Failure);
          }
          if user.value !in accounts.wallets {
            return Err(NotFound);
          }
          return Ok(accounts.wallets[user.value]);
        }
        return Err(err.value);
      }
      return Ok(account);
    }
  }
}
