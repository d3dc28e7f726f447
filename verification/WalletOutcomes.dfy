/** From a registration to its wallet, step by step: what each call answers and leaves behind. */
module WalletOutcomes {
  import opened Common
  import opened Ledger
  import opened Outbox

  /** A registration commits exactly when user, handle and event are new and the transaction is not dropped; then it has
      written the user and one unpublished event that names both, and nothing else. */
  lemma RegisteredIff(w: World, user: int, handle: string, event: int, fate: Fate)
    ensures var w' := Act(w, Register(user, handle, event, fate));
            if !fate.Dropped? && user !in w.users && (forall u | u in w.users :: w.users[u] != handle) && event !in w.outbox
            then w' == w.(users := w.users[user := handle], outbox := w.outbox[event := Row(user, handle, false)])
            else w' == w
  {
    if handle in w.users.Values {
      var u := SomeKey(w.users, handle);
    } else {
      forall u | u in w.users ensures w.users[u] != handle {
        assert w.users[u] in w.users.Values;
      }
    }
  }

  lemma SomeKey<K(!new), V>(m: map<K, V>, v: V) returns (k: K)
    requires v in m.Values
    ensures k in m && m[k] == v
  {
    k :| k in m.Keys && m[k] == v;
  }

  /** The wallet of a user is the new account, empty, under the handle. */
  ghost predicate Opened(db: Db, db': Db, user: int, handle: string, account: int) {
    && account in db'.accounts && db'.accounts[account] == Account(Wallet, 0, 0) && db'.accounts - {account} == db.accounts
    && db'.wallets == db.wallets[user := account] && db'.handles == db.handles[handle := account]
    && db'.txs == db.txs && db'.journal == db.journal && db'.deposits == db.deposits && db'.pods == db.pods
  }

  predicate Free(db: Db, user: int, handle: string, account: int) {
    account !in db.accounts && user !in db.wallets && handle !in db.handles
  }

  /** CreateWallet for a user with a handle. It answers the wallet that its lookup finds; without one it opens the account
      when user, handle and account are free at that time; and when they are not it answers the wallet that the fallback
      finds. It never opens an account otherwise. */
  lemma CreateWalletIff(db: Db, between: Db, after: Db, user: int, handle: string, read: bool, account: int, fate: Fate,
                        again: bool)
    requires handle != ""
    ensures var (end, r) := CreateWallet(db, between, after, Some(user), handle, read, account, fate, again);
            if !read then end == db && r == Err(Failure)
            else if user in db.wallets then end == db && r == Ok(db.wallets[user])
            else if fate.Dropped? then end == between && r == Err(Failure)
            else if Free(between, user, handle, account) then
              Opened(between, end, user, handle, account) && r == (if fate == Fate.Answered then Ok(account) else Err(Failure))
            else
              end == after && r == (if !again then Err(Failure)
                                    else if user in after.wallets then Ok(after.wallets[user]) else Err(NotFound))
  {
  }

  lemma CreateWalletRefused(db: Db, between: Db, after: Db, user: Option<int>, handle: string, read: bool, account: int,
                            fate: Fate, again: bool)
    requires user.None? || handle == ""
    ensures CreateWallet(db, between, after, user, handle, read, account, fate, again) == (db, Err(InvalidInput))
  {
  }

  /** In any system, after any run: whoever reads a message, finds his lookup and his insert answered, and uses an account
      that is free, answers with the wallet of the message's user; and there is one. */
  lemma ReadBecomesWallet(w: World, acts: seq<Action>, c: int, offset: nat, account: int)
    requires Initial(w)
    requires var end := Run(w, acts);
             && offset < |end.topic| && end.topic[offset].handle != ""
             && c !in end.consumers && account !in end.payment.accounts
    ensures var end := Run(w, acts);
            var m := end.topic[offset];
            var done := Act(Act(Act(end, Read(c, offset)), Check(c, true)), Insert(c, account, Fate.Answered));
            && m.user in done.payment.wallets && c in done.consumers
            && done.consumers[c] == Consumer.Answered(m.user, m.handle, Ok(done.payment.wallets[m.user]))
            && (if m.user in end.payment.wallets then done.payment == end.payment
                else Opened(end.payment, done.payment, m.user, m.handle, account))
  {
    hide Run, Initial;
    RunSound(w, acts);
    var end := Run(w, acts);
    var m := end.topic[offset];
    assert Told(end, m.user, m.handle);
    ConflictIsOwn(end, m.user, m.handle);
    ReadsAndChecks(end, c, offset);
    var checked := Act(Act(end, Read(c, offset)), Check(c, true));
    if m.user !in end.payment.wallets {
      InsertsFree(checked, c, account);
    } else {
      InsertsNothing(checked, c, account);
    }
  }

  lemma ReadsAndChecks(w: World, c: int, offset: nat)
    requires offset < |w.topic| && w.topic[offset].handle != "" && c !in w.consumers
    ensures var m := w.topic[offset];
            Act(Act(w, Read(c, offset)), Check(c, true))
            == w.(consumers := w.consumers[c := if m.user in w.payment.wallets
                                                then Consumer.Answered(m.user, m.handle, Ok(w.payment.wallets[m.user]))
                                                else Missing(m.user, m.handle)])
  {
    var m := w.topic[offset];
    assert Act(w, Read(c, offset)) == w.(consumers := w.consumers[c := Got(m.user, m.handle)]);
    var k := Checked(w.payment, Got(m.user, m.handle), true);
    assert w.consumers[c := Got(m.user, m.handle)][c := k] == w.consumers[c := k];
  }

  lemma InsertsFree(w: World, c: int, account: int)
    requires c in w.consumers && w.consumers[c].Missing? && Free(w.payment, w.consumers[c].user, w.consumers[c].handle, account)
    ensures var w', k := Act(w, Insert(c, account, Fate.Answered)), w.consumers[c];
            && Opened(w.payment, w'.payment, k.user, k.handle, account)
            && w'.consumers == w.consumers[c := Consumer.Answered(k.user, k.handle, Ok(account))]
  {
  }

  lemma InsertsNothing(w: World, c: int, account: int)
    requires c in w.consumers && !w.consumers[c].Missing?
    ensures Act(w, Insert(c, account, Fate.Answered)) == w
  {
  }

  /** A batch that is published and marked: the event is on the topic, as the registration wrote it, and is not fetched
      again. */
  lemma PublishedLeaves(w: World, p: int, event: int)
    requires p !in w.publishers && event in w.outbox && !w.outbox[event].published
    ensures var w' := Act(Act(Act(w, Fetch(p, [event])), Publish(p, Fate.Answered)), Mark(p, Fate.Answered));
            && w'.topic == w.topic + [Message(event, w.outbox[event].user, w.outbox[event].handle)]
            && w'.outbox == w.outbox[event := Row(w.outbox[event].user, w.outbox[event].handle, true)]
            && w'.users == w.users && w'.payment == w.payment && !Fetchable(w', [event])
  {
    var w1 := Act(w, Fetch(p, [event]));
    assert Fetchable(w, [event]);
    assert w1 == w.(publishers := w.publishers[p := Batch([event])]);
    var w2 := Act(w1, Publish(p, Fate.Answered));
    assert [event][1..] == [];
    assert w2.publishers == w1.publishers[p := Sent(event, [])];
    var w3 := Act(w2, Mark(p, Fate.Answered));
    assert event in [event];
  }
}
