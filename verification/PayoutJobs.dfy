/** What one event and one replay leave behind: which payouts are paid, which are marked how, and what stays as it was. */
module PayoutJobs {
  import opened Common
  import opened Payouts

  /** A payment of one payout more, unless it never ran; every other payout's payments are as many as before. */
  ghost predicate PaidMore(before: map<int, nat>, after: map<int, nat>, id: int, fate: Fate) {
    forall i :: Count(after, i) == Count(before, i) + if i == id && !fate.Dropped? then 1 else 0
  }

  /** How an event's payout ends: completed when the payment was confirmed, failed when it was not, and pending when that
      could not be written. */
  function Ends(pay: Fate, mark: Fate): Status {
    if mark.Dropped? then Pending else if pay.Answered? then Completed else Failed
  }

  lemma AskedFirst(w: World, x: int, id: int, fate: Fate)
    requires x in w.workers && w.workers[x] == Paying(id)
    ensures var w' := Act(w, Pay(x, fate));
            && w'.rows == w.rows && w'.index == w.index && PaidMore(w.paid, w'.paid, id, fate)
            && w'.workers == w.workers[x := if fate.Answered? then Paid(id, []) else Failing(id)]
  {
  }

  lemma MarksFirst(w: World, x: int, id: int, pay: Fate, fate: Fate)
    requires x in w.workers && w.workers[x] == (if pay.Answered? then Paid(id, []) else Failing(id))
    requires id in w.rows && w.rows[id].status.Pending?
    ensures var w' := Act(w, Mark(x, fate));
            && w'.rows == w.rows[id := w.rows[id].(status := Ends(pay, fate))] && w'.index == w.index && w'.paid == w.paid
            && w'.workers == w.workers[x := Listed([])]
  {
    hide Bump;
  }

  lemma Inserts(w: World, x: int, id: int, p: Payout, fate: Fate)
    requires x !in w.workers && (p.tx, p.recipient) !in w.index && id !in w.rows
    ensures Act(w, Receive(x, id, p, fate))
         == if fate.Dropped? then w
            else w.(rows := w.rows[id := p.(status := Pending)], index := w.index[(p.tx, p.recipient) := id],
                    workers := if fate.Answered? then w.workers[x := Paying(id)] else w.workers)
  {
  }

  /** Payment and mark of the payout of an event. */
  lemma PaysAndMarks(w: World, x: int, id: int, fx: Effects)
    requires x in w.workers && w.workers[x] == Paying(id) && id in w.rows && w.rows[id].status.Pending?
    ensures var w' := PayAndMark(w, x, id, fx);
            && w'.rows == w.rows[id := w.rows[id].(status := Ends(fx.pay(id), fx.mark(id)))] && w'.index == w.index
            && w'.workers == w.workers[x := Listed([])] && PaidMore(w.paid, w'.paid, id, fx.pay(id))
  {
    hide Act, PaidMore;
    AskedFirst(w, x, id, fx.pay(id));
    var paying := Act(w, Pay(x, fx.pay(id)));
    MarksFirst(paying, x, id, fx.pay(id), fx.mark(id));
    var k := paying.workers[x];
    assert w.workers[x := k][x := Listed([])] == w.workers[x := Listed([])];
  }

  /** An event for a new transaction and recipient, with a fresh identifier: exactly one row is added, with the payout
      given; it is paid at most once, and once exactly when the insert was answered and the payment was not dropped; it ends
      completed, failed or pending as the payment and the mark went; no worker is left, and every other row stays. */
  lemma ProcessedLeaves(w: World, x: int, id: int, p: Payout, fx: Effects)
    requires x !in w.workers && (p.tx, p.recipient) !in w.index && id !in w.rows
    ensures var w' := Processed(w, x, id, p, fx);
            var status := if fx.insert.Answered? then Ends(fx.pay(id), fx.mark(id)) else Pending;
            && w'.workers == w.workers
            && w'.rows == (if fx.insert.Dropped? then w.rows
                           else w.rows[id := Payout(p.tx, p.recipient, p.account, p.amount, status, p.created)])
            && w'.index == (if fx.insert.Dropped? then w.index else w.index[(p.tx, p.recipient) := id])
            && PaidMore(w.paid, w'.paid, id, if fx.insert.Answered? then fx.pay(id) else Dropped)
  {
    hide Act, PaidMore, PayAndMark;
    Inserts(w, x, id, p, fx.insert);
    var received := Act(w, Receive(x, id, p, fx.insert));
    if fx.insert.Answered? {
      PaysAndMarks(received, x, id, fx);
      var marked := PayAndMark(received, x, id, fx);
      StopIdle(marked, x);
      WithoutIt(w.workers, x, Paying(id), Listed([]));
      RowAgain(w.rows, id, p.(status := Pending), p.(status := Ends(fx.pay(id), fx.mark(id))));
    } else {
      NotPaid(w.paid, id);
    }
  }

  lemma WithoutIt(workers: map<int, Worker>, x: int, k: Worker, k': Worker)
    requires x !in workers
    ensures workers[x := k][x := k'] - {x} == workers
  {
  }

  lemma RowAgain(rows: map<int, Payout>, id: int, p: Payout, p': Payout)
    ensures rows[id := p][id := p'] == rows[id := p']
  {
  }

  lemma NotPaid(paid: map<int, nat>, id: int)
    ensures PaidMore(paid, paid, id, Dropped)
  {
  }

  /** Such an event is paid and completed when everything is answered. */
  lemma HappyEvent(w: World, x: int, id: int, p: Payout, fx: Effects)
    requires Sound(w) && x !in w.workers && (p.tx, p.recipient) !in w.index && id !in w.rows
    requires fx.insert.Answered? && fx.pay(id).Answered? && fx.mark(id).Answered?
    ensures var w' := Processed(w, x, id, p, fx);
            w'.rows == w.rows[id := p.(status := Completed)] && Count(w'.paid, id) == 1 && w'.workers == w.workers
  {
    hide Processed;
    ProcessedLeaves(w, x, id, p, fx);
    assert id !in w.paid;
  }

  // ---- Replays ----

  /** A replayed payout is completed when its payment was confirmed and the mark took effect, and stays failed otherwise. */
  function Replayed(p: Payout, pay: Fate, mark: Fate): Payout {
    if pay.Answered? && !mark.Dropped? then p.(status := Completed) else p
  }

  lemma OneLeaves(w: World, x: int, todo: seq<int>, fx: Effects)
    requires x in w.workers && w.workers[x] == Listed(todo) && todo != [] && todo[0] in w.rows
    ensures var w', id := PayAndMark(w, x, todo[0], fx), todo[0];
            && w'.workers == w.workers[x := Listed(todo[1..])] && w'.index == w.index
            && w'.rows == w.rows[id := Replayed(w.rows[id], fx.pay(id), fx.mark(id))]
            && PaidMore(w.paid, w'.paid, id, fx.pay(id))
  {
    hide PaidMore, Bump;
    var id, fate := todo[0], fx.pay(todo[0]);
    AskedListed(w, x, todo, fate);
    var paying := Act(w, Pay(x, fate));
    if fate.Answered? {
      MarksListed(paying, x, id, todo[1..], fx.mark(id));
      assert w.workers[x := Paid(id, todo[1..])][x := Listed(todo[1..])] == w.workers[x := Listed(todo[1..])];
    }
    assert w.rows == w.rows[id := w.rows[id]];
  }

  lemma AskedListed(w: World, x: int, todo: seq<int>, fate: Fate)
    requires x in w.workers && w.workers[x] == Listed(todo) && todo != []
    ensures var w' := Act(w, Pay(x, fate));
            && w'.rows == w.rows && w'.index == w.index && PaidMore(w.paid, w'.paid, todo[0], fate)
            && w'.workers == w.workers[x := if fate.Answered? then Paid(todo[0], todo[1..]) else Listed(todo[1..])]
  {
  }

  lemma MarksListed(w: World, x: int, id: int, rest: seq<int>, fate: Fate)
    requires x in w.workers && w.workers[x] == Paid(id, rest) && id in w.rows
    ensures var w' := Act(w, Mark(x, fate));
            && w'.index == w.index && w'.paid == w.paid && w'.workers == w.workers[x := Listed(rest)]
            && w'.rows == if fate.Dropped? then w.rows else w.rows[id := w.rows[id].(status := Completed)]
  {
    hide Bump;
  }

  /** The first k payouts of a list, each once: paid once more unless the payment never ran, completed exactly as said, and
      everything else as it was. */
  lemma {:induction false} ReplayedLeaves(w: World, x: int, ids: seq<int>, k: nat, fx: Effects)
    requires x in w.workers && w.workers[x] == Listed(ids) && k <= |ids| && (forall id | id in ids :: id in w.rows)
    requires forall i, j | 0 <= i < j < |ids| :: ids[i] != ids[j]
    ensures var w' := ReplayedAll(w, x, ids[..k], fx);
            && w'.workers == w.workers[x := Listed(ids[k..])] && w'.index == w.index && w'.rows.Keys == w.rows.Keys
            && (forall id | id in w.rows ::
                  w'.rows[id] == if id in ids[..k] then Replayed(w.rows[id], fx.pay(id), fx.mark(id)) else w.rows[id])
            && (forall id :: Count(w'.paid, id) == Count(w.paid, id) + if id in ids[..k] && !fx.pay(id).Dropped? then 1 else 0)
  {
    hide PayAndMark, Count, Replayed;
    if k == 0 {
      assert ids[..0] == [] && ids[0..] == ids && w.workers[x := Listed(ids)] == w.workers;
    } else {
      ReplayedLeaves(w, x, ids, k - 1, fx);
      var before := ReplayedAll(w, x, ids[..k - 1], fx);
      assert ids[..k][..k - 1] == ids[..k - 1] && ids[..k][k - 1] == ids[k - 1];
      assert ids[k - 1..][0] == ids[k - 1] && ids[k - 1..][1..] == ids[k..];
      assert ids[k - 1] in ids;
      OneLeaves(before, x, ids[k - 1..], fx);
      forall id ensures id in ids[..k] <==> id in ids[..k - 1] || id == ids[k - 1] {
        assert ids[..k] == ids[..k - 1] + [ids[k - 1]];
      }
      assert ids[k - 1] !in ids[..k - 1];
    }
  }

  /** A replay of the failed payouts listed, from start to end. */
  lemma ReplayLeaves(w: World, x: int, ids: seq<int>, fx: Effects)
    requires x !in w.workers && Listing(w, ids)
    ensures var w' := Act(ReplayedAll(Act(w, ListFailed(x, ids)), x, ids, fx), Stop(x));
            && w'.workers == w.workers && w'.index == w.index && w'.rows.Keys == w.rows.Keys
            && (forall id | id in w.rows ::
                  w'.rows[id] == if id in ids then Replayed(w.rows[id], fx.pay(id), fx.mark(id)) else w.rows[id])
            && (forall id :: Count(w'.paid, id) == Count(w.paid, id) + if id in ids && !fx.pay(id).Dropped? then 1 else 0)
  {
    hide Act, Count, Replayed, ReplayedAll;
    ListingTaken(w, x, ids);
    ListingDistinct(w, ids);
    var taken := Act(w, ListFailed(x, ids));
    ReplayedLeaves(taken, x, ids, |ids|, fx);
    assert ids[..|ids|] == ids && ids[|ids|..] == [];
    var end := ReplayedAll(taken, x, ids, fx);
    StopIdle(end, x);
    assert w.workers[x := Listed(ids)][x := Listed([])] - {x} == w.workers;
  }

  lemma ListingDistinct(w: World, ids: seq<int>)
    requires Listing(w, ids)
    ensures forall i, j | 0 <= i < j < |ids| :: ids[i] != ids[j]
  {
  }
}
