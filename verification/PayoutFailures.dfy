/** Runs of the payout workers that pay a payout twice, and the steps after which one is never paid. */
module PayoutFailures {
  import opened Common
  import opened Payouts
  import opened PayoutRuns

  // ---- Runs that pay twice ----

  lemma RunPair(w: World, acts: seq<Action>, a: Action, b: Action)
    ensures Run(w, acts + [a, b]) == Act(Act(Run(w, acts), a), b)
  {
    hide Act;
    assert (acts + [a, b])[..|acts| + 1] == acts + [a];
    assert (acts + [a])[..|acts|] == acts;
  }

  /** An event, its payment and its mark. */
  function FirstTry(x: int, id: int, p: Payout, fate: Fate): seq<Action> {
    [] + [Receive(x, id, p, Answered), Pay(x, fate)] + [Mark(x, Answered), Stop(x)]
  }

  /** The failed payout of an event whose payment was made so often. */
  function FailedWorld(id: int, p: Payout, made: map<int, nat>): World {
    World(map[id := p.(status := Failed)], map[(p.tx, p.recipient) := id], map[], made, made, map[])
  }

  /** The payments made by one such attempt. */
  function Made(id: int, fate: Fate): map<int, nat> {
    if fate.Dropped? then map[] else map[id := 1]
  }

  lemma FirstTryFails(x: int, id: int, p: Payout, fate: Fate)
    requires !fate.Answered?
    ensures Run(EMPTY, FirstTry(x, id, p, fate)) == FailedWorld(id, p, Made(id, fate))
  {
    hide Run, Act, Bump;
    RunPair(EMPTY, [], Receive(x, id, p, Answered), Pay(x, fate));
    RunPair(EMPTY, [] + [Receive(x, id, p, Answered), Pay(x, fate)], Mark(x, Answered), Stop(x));
    RunNothing();
    FirstPays(x, id, p, fate);
    MarksFailed(World(map[id := p.(status := Pending)], map[(p.tx, p.recipient) := id], map[x := Failing(id)], Made(id, fate), Made(id, fate), map[]), x, id);
    assert map[id := p.(status := Pending)][id := p.(status := Failed)] == map[id := p.(status := Failed)];
  }

  lemma RunNothing()
    ensures Run(EMPTY, []) == EMPTY
  {
  }

  lemma FirstPays(x: int, id: int, p: Payout, fate: Fate)
    requires !fate.Answered?
    ensures Act(Act(EMPTY, Receive(x, id, p, Answered)), Pay(x, fate))
         == World(map[id := p.(status := Pending)], map[(p.tx, p.recipient) := id], map[x := Failing(id)], Made(id, fate), Made(id, fate), map[])
  {
    assert Act(EMPTY, Receive(x, id, p, Answered))
        == World(map[id := p.(status := Pending)], map[(p.tx, p.recipient) := id], map[x := Paying(id)], map[], map[], map[]);
    assert map[x := Paying(id)][x := Failing(id)] == map[x := Failing(id)];
  }

  lemma MarksFailed(w: World, x: int, id: int)
    requires w.workers == map[x := Failing(id)] && id in w.rows
    ensures Act(Act(w, Mark(x, Answered)), Stop(x)) == w.(workers := map[], rows := w.rows[id := w.rows[id].(status := Failed)])
  {
    var w1 := Act(w, Mark(x, Answered));
    assert w1 == w.(workers := map[x := Listed([])], rows := w.rows[id := w.rows[id].(status := Failed)]);
    assert map[x := Listed([])] - {x} == map[];
  }

  /** A payment that was made and not confirmed is made again by the next replay, although every write succeeds and
      nothing overlaps. */
  lemma UnconfirmedIsPaidTwice(x: int, id: int, p: Payout)
    ensures var acts := FirstTry(x, id, p, Unanswered) + [ListFailed(x, [id]), Pay(x, Answered)] + [Mark(x, Answered), Stop(x)];
            var w := Run(EMPTY, acts);
            && w.workers == map[] && w.rows == map[id := p.(status := Completed)] && Count(w.paid, id) == 2
            && OneReplay(acts) && Unrepeated(acts) && !Lossless(acts)
  {
    hide Run, Act, Bump, OneReplay, Unrepeated, Lossless, Replays;
    var first := FirstTry(x, id, p, Unanswered);
    var paying := first + [ListFailed(x, [id]), Pay(x, Answered)];
    var acts := paying + [Mark(x, Answered), Stop(x)];
    FirstTryFails(x, id, p, Unanswered);
    RunPair(EMPTY, first, ListFailed(x, [id]), Pay(x, Answered));
    RunPair(EMPTY, paying, Mark(x, Answered), Stop(x));
    var w := FailedWorld(id, p, map[id := 1]);
    Takes(w, x, id);
    Pays(Act(w, ListFailed(x, [id])), x, id);
    MarksPaid(Run(EMPTY, paying), x, id);
    Twice(map[id := 1], id);
    assert map[id := p.(status := Failed)][id := p.(status := Completed)] == map[id := p.(status := Completed)];
    TalliesExact(acts);
    assert id in Run(EMPTY, acts).lost;
    OnlyReplay(first, acts);
  }

  lemma Twice(m: map<int, nat>, id: int)
    ensures Count(Bump(m, id), id) == Count(m, id) + 1
  {
  }

  lemma MarksPaid(w: World, x: int, id: int)
    requires w.workers == map[x := Paid(id, [])] && id in w.rows && w.rows[id].status.Failed?
    ensures Act(Act(w, Mark(x, Answered)), Stop(x)) == w.(workers := map[], rows := w.rows[id := w.rows[id].(status := Completed)])
  {
    var w1 := Act(w, Mark(x, Answered));
    assert w1 == w.(workers := map[x := Listed([])], rows := w.rows[id := w.rows[id].(status := Completed)]);
    assert map[x := Listed([])] - {x} == map[];
  }

  /** A run whose only replay starts when nobody works. */
  lemma OnlyReplay(first: seq<Action>, acts: seq<Action>)
    requires first <= acts && Run(EMPTY, first).workers == map[]
    requires forall i | 0 <= i < |acts| && acts[i].ListFailed? :: i == |first|
    ensures OneReplay(acts)
  {
    hide Run, Replays;
    assert acts[..|first|] == first;
  }

  lemma BothTake(w: World, x: int, y: int, id: int)
    requires x !in w.workers && y !in w.workers && x != y && id in w.rows && w.rows[id].status.Failed?
    ensures var w2 := Act(Act(w, ListFailed(x, [id])), ListFailed(y, [id]));
            w2 == w.(workers := w.workers[x := Listed([id])][y := Listed([id])])
  {
    hide Act;
    Takes(w, x, id);
    Takes(Act(w, ListFailed(x, [id])), y, id);
  }

  lemma BothPay(w: World, x: int, y: int, id: int)
    requires x != y && x in w.workers && y in w.workers && w.workers[x] == w.workers[y] == Listed([id])
    ensures var w2 := Act(Act(w, Pay(x, Answered)), Pay(y, Answered));
            w2 == w.(workers := w.workers[x := Paid(id, [])][y := Paid(id, [])], paid := Bump(Bump(w.paid, id), id))
  {
    hide Act;
    Pays(w, x, id);
    Pays(Act(w, Pay(x, Answered)), y, id);
  }

  lemma BothMark(w: World, x: int, y: int, id: int)
    requires x != y && x in w.workers && y in w.workers && w.workers[x] == w.workers[y] == Paid(id, [])
    requires id in w.rows && w.rows[id].status.Failed?
    ensures Act(Act(w, Mark(x, Answered)), Mark(y, Answered))
         == w.(workers := w.workers[x := Listed([])][y := Listed([])], rows := w.rows[id := w.rows[id].(status := Completed)],
               repeated := Bump(w.repeated, id))
  {
    hide Bump;
    var w1 := Act(w, Mark(x, Answered));
    assert w1 == w.(workers := w.workers[x := Listed([])], rows := w.rows[id := w.rows[id].(status := Completed)]);
    var done := w.rows[id].(status := Completed);
    assert w.rows[id := done][id := done] == w.rows[id := done];
  }

  /** A payment that never ran, and two replays that take the failed payout: both pay it, and no payment is lost. */
  lemma OverlappingReplaysPayTwice(x: int, y: int, id: int, p: Payout)
    requires x != y
    ensures var acts := FirstTry(x, id, p, Dropped) + [ListFailed(x, [id]), ListFailed(y, [id])]
                        + [Pay(x, Answered), Pay(y, Answered)] + [Mark(x, Answered), Mark(y, Answered)];
            var w := Run(EMPTY, acts);
            && Settled(w) && w.rows == map[id := p.(status := Completed)] && Count(w.paid, id) == 2
            && Lossless(acts) && !Unrepeated(acts)
  {
    hide Run, Act, Bump, Lossless, Unrepeated;
    var first := FirstTry(x, id, p, Dropped);
    var taken := first + [ListFailed(x, [id]), ListFailed(y, [id])];
    var paying := taken + [Pay(x, Answered), Pay(y, Answered)];
    var acts := paying + [Mark(x, Answered), Mark(y, Answered)];
    FirstTryFails(x, id, p, Dropped);
    RunPair(EMPTY, first, ListFailed(x, [id]), ListFailed(y, [id]));
    RunPair(EMPTY, taken, Pay(x, Answered), Pay(y, Answered));
    RunPair(EMPTY, paying, Mark(x, Answered), Mark(y, Answered));
    var w := FailedWorld(id, p, map[]);
    BothTake(w, x, y, id);
    BothPay(Run(EMPTY, taken), x, y, id);
    BothMark(Run(EMPTY, paying), x, y, id);
    Twice(map[], id);
    Twice(Bump(map[], id), id);
    assert map[id := p.(status := Failed)][id := p.(status := Completed)] == map[id := p.(status := Completed)];
    TalliesExact(acts);
    Twice(map[], id);
    assert Run(EMPTY, acts).repeated == Bump(map[], id);
    assert Run(EMPTY, acts).repeated != map[] by {
      BumpPositive(map[], id);
    }
  }

  lemma Takes(w: World, x: int, id: int)
    requires x !in w.workers && id in w.rows && w.rows[id].status.Failed?
    ensures Act(w, ListFailed(x, [id])) == w.(workers := w.workers[x := Listed([id])])
  {
  }

  lemma Pays(w: World, x: int, id: int)
    requires x in w.workers && w.workers[x] == Listed([id])
    ensures Act(w, Pay(x, Answered)) == w.(workers := w.workers[x := Paid(id, [])], paid := Bump(w.paid, id))
  {
    assert [id][1..] == [];
  }

  // ---- Payouts nobody will pay ----

  ghost predicate Stranded(w: World, id: int) {
    id in w.rows && w.rows[id].status.Pending? && forall x | x in w.workers :: !Holds(w.workers[x], id)
  }

  lemma ReceivedStranded(w: World, x: int, other: int, p: Payout, fate: Fate, id: int)
    requires Stranded(w, id)
    ensures Stranded(Received(w, x, other, p, fate), id) && Received(w, x, other, p, fate).paid == w.paid
  {
  }

  lemma TakenStranded(w: World, x: int, ids: seq<int>, id: int)
    requires Stranded(w, id)
    ensures Stranded(Taken(w, x, ids), id) && Taken(w, x, ids).paid == w.paid
  {
  }

  lemma StepPays(w: World, a: Action, id: int)
    requires (a.Pay? || a.Mark? || a.Stop?) && Count(Act(w, a).paid, id) != Count(w.paid, id)
    ensures a.worker in w.workers && Holds(w.workers[a.worker], id)
  {
  }

  lemma ActStranded(w: World, a: Action, id: int)
    requires Stranded(w, id)
    ensures Stranded(Act(w, a), id) && Count(Act(w, a).paid, id) == Count(w.paid, id)
  {
    hide Received, Taken, Asked, Marked, Stopped, Holds;
    if a.Receive? {
      ReceivedStranded(w, a.worker, a.id, a.payout, a.fate, id);
    } else if a.ListFailed? {
      TakenStranded(w, a.worker, a.ids, id);
    } else {
      StepRows(w, a, id);
      if Count(Act(w, a).paid, id) != Count(w.paid, id) {
        StepPays(w, a, id);
      }
      forall y | y in Act(w, a).workers ensures !Holds(Act(w, a).workers[y], id) {
        if Holds(Act(w, a).workers[y], id) {
          StepHolds(w, a, y, id);
        }
      }
    }
  }

  /** A payout whose first worker stopped before paying, or whose insert was not confirmed, stays pending and is never
      paid: a redelivery is a duplicate, and replays take failed payouts only. */
  lemma {:induction false} StrandedForever(w: World, acts: seq<Action>, id: int)
    requires Stranded(w, id)
    ensures Stranded(Run(w, acts), id) && Count(Run(w, acts).paid, id) == Count(w.paid, id)
  {
    if acts != [] {
      hide Stranded, Act;
      StrandedForever(w, acts[..|acts| - 1], id);
      ActStranded(Run(w, acts[..|acts| - 1]), acts[|acts| - 1], id);
    }
  }

  /** The steps that leave a payout pending with nobody to pay it: its insert was made and not confirmed, its mark was
      lost, or its worker stopped. */
  predicate Strands(w: World, a: Action, id: int) {
    match a
    case Receive(x, i, p, fate) =>
      i == id && fate.Unanswered? && x !in w.workers && id !in w.rows && (p.tx, p.recipient) !in w.index
    case Mark(x, fate) =>
      fate.Dropped? && x in w.workers && (w.workers[x].Failing? || w.workers[x].Paid?) && w.workers[x].id == id
      && id in w.rows && w.rows[id].status.Pending?
    case Stop(x) => x in w.workers && Holds(w.workers[x], id) && id in w.rows && w.rows[id].status.Pending?
    case _ => false
  }

  lemma ReceiveStrandsIff(w: World, a: Action, id: int)
    requires Known(w) && !Stranded(w, id) && a.Receive?
    ensures Stranded(Act(w, a), id) <==> Strands(w, a, id)
  {
    hide Holds, Act;
    var w' := Act(w, a);
    ReceiveCases(w, a);
    NewHolds(id);
    if id in w.rows && w.rows[id].status.Pending? {
      var x :| x in w.workers && Holds(w.workers[x], id);
      assert x in w'.workers && Holds(w'.workers[x], id);
    } else if id !in w.rows && id in w'.rows && a.fate.Answered? {
      assert w'.workers[a.worker] == Paying(id);
    }
  }

  lemma NewHolds(id: int)
    ensures Holds(Paying(id), id)
  {
  }

  lemma ListStrandsNone(w: World, a: Action, id: int)
    requires Known(w) && !Stranded(w, id) && a.ListFailed?
    ensures !Stranded(Act(w, a), id)
  {
    if a.worker !in w.workers && Listing(w, a.ids) && id in w.rows && w.rows[id].status.Pending? {
      var x :| x in w.workers && Holds(w.workers[x], id);
      assert x in Act(w, a).workers && Holds(Act(w, a).workers[x], id);
    }
  }

  /** The only worker of a pending payout goes on with it, unless it marks the payout or stops. */
  lemma HolderPays(w: World, a: Action, id: int)
    requires Owned(w) && a.Pay? && a.worker in w.workers && Holds(w.workers[a.worker], id)
    requires id in w.rows && w.rows[id].status.Pending?
    ensures a.worker in Act(w, a).workers && Holds(Act(w, a).workers[a.worker], id) && Act(w, a).rows == w.rows
  {
    assert id !in Todo(w.workers[a.worker]);
  }

  lemma HolderMarks(w: World, a: Action, id: int)
    requires Owned(w) && a.Mark? && a.worker in w.workers && Holds(w.workers[a.worker], id)
    requires id in w.rows && w.rows[id].status.Pending?
    ensures var k, w' := w.workers[a.worker], Act(w, a);
            && !k.Listed? && k.id == id && id in w'.rows && a.worker in w'.workers
            && (k.Paying? ==> w' == w)
            && (!k.Paying? ==> !Holds(w'.workers[a.worker], id) && (w'.rows[id].status.Pending? <==> a.fate.Dropped?))
  {
    assert id !in Todo(w.workers[a.worker]);
  }

  lemma StepStrandsIff(w: World, a: Action, id: int)
    requires Known(w) && Owned(w) && !Stranded(w, id) && (a.Pay? || a.Mark? || a.Stop?)
    ensures Stranded(Act(w, a), id) <==> Strands(w, a, id)
  {
    hide Act, Holds, Known, Todo;
    var w' := Act(w, a);
    StepCounts(w, a);
    if id in w.rows && w.rows[id].status.Pending? {
      var x :| x in w.workers && Holds(w.workers[x], id);
      StepRows(w, a, id);
      if a.Mark? && a.worker in w.workers && !w.workers[a.worker].Listed? {
        MarkerHolds(w, a);
      }
      forall y | y in w'.workers && y != x ensures !Holds(w'.workers[y], id) {
        if Holds(w'.workers[y], id) {
          StepHolds(w, a, y, id);
        }
      }
      if a.worker != x {
        OthersGoOn(w, a, x);
      } else if a.Pay? {
        HolderPays(w, a, id);
      } else if a.Mark? {
        HolderMarks(w, a, id);
      } else {
        Stops(w, x);
      }
    } else if id in w.rows {
      NotPendingAgain(w, a, id);
    }
  }

  lemma MarkerHolds(w: World, a: Action)
    requires a.Mark? && a.worker in w.workers && !w.workers[a.worker].Listed?
    ensures Holds(w.workers[a.worker], w.workers[a.worker].id)
  {
  }

  lemma StrandsIff(w: World, a: Action, id: int)
    requires Sound(w) && Owned(w) && !Stranded(w, id)
    ensures Stranded(Act(w, a), id) <==> Strands(w, a, id)
  {
    hide Act, Known, Owned, FirstAttempts, Accounted, Indexed, Stranded;
    if a.Receive? {
      ReceiveStrandsIff(w, a, id);
    } else if a.ListFailed? {
      ListStrandsNone(w, a, id);
    } else {
      StepStrandsIff(w, a, id);
    }
  }

  ghost predicate EverStranded(acts: seq<Action>, id: int) {
    exists i :: 0 <= i < |acts| && Strands(Run(EMPTY, acts[..i]), acts[i], id)
  }

  lemma EverStep(acts: seq<Action>, id: int)
    requires acts != []
    ensures var before, last := acts[..|acts| - 1], acts[|acts| - 1];
            EverStranded(acts, id) <==> EverStranded(before, id) || Strands(Run(EMPTY, before), last, id)
  {
    hide Run, Strands;
    var n := |acts| - 1;
    forall i | 0 <= i < n ensures acts[..n][..i] == acts[..i] && acts[..n][i] == acts[i] {
    }
    if i :| 0 <= i < n && Strands(Run(EMPTY, acts[..n][..i]), acts[..n][i], id) {
      assert Strands(Run(EMPTY, acts[..i]), acts[i], id);
    }
  }

  /** Over every run: a payout is pending with nobody to pay it exactly when some step stranded it. */
  lemma {:induction false} StrandedExactly(acts: seq<Action>, id: int)
    ensures Stranded(Run(EMPTY, acts), id) <==> EverStranded(acts, id)
  {
    if acts != [] {
      hide Act, Stranded, Strands, Sound, Owned, EverStranded;
      var before, last := acts[..|acts| - 1], acts[|acts| - 1];
      StrandedExactly(before, id);
      EverStep(acts, id);
      RunSound(before);
      JobsKept(before);
      if Stranded(Run(EMPTY, before), id) {
        ActStranded(Run(EMPTY, before), last, id);
      } else {
        StrandsIff(Run(EMPTY, before), last, id);
      }
    } else {
      NothingStranded(id);
    }
  }

  lemma NothingStranded(id: int)
    ensures !Stranded(Run(EMPTY, []), id) && !EverStranded([], id)
  {
  }
}
