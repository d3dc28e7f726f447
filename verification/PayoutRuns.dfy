/** What payouts get paid, over every run of the workers of Payouts: exactly when each is paid once, which are paid twice,
    and which are never paid. */
module PayoutRuns {
  import opened Common
  import opened Sums
  import opened Payouts

  // ---- What each step changes ----

  /** What an event changes. */
  lemma ReceiveCases(w: World, a: Action)
    requires a.Receive?
    ensures var w' := Act(w, a);
            var inserted := a.worker !in w.workers && !a.fate.Dropped? && (a.payout.tx, a.payout.recipient) !in w.index && a.id !in w.rows;
            && w'.rows == (if inserted then w.rows[a.id := a.payout.(status := Pending)] else w.rows)
            && w'.workers == (if inserted && a.fate.Answered? then w.workers[a.worker := Paying(a.id)] else w.workers)
  {
  }

  lemma ListCases(w: World, a: Action)
    requires a.ListFailed?
    ensures Act(w, a) == if a.worker !in w.workers && Listing(w, a.ids) then w.(workers := w.workers[a.worker := Listed(a.ids)]) else w
  {
  }

  lemma OthersGoOn(w: World, a: Action, x: int)
    requires x in w.workers && a.worker != x && (a.Pay? || a.Mark? || a.Stop?)
    ensures x in Act(w, a).workers && Act(w, a).workers[x] == w.workers[x]
  {
    hide Bump, AfterPay;
  }

  lemma Stops(w: World, x: int)
    requires x in w.workers
    ensures Act(w, Stop(x)).rows == w.rows && Act(w, Stop(x)).workers == w.workers - {x}
  {
    hide Bump;
  }

  lemma MarkRows(w: World, a: Action, id: int)
    requires a.Mark? && id in w.rows
    ensures id in Act(w, a).rows && (Act(w, a).rows[id] == w.rows[id] || !Act(w, a).rows[id].status.Pending?)
  {
    hide Bump;
  }

  // ---- Steps that break the account ----

  /** A payment is made but not confirmed, or confirmed but not marked. */
  predicate Loses(w: World, a: Action) {
    a.worker in w.workers &&
    var k := w.workers[a.worker];
    match a
    case Pay(_, fate) => fate.Unanswered? && (k.Paying? || (k.Listed? && k.todo != []))
    case Mark(_, fate) => fate.Dropped? && k.Paid?
    case Stop(_) => k.Paid?
    case _ => false
  }

  /** A completed payout is completed again. */
  predicate Repeats(w: World, a: Action) {
    a.Mark? && a.worker in w.workers && w.workers[a.worker].Paid? && !a.fate.Dropped?
    && w.workers[a.worker].id in w.rows && w.rows[w.workers[a.worker].id].status.Completed?
  }

  ghost predicate Lossless(acts: seq<Action>) {
    forall i | 0 <= i < |acts| :: !Loses(Run(EMPTY, acts[..i]), acts[i])
  }

  ghost predicate Unrepeated(acts: seq<Action>) {
    forall i | 0 <= i < |acts| :: !Repeats(Run(EMPTY, acts[..i]), acts[i])
  }

  predicate Positive(m: map<int, nat>) {
    forall id | id in m :: m[id] >= 1
  }

  lemma HoldsOwn(k: Worker)
    requires k.Paid?
    ensures Holds(k, k.id)
  {
  }

  /** The payout a worker pays or marks next. */
  function Target(k: Worker): int {
    if !k.Listed? then k.id else if k.todo == [] then 0 else k.todo[0]
  }

  /** The tallies of lost and of repeated payments grow exactly in these steps. */
  lemma StepLosesIff(w: World, a: Action)
    requires Known(w)
    ensures Act(w, a).lost == if Loses(w, a) then Bump(w.lost, Target(w.workers[a.worker])) else w.lost
  {
    hide Known, Holds, Listing, Bump, AfterPay;
    if a.worker in w.workers && w.workers[a.worker].Paid? {
      PaidIsKnown(w, a.worker);
    }
  }

  lemma StepRepeatsIff(w: World, a: Action)
    ensures Act(w, a).repeated == if Repeats(w, a) then Bump(w.repeated, Target(w.workers[a.worker])) else w.repeated
  {
    hide Holds, Listing, Bump, AfterPay;
  }

  lemma PaidIsKnown(w: World, x: int)
    requires Known(w) && x in w.workers && w.workers[x].Paid?
    ensures w.workers[x].id in w.rows
  {
    HoldsOwn(w.workers[x]);
  }

  lemma BumpPositive(m: map<int, nat>, id: int)
    requires Positive(m)
    ensures Positive(Bump(m, id)) && Bump(m, id) != map[]
  {
    assert id in Bump(m, id);
  }

  lemma {:induction false} TalliesStep(acts: seq<Action>)
    requires acts != []
    ensures var before, last := acts[..|acts| - 1], acts[|acts| - 1];
            && (Lossless(acts) <==> Lossless(before) && !Loses(Run(EMPTY, before), last))
            && (Unrepeated(acts) <==> Unrepeated(before) && !Repeats(Run(EMPTY, before), last))
  {
    hide Run, Loses, Repeats;
    var n := |acts| - 1;
    forall i | 0 <= i < n ensures acts[..n][..i] == acts[..i] && acts[..n][i] == acts[i] {
    }
  }

  /** Nothing is lost, or repeated, exactly when no step of the run loses, or repeats, a payment. */
  lemma {:induction false} TalliesExact(acts: seq<Action>)
    ensures var w := Run(EMPTY, acts);
            && Positive(w.lost) && Positive(w.repeated)
            && (w.lost == map[] <==> Lossless(acts)) && (w.repeated == map[] <==> Unrepeated(acts))
  {
    if acts != [] {
      hide Act, Loses, Repeats, Lossless, Unrepeated, Positive, Sound, Bump;
      var before, last := acts[..|acts| - 1], acts[|acts| - 1];
      var w := Run(EMPTY, before);
      TalliesExact(before);
      TalliesStep(acts);
      RunSound(before);
      SoundIsKnown(w);
      StepLosesIff(w, last);
      StepRepeatsIff(w, last);
      if Loses(w, last) {
        BumpPositive(w.lost, Target(w.workers[last.worker]));
      }
      if Repeats(w, last) {
        BumpPositive(w.repeated, Target(w.workers[last.worker]));
      }
    }
  }

  lemma SoundIsKnown(w: World)
    requires Sound(w)
    ensures Known(w)
  {
  }

  // ---- Exactly once ----

  /** Payments not yet marked, for a payout. */
  function Unmarked(w: World, id: int): nat {
    |InFlight(w.workers, id)|
  }

  /** No worker is between a payment and its mark. */
  ghost predicate Settled(w: World) {
    forall id :: InFlight(w.workers, id) == {}
  }

  lemma CountZero(m: map<int, nat>)
    requires Positive(m)
    ensures m == map[] <==> forall id :: Count(m, id) == 0
  {
    if m != map[] {
      assert m.Keys != {};
      SomeMember(m.Keys);
      var id :| id in m.Keys;
      assert Count(m, id) >= 1;
    }
  }

  /** Once nobody is between a payment and its mark: each completed payout was paid exactly once and the others never,
      if and only if no step of the run lost or repeated a payment. */
  lemma ExactlyOnceIff(acts: seq<Action>)
    requires Settled(Run(EMPTY, acts))
    ensures var w := Run(EMPTY, acts);
            (forall id :: Count(w.paid, id) == Done(w.rows, id)) <==> Lossless(acts) && Unrepeated(acts)
  {
    hide Run, InFlight, Lossless, Unrepeated, Count, Done;
    var w := Run(EMPTY, acts);
    RunSound(acts);
    TalliesExact(acts);
    CountZero(w.lost);
    CountZero(w.repeated);
    forall id ensures Count(w.paid, id) == Done(w.rows, id) + Count(w.lost, id) + Count(w.repeated, id) {
      assert InFlight(w.workers, id) == {};
    }
  }

  function Worth(w: World, counts: map<int, nat>): map<int, int> {
    map id | id in w.rows :: Count(counts, id) * w.rows[id].amount
  }

  function Earned(w: World): map<int, int> {
    map id | id in w.rows :: if w.rows[id].status.Completed? then w.rows[id].amount else 0
  }

  lemma Products(p: int, d: int, l: int, r: int, amount: int)
    requires p == d + l + r
    ensures p * amount == d * amount + l * amount + r * amount
  {
  }

  lemma OneSplits(w: World, id: int)
    requires Accounted(w) && InFlight(w.workers, id) == {} && id in w.rows
    ensures Worth(w, w.paid)[id] == Earned(w)[id] + Worth(w, w.lost)[id] + Worth(w, w.repeated)[id]
  {
    hide InFlight;
    assert Count(w.paid, id) == Done(w.rows, id) + Count(w.lost, id) + Count(w.repeated, id);
    Products(Count(w.paid, id), Done(w.rows, id), Count(w.lost, id), Count(w.repeated, id), w.rows[id].amount);
  }

  /** All the money paid out is the rewards of the completed payouts and what was lost or repeated. */
  lemma TotalSplits(w: World)
    requires Accounted(w) && Settled(w)
    ensures Sum(Worth(w, w.paid)) == Sum(Earned(w)) + Sum(Worth(w, w.lost)) + Sum(Worth(w, w.repeated))
  {
    hide InFlight, Sum, Accounted, Count;
    var first := map id | id in w.rows :: Earned(w)[id] + Worth(w, w.lost)[id];
    SumAdd(Earned(w), Worth(w, w.lost), first);
    forall id | id in w.rows ensures Worth(w, w.paid)[id] == first[id] + Worth(w, w.repeated)[id] {
      OneSplits(w, id);
    }
    SumAdd(first, Worth(w, w.repeated), Worth(w, w.paid));
  }

  lemma WorthNothing(w: World, counts: map<int, nat>)
    requires Positive(counts) && counts.Keys <= w.rows.Keys && forall id | id in w.rows :: w.rows[id].amount > 0
    ensures Sum(Worth(w, counts)) >= 0 && (Sum(Worth(w, counts)) == 0 <==> counts == map[])
  {
    hide Sum;
    var worth := Worth(w, counts);
    forall id | id in w.rows ensures worth[id] >= 0 && (worth[id] == 0 <==> Count(counts, id) == 0) {
      NoProduct(Count(counts, id), w.rows[id].amount);
    }
    SumZero(worth);
    CountZero(counts);
    forall id | id !in w.rows ensures Count(counts, id) == 0 {
    }
  }

  lemma NoProduct(n: nat, amount: int)
    requires amount > 0
    ensures n * amount >= 0 && (n * amount == 0 <==> n == 0)
  {
  }

  /** Rewards being positive, the money paid out is exactly the rewards of the completed payouts if and only if no step
      of the run lost or repeated a payment. */
  lemma TotalPaidIff(acts: seq<Action>)
    requires Settled(Run(EMPTY, acts)) && forall id | id in Run(EMPTY, acts).rows :: Run(EMPTY, acts).rows[id].amount > 0
    ensures var w := Run(EMPTY, acts);
            Sum(Worth(w, w.paid)) == Sum(Earned(w)) <==> Lossless(acts) && Unrepeated(acts)
  {
    hide Run, Settled, Lossless, Unrepeated, Sum, Worth, Earned;
    var w := Run(EMPTY, acts);
    RunSound(acts);
    TalliesExact(acts);
    TotalSplits(w);
    WorthNothing(w, w.lost);
    WorthNothing(w, w.repeated);
  }

  // ---- Replays that do not overlap ----

  predicate NoRepeats(ids: seq<int>) {
    forall i, j | 0 <= i < j < |ids| :: ids[i] != ids[j]
  }

  /** Each payout is in the hands of one worker, once, and not completed. */
  ghost predicate Exclusive(w: World) {
    && (forall x, y, id | x in w.workers && y in w.workers && Holds(w.workers[x], id) && Holds(w.workers[y], id) :: x == y)
    && (forall x, id | x in w.workers && Holds(w.workers[x], id) && id in w.rows :: !w.rows[id].status.Completed?)
    && (forall x | x in w.workers :: Tidy(w.workers[x]))
    && w.repeated == map[]
  }

  ghost predicate Tidy(k: Worker) {
    && (k.Listed? || k.Paid? ==> NoRepeats(k.todo))
    && (k.Paid? ==> k.id !in k.todo)
  }

  /** A replay takes only payouts that no other worker has. */
  ghost predicate Polite(w: World, a: Action) {
    a.ListFailed? && a.worker !in w.workers && Listing(w, a.ids) ==>
      forall x, id | x in w.workers && id in a.ids :: !Holds(w.workers[x], id)
  }

  ghost predicate PoliteRun(acts: seq<Action>) {
    forall i | 0 <= i < |acts| :: Polite(Run(EMPTY, acts[..i]), acts[i])
  }

  lemma AfterPayTidy(k: Worker, fate: Fate)
    requires Tidy(k)
    ensures Tidy(AfterPay(k, fate))
  {
  }

  lemma MarkTidy(w: World, a: Action)
    requires a.Mark? && a.worker in w.workers && Tidy(w.workers[a.worker])
    ensures a.worker in Act(w, a).workers && Tidy(Act(w, a).workers[a.worker])
  {
    hide Bump;
  }

  lemma PayTidy(w: World, a: Action)
    requires a.Pay? && a.worker in w.workers && Tidy(w.workers[a.worker])
    ensures a.worker in Act(w, a).workers && Tidy(Act(w, a).workers[a.worker])
  {
    hide Bump, AfterPay;
    AfterPayTidy(w.workers[a.worker], a.fate);
  }

  lemma StepTidy(w: World, a: Action)
    requires (forall x | x in w.workers :: Tidy(w.workers[x])) && (a.Pay? || a.Mark? || a.Stop?)
    ensures forall x | x in Act(w, a).workers :: Tidy(Act(w, a).workers[x])
  {
    hide Act, Tidy;
    var w' := Act(w, a);
    forall x | x in w'.workers ensures Tidy(w'.workers[x]) {
      Remains(w, a, x);
      if x != a.worker {
        OthersGoOn(w, a, x);
      } else if a.Pay? {
        PayTidy(w, a);
      } else if a.Mark? {
        MarkTidy(w, a);
      }
    }
  }

  lemma Remains(w: World, a: Action, x: int)
    requires x in Act(w, a).workers && (a.Pay? || a.Mark? || a.Stop?)
    ensures x in w.workers && (a.Stop? ==> x != a.worker)
  {
    hide Bump, AfterPay;
  }

  lemma TakeTidy(w: World, a: Action)
    requires (forall x | x in w.workers :: Tidy(w.workers[x])) && (a.Receive? || a.ListFailed?)
    ensures forall x | x in Act(w, a).workers :: Tidy(Act(w, a).workers[x])
  {
    hide Act;
    if a.Receive? {
      ReceiveCases(w, a);
    } else {
      ListCases(w, a);
    }
  }

  lemma StepReleases(w: World, a: Action, id: int)
    requires Exclusive(w) && a.Mark? && id in w.rows && Act(w, a).rows[id] != w.rows[id]
    ensures a.worker in Act(w, a).workers ==> !Holds(Act(w, a).workers[a.worker], id)
  {
  }

  lemma StepExclusive(w: World, a: Action)
    requires Known(w) && Exclusive(w) && (a.Pay? || a.Mark? || a.Stop?)
    ensures Exclusive(Act(w, a))
  {
    hide Act, Tidy;
    var w' := Act(w, a);
    StepTidy(w, a);
    forall x, y, id | x in w'.workers && y in w'.workers && Holds(w'.workers[x], id) && Holds(w'.workers[y], id)
      ensures x == y
    {
      StepHolds(w, a, x, id);
      StepHolds(w, a, y, id);
    }
    forall x, id | x in w'.workers && Holds(w'.workers[x], id) && id in w'.rows ensures !w'.rows[id].status.Completed? {
      StepHolds(w, a, x, id);
      StepRows(w, a, id);
      if w'.rows[id] != w.rows[id] {
        StepIsMark(w, a, id);
        StepReleases(w, a, id);
      }
    }
    StepRepeats(w, a);
  }

  lemma StepIsMark(w: World, a: Action, id: int)
    requires (a.Pay? || a.Mark? || a.Stop?) && id in w.rows && Act(w, a).rows[id] != w.rows[id]
    ensures a.Mark?
  {
  }

  lemma StepRepeats(w: World, a: Action)
    requires Exclusive(w) && (a.Pay? || a.Mark? || a.Stop?)
    ensures Act(w, a).repeated == map[]
  {
  }

  lemma TakeExclusive(w: World, a: Action)
    requires Known(w) && Exclusive(w) && Polite(w, a) && (a.Receive? || a.ListFailed?)
    ensures Exclusive(Act(w, a))
  {
    hide Act, Tidy;
    TakeTidy(w, a);
    if a.Receive? {
      ReceiveCases(w, a);
    } else {
      ListCases(w, a);
    }
    TakeRepeats(w, a);
  }

  lemma TakeRepeats(w: World, a: Action)
    requires a.Receive? || a.ListFailed?
    ensures Act(w, a).repeated == w.repeated
  {
  }

  /** As long as no replay takes a payout that another worker has, nothing is completed twice. */
  lemma {:induction false} PoliteReplaysNeverRepeat(acts: seq<Action>)
    requires PoliteRun(acts)
    ensures Exclusive(Run(EMPTY, acts))
  {
    if acts != [] {
      hide Exclusive, Polite, Act;
      var n := |acts| - 1;
      forall i | 0 <= i < n ensures Polite(Run(EMPTY, acts[..n][..i]), acts[..n][i]) {
        assert acts[..n][..i] == acts[..i];
      }
      PoliteReplaysNeverRepeat(acts[..n]);
      RunSound(acts[..n]);
      if acts[n].Receive? || acts[n].ListFailed? {
        TakeExclusive(Run(EMPTY, acts[..n]), acts[n]);
      } else {
        StepExclusive(Run(EMPTY, acts[..n]), acts[n]);
      }
    }
  }

  /** At every moment of a run that loses no payment and whose replays do not overlap, a completed payout was paid exactly
      once, any other at most once, and only while its mark is still to be written. */
  lemma PaidOnce(acts: seq<Action>, id: int)
    requires Lossless(acts) && PoliteRun(acts)
    ensures var w := Run(EMPTY, acts);
            && Count(w.paid, id) == (if Done(w.rows, id) == 1 then 1 else Unmarked(w, id))
            && Unmarked(w, id) <= (if Done(w.rows, id) == 1 then 0 else 1)
  {
    hide Run, InFlight, Lossless, PoliteRun, Count;
    var w := Run(EMPTY, acts);
    RunSound(acts);
    TalliesExact(acts);
    CountZero(w.lost);
    PoliteReplaysNeverRepeat(acts);
    CountZero(w.repeated);
    OneFlight(w, id);
    assert Count(w.paid, id) == Done(w.rows, id) + Count(w.lost, id) + Count(w.repeated, id) + |InFlight(w.workers, id)|;
  }

  lemma OneFlight(w: World, id: int)
    requires Known(w) && Exclusive(w)
    ensures Unmarked(w, id) <= if Done(w.rows, id) == 1 then 0 else 1
  {
    var flying := InFlight(w.workers, id);
    if flying != {} {
      SomeMember(flying);
      var x :| x in flying;
      HoldsOwn(w.workers[x]);
      forall y | y in flying ensures y == x {
        HoldsOwn(w.workers[y]);
      }
      assert flying == {x};
    }
  }

  // ---- One replay at a time ----

  /** The worker at work took up a list of failed payouts, not an event. */
  predicate Replays(acts: seq<Action>, x: int) {
    acts != [] &&
    var n := |acts| - 1;
    if x in Run(EMPTY, acts[..n]).workers then Replays(acts[..n], x) else acts[n].ListFailed?
  }

  /** No replay starts while another one is at work. */
  ghost predicate OneReplay(acts: seq<Action>) {
    forall i, x | 0 <= i < |acts| && acts[i].ListFailed? && x in Run(EMPTY, acts[..i]).workers :: !Replays(acts[..i], x)
  }

  function Todo(k: Worker): seq<int> {
    if k.Listed? || k.Paid? then k.todo else []
  }

  /** A pending payout has at most one worker, and is on no list. */
  ghost predicate Owned(w: World) {
    && (forall x, y, id | x in w.workers && y in w.workers && x != y && Holds(w.workers[x], id) && Holds(w.workers[y], id) ::
          id in w.rows && !w.rows[id].status.Pending?)
    && (forall x, id | x in w.workers && id in Todo(w.workers[x]) :: id in w.rows && !w.rows[id].status.Pending?)
  }

  /** What the worker of an event holds is pending. */
  predicate OnEvent(w: World, k: Worker) {
    match k
    case Listed(todo) => todo == []
    case Paid(id, todo) => todo == [] && id in w.rows && w.rows[id].status.Pending?
    case _ => true
  }

  ghost predicate Jobs(w: World, acts: seq<Action>) {
    forall x | x in w.workers && !Replays(acts, x) :: OnEvent(w, w.workers[x])
  }

  lemma NotPendingAgain(w: World, a: Action, id: int)
    requires id in w.rows && !w.rows[id].status.Pending?
    ensures id in Act(w, a).rows && !Act(w, a).rows[id].status.Pending?
  {
    hide Act, Listing;
    match a
    case Receive(_, _, _, _) => ReceiveCases(w, a);
    case ListFailed(_, _) => ListCases(w, a);
    case Pay(x, fate) => PayFrame(w, x, fate);
    case Mark(_, _) => MarkRows(w, a, id);
    case Stop(x) => StopRows(w, x);
  }

  lemma StopRows(w: World, x: int)
    ensures Act(w, Stop(x)).rows == w.rows
  {
    hide Bump;
  }

  lemma StepTodo(w: World, a: Action, y: int, id: int)
    requires a.Pay? || a.Mark? || a.Stop?
    requires y in Act(w, a).workers && id in Todo(Act(w, a).workers[y])
    ensures y in w.workers && id in Todo(w.workers[y])
  {
    hide Bump, Count;
  }

  lemma StepOwned(w: World, a: Action)
    requires Known(w) && Owned(w) && (a.Pay? || a.Mark? || a.Stop?)
    ensures Owned(Act(w, a))
  {
    hide Act, Todo, Holds;
    var w' := Act(w, a);
    forall x, y, id | x in w'.workers && y in w'.workers && x != y && Holds(w'.workers[x], id) && Holds(w'.workers[y], id)
      ensures id in w'.rows && !w'.rows[id].status.Pending?
    {
      StepHolds(w, a, x, id);
      StepHolds(w, a, y, id);
      NotPendingAgain(w, a, id);
    }
    forall x, id | x in w'.workers && id in Todo(w'.workers[x]) ensures id in w'.rows && !w'.rows[id].status.Pending? {
      StepTodo(w, a, x, id);
      NotPendingAgain(w, a, id);
    }
  }

  /** A worker that takes on work takes a payout that is new, or some that have failed. */
  lemma TakesOn(w: World, a: Action, id: int)
    requires Known(w) && (a.Receive? || a.ListFailed?)
    ensures var w' := Act(w, a);
            && (forall x | x in w'.workers && x != a.worker :: x in w.workers && w'.workers[x] == w.workers[x])
            && (a.worker in w.workers ==> w' == w)
            && (a.worker !in w.workers && a.worker in w'.workers && Holds(w'.workers[a.worker], id) ==>
                  if a.Receive? then id !in w.rows && Todo(w'.workers[a.worker]) == []
                  else id in w'.rows && w'.rows[id].status.Failed?)
            && (id in w.rows ==> id in w'.rows && w'.rows[id] == w.rows[id])
  {
  }

  lemma TodoHeld(k: Worker, id: int)
    requires id in Todo(k)
    ensures Holds(k, id)
  {
  }

  lemma TakeOwned(w: World, a: Action)
    requires Known(w) && Owned(w) && (a.Receive? || a.ListFailed?)
    ensures Owned(Act(w, a))
  {
    hide Holds, Act, Todo;
    var w' := Act(w, a);
    forall x, y, id | x in w'.workers && y in w'.workers && x != y && Holds(w'.workers[x], id) && Holds(w'.workers[y], id)
      ensures id in w'.rows && !w'.rows[id].status.Pending?
    {
      TakesOn(w, a, id);
    }
    forall x, id | x in w'.workers && id in Todo(w'.workers[x]) ensures id in w'.rows && !w'.rows[id].status.Pending? {
      TakesOn(w, a, id);
      TodoHeld(w'.workers[x], id);
    }
  }

  lemma OwnedStep(w: World, a: Action)
    requires Known(w) && Owned(w)
    ensures Owned(Act(w, a))
  {
    hide Known, Owned, Act;
    if a.Receive? || a.ListFailed? {
      TakeOwned(w, a);
    } else {
      StepOwned(w, a);
    }
  }

  /** What another worker does leaves a pending payout in hand pending. */
  lemma PendingInHand(w: World, a: Action, x: int)
    requires Known(w) && Owned(w) && x in w.workers && a.worker != x && OnEvent(w, w.workers[x])
    ensures x in Act(w, a).workers && Act(w, a).workers[x] == w.workers[x] && OnEvent(Act(w, a), w.workers[x])
  {
    hide Act, Listing, Known;
    var k := w.workers[x];
    if k.Paid? {
      HoldsOwn(k);
    }
    if a.Receive? {
      ReceiveCases(w, a);
    } else if a.ListFailed? {
      ListCases(w, a);
    } else {
      OthersGoOn(w, a, x);
      if k.Paid? {
        StepRows(w, a, k.id);
      }
    }
  }

  lemma OwnEvent(w: World, a: Action)
    requires Known(w) && FirstAttempts(w) && a.worker in w.workers && OnEvent(w, w.workers[a.worker])
    ensures a.worker in Act(w, a).workers ==> OnEvent(Act(w, a), Act(w, a).workers[a.worker])
  {
    hide Bump, Holds;
  }

  lemma JobsStep(acts: seq<Action>)
    requires acts != []
    requires var n := |acts| - 1; Sound(Run(EMPTY, acts[..n])) && Owned(Run(EMPTY, acts[..n])) && Jobs(Run(EMPTY, acts[..n]), acts[..n])
    ensures Jobs(Run(EMPTY, acts), acts)
  {
    hide Act, Known, FirstAttempts, Accounted, Indexed, Owned, OnEvent;
    var n := |acts| - 1;
    var w, a := Run(EMPTY, acts[..n]), acts[n];
    forall x | x in Act(w, a).workers && !Replays(acts, x) ensures OnEvent(Act(w, a), Act(w, a).workers[x]) {
      if x !in w.workers {
        JoinsOnEvent(w, a, x);
      } else if x == a.worker {
        OwnEvent(w, a);
      } else {
        PendingInHand(w, a, x);
      }
    }
  }

  lemma JoinsOnEvent(w: World, a: Action, x: int)
    requires x !in w.workers && x in Act(w, a).workers && !a.ListFailed?
    ensures OnEvent(Act(w, a), Act(w, a).workers[x])
  {
    hide Bump, AfterPay;
  }

  lemma {:induction false} JobsKept(acts: seq<Action>)
    ensures Owned(Run(EMPTY, acts)) && Jobs(Run(EMPTY, acts), acts)
  {
    if acts != [] {
      hide Act, Owned, Jobs, Sound;
      var n := |acts| - 1;
      JobsKept(acts[..n]);
      RunSound(acts[..n]);
      SoundIsKnown(Run(EMPTY, acts[..n]));
      OwnedStep(Run(EMPTY, acts[..n]), acts[n]);
      JobsStep(acts);
    }
  }

  /** The workers of events never have a failed payout in hand, so a replay that starts alone takes nobody's payout. */
  lemma AloneIsPolite(w: World, a: Action)
    requires Sound(w) && forall x | x in w.workers :: OnEvent(w, w.workers[x])
    ensures Polite(w, a)
  {
  }

  /** With one replay at a time, no replay takes a payout that another worker has. */
  lemma OneReplayIsPolite(acts: seq<Action>)
    requires OneReplay(acts)
    ensures PoliteRun(acts)
  {
    hide Polite, Sound, Run, OnEvent, Owned, Replays;
    forall i | 0 <= i < |acts| ensures Polite(Run(EMPTY, acts[..i]), acts[i]) {
      var w := Run(EMPTY, acts[..i]);
      if acts[i].ListFailed? {
        JobsKept(acts[..i]);
        RunSound(acts[..i]);
        forall x | x in w.workers ensures OnEvent(w, w.workers[x]) {
          assert !Replays(acts[..i], x);
        }
        AloneIsPolite(w, acts[i]);
      } else {
        TrivialPolite(w, acts[i]);
      }
    }
  }

  lemma TrivialPolite(w: World, a: Action)
    requires !a.ListFailed?
    ensures Polite(w, a)
  {
  }

  /** With one replay at a time and no payment lost, every run that has settled paid each completed payout exactly once,
      the others never, and exactly the rewards of the completed ones in all. */
  lemma PaidExactly(acts: seq<Action>)
    requires Lossless(acts) && OneReplay(acts) && Settled(Run(EMPTY, acts))
    ensures var w := Run(EMPTY, acts);
            (forall id :: Count(w.paid, id) == Done(w.rows, id)) && Sum(Worth(w, w.paid)) == Sum(Earned(w))
  {
    hide Lossless, OneReplay, Run, InFlight, Sum, Count;
    var w := Run(EMPTY, acts);
    OneReplayIsPolite(acts);
    forall id ensures Count(w.paid, id) == Done(w.rows, id) {
      PaidOnce(acts, id);
      assert InFlight(w.workers, id) == {};
    }
    forall id | id in w.rows ensures Worth(w, w.paid)[id] == Earned(w)[id] {
      assert Count(w.paid, id) == Done(w.rows, id);
      OneOrNone(Done(w.rows, id), w.rows[id].amount);
    }
    assert Worth(w, w.paid) == Earned(w);
  }

  lemma OneOrNone(n: nat, amount: int)
    requires n <= 1
    ensures n * amount == if n == 1 then amount else 0
  {
  }
}
