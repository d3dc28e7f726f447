/** Reward payouts: one row per transaction and recipient type, paid when its event arrives and replayed when it failed,
    by any number of workers, with payments and writes that may be lost. */
module Payouts {
  import opened Common
  import opened Sums
  import Rewards

  datatype Status = Pending | Completed | Failed

  datatype Payout = Payout(tx: int, recipient: string, account: int, amount: int, status: Status, created: int)

  /** What a worker does next: pay a new payout, mark it failed, go through a list of failed payouts, or mark a payout
      completed whose payment was confirmed. */
  datatype Worker =
    | Paying(id: int)
    | Failing(id: int)
    | Listed(todo: seq<int>)
    | Paid(id: int, todo: seq<int>)

  /** The table and its unique index; paid counts the payments made for a payout, lost those that were made but whose
      confirmation or completion mark did not arrive, and repeated those that completed a completed payout again. */
  datatype World = World(
    rows: map<int, Payout>,
    index: map<(int, string), int>,
    workers: map<int, Worker>,
    paid: map<int, nat>,
    lost: map<int, nat>,
    repeated: map<int, nat>)

  const REPLAY_LIMIT: nat := 10

  function Count(m: map<int, nat>, id: int): nat {
    if id in m then m[id] else 0
  }

  function Bump(m: map<int, nat>, id: int): map<int, nat> {
    m[id := Count(m, id) + 1]
  }

  datatype Action =
    | Receive(worker: int, id: int, payout: Payout, fate: Fate)
    | ListFailed(worker: int, ids: seq<int>)
    | Pay(worker: int, fate: Fate)
    | Mark(worker: int, fate: Fate)
    | Stop(worker: int)

  /** INSERT of a pending row under its unique (transaction, recipient type). */
  function InsertPayout(w: World, id: int, p: Payout, fate: Fate): (r: (World, Option<Error>))
  {
    if fate.Dropped? then (w, Some(Failure))
    else if (p.tx, p.recipient) in w.index then (w, Some(AlreadyExists))
    else if id in w.rows then (w, Some(Failure))
    else (w.(rows := w.rows[id := p.(status := Pending)], index := w.index[(p.tx, p.recipient) := id]),
          if fate.Answered? then None else Some(Failure))
  }

  /** Some of the failed payouts, each once, at most the limit. */
  predicate Listing(w: World, ids: seq<int>) {
    && |ids| <= REPLAY_LIMIT
    && (forall i | 0 <= i < |ids| :: ids[i] in w.rows && w.rows[ids[i]].status.Failed?)
    && (forall i, j | 0 <= i < j < |ids| :: ids[i] != ids[j])
  }

  /** The worker after asking the client to pay its next payout. */
  function AfterPay(k: Worker, fate: Fate): Worker {
    match k
    case Paying(id) => if fate.Answered? then Paid(id, []) else Failing(id)
    case Listed(todo) => if todo == [] then k else if fate.Answered? then Paid(todo[0], todo[1..]) else Listed(todo[1..])
    case _ => k
  }

  /** The client is asked to pay a payout. */
  function PayStep(w: World, x: int, id: int, fate: Fate): World
    requires x in w.workers
  {
    w.(workers := w.workers[x := AfterPay(w.workers[x], fate)],
       paid := if fate.Dropped? then w.paid else Bump(w.paid, id),
       lost := if fate.Unanswered? then Bump(w.lost, id) else w.lost)
  }

  function MarkCompleted(w: World, x: int, id: int, rest: seq<int>, fate: Fate): World
    requires id in w.rows
  {
    if fate.Dropped? then w.(workers := w.workers[x := Listed(rest)], lost := Bump(w.lost, id))
    else
      w.(workers := w.workers[x := Listed(rest)],
         rows := w.rows[id := w.rows[id].(status := Completed)],
         repeated := if w.rows[id].status.Completed? then Bump(w.repeated, id) else w.repeated)
  }

  function MarkFailed(w: World, x: int, id: int, fate: Fate): World
    requires id in w.rows
  {
    w.(workers := w.workers[x := Listed([])],
       rows := if fate.Dropped? then w.rows else w.rows[id := w.rows[id].(status := Failed)])
  }

  function Received(w: World, x: int, id: int, p: Payout, fate: Fate): World {
    if x in w.workers then w
    else
      var (w', err) := InsertPayout(w, id, p, fate);
      if err.None? then w'.(workers := w'.workers[x := Paying(id)]) else w'
  }

  function Taken(w: World, x: int, ids: seq<int>): World {
    if x in w.workers || !Listing(w, ids) then w else w.(workers := w.workers[x := Listed(ids)])
  }

  function Asked(w: World, x: int, fate: Fate): World {
    if x !in w.workers then w
    else if w.workers[x].Paying? then PayStep(w, x, w.workers[x].id, fate)
    else if w.workers[x].Listed? && w.workers[x].todo != [] then PayStep(w, x, w.workers[x].todo[0], fate)
    else w
  }

  function Marked(w: World, x: int, fate: Fate): World {
    if x !in w.workers then w
    else if w.workers[x].Failing? && w.workers[x].id in w.rows then MarkFailed(w, x, w.workers[x].id, fate)
    else if w.workers[x].Paid? && w.workers[x].id in w.rows then MarkCompleted(w, x, w.workers[x].id, w.workers[x].todo, fate)
    else w
  }

  function Stopped(w: World, x: int): World {
    if x !in w.workers then w
    else
      w.(workers := w.workers - {x},
         lost := if w.workers[x].Paid? then Bump(w.lost, w.workers[x].id) else w.lost)
  }

  /** One access; steps that do not fit the state change nothing. */
  function Act(w: World, a: Action): World {
    match a
    case Receive(x, id, p, fate) => Received(w, x, id, p, fate)
    case ListFailed(x, ids) => Taken(w, x, ids)
    case Pay(x, fate) => Asked(w, x, fate)
    case Mark(x, fate) => Marked(w, x, fate)
    case Stop(x) => Stopped(w, x)
  }

  function Run(w: World, acts: seq<Action>): World {
    if acts == [] then w else Act(Run(w, acts[..|acts| - 1]), acts[|acts| - 1])
  }

  const EMPTY := World(map[], map[], map[], map[], map[], map[])

  // ---- The account of payments ----

  /** Workers that have paid this payout and not marked it yet. */
  function InFlight(workers: map<int, Worker>, id: int): set<int> {
    set x | x in workers && workers[x].Paid? && workers[x].id == id
  }

  function Done(rows: map<int, Payout>, id: int): nat {
    if id in rows && rows[id].status.Completed? then 1 else 0
  }

  /** Every payment is accounted for: it completed its payout, was lost, repeated another, or is about to be marked. */
  ghost predicate Accounted(w: World) {
    forall id {:trigger Count(w.paid, id)} ::
      Count(w.paid, id) == Done(w.rows, id) + Count(w.lost, id) + Count(w.repeated, id) + |InFlight(w.workers, id)|
  }

  predicate OnFirst(k: Worker) {
    k.Paying? || k.Failing?
  }

  /** The payouts a worker may still touch. */
  predicate Holds(k: Worker, id: int) {
    match k
    case Paying(i) => i == id
    case Failing(i) => i == id
    case Listed(todo) => id in todo
    case Paid(i, todo) => i == id || id in todo
  }

  ghost predicate Known(w: World) {
    && (forall x, id | x in w.workers && Holds(w.workers[x], id) :: id in w.rows)
    && w.paid.Keys <= w.rows.Keys && w.lost.Keys <= w.rows.Keys && w.repeated.Keys <= w.rows.Keys
  }

  /** A payout on its first payment is pending, and nobody else has it. */
  ghost predicate FirstAttempts(w: World) {
    && (forall x | x in w.workers && OnFirst(w.workers[x]) ::
          w.workers[x].id in w.rows && w.rows[w.workers[x].id].status.Pending?)
    && (forall x, y | x in w.workers && y in w.workers && x != y && OnFirst(w.workers[x]) :: !Holds(w.workers[y], w.workers[x].id))
  }

  /** One row per transaction and recipient type. */
  ghost predicate Indexed(w: World) {
    && (forall id | id in w.rows :: (w.rows[id].tx, w.rows[id].recipient) in w.index
                                    && w.index[(w.rows[id].tx, w.rows[id].recipient)] == id)
    && (forall k | k in w.index :: w.index[k] in w.rows && w.rows[w.index[k]].tx == k.0 && w.rows[w.index[k]].recipient == k.1)
  }

  ghost predicate Sound(w: World) {
    Known(w) && Accounted(w) && FirstAttempts(w) && Indexed(w)
  }

  predicate Flies(workers: map<int, Worker>, x: int, id: int) {
    x in workers && workers[x].Paid? && workers[x].id == id
  }

  lemma FlightSplit(workers: map<int, Worker>, x: int, id: int)
    ensures |InFlight(workers, id)| == |InFlight(workers - {x}, id)| + if Flies(workers, x, id) then 1 else 0
  {
    assert InFlight(workers, id) == InFlight(workers - {x}, id) + if Flies(workers, x, id) then {x} else {};
  }

  lemma FlightPut(workers: map<int, Worker>, x: int, k: Worker, id: int)
    ensures |InFlight(workers[x := k], id)|
         == |InFlight(workers, id)| - (if Flies(workers, x, id) then 1 else 0) + (if k.Paid? && k.id == id then 1 else 0)
  {
    hide InFlight;
    FlightSplit(workers, x, id);
    FlightSplit(workers[x := k], x, id);
    assert workers[x := k] - {x} == workers - {x};
  }

  lemma PayAccounted(w: World, x: int, id: int, fate: Fate)
    requires Accounted(w) && x in w.workers && !w.workers[x].Paid?
    requires AfterPay(w.workers[x], fate).Paid? <==> fate.Answered?
    requires fate.Answered? ==> AfterPay(w.workers[x], fate).id == id
    ensures Accounted(PayStep(w, x, id, fate))
  {
    hide InFlight, AfterPay;
    var w' := PayStep(w, x, id, fate);
    forall i ensures Count(w'.paid, i) == Done(w'.rows, i) + Count(w'.lost, i) + Count(w'.repeated, i) + |InFlight(w'.workers, i)| {
      FlightPut(w.workers, x, w'.workers[x], i);
      assert Count(w.paid, i) == Done(w.rows, i) + Count(w.lost, i) + Count(w.repeated, i) + |InFlight(w.workers, i)|;
    }
  }

  lemma MarkAccounted(w: World, x: int, id: int, rest: seq<int>, fate: Fate)
    requires Accounted(w) && id in w.rows && Flies(w.workers, x, id)
    ensures Accounted(MarkCompleted(w, x, id, rest, fate))
  {
    hide InFlight;
    var w' := MarkCompleted(w, x, id, rest, fate);
    forall i ensures Count(w'.paid, i) == Done(w'.rows, i) + Count(w'.lost, i) + Count(w'.repeated, i) + |InFlight(w'.workers, i)| {
      FlightPut(w.workers, x, w'.workers[x], i);
      assert Count(w.paid, i) == Done(w.rows, i) + Count(w.lost, i) + Count(w.repeated, i) + |InFlight(w.workers, i)|;
    }
  }

  lemma FailAccounted(w: World, x: int, id: int, fate: Fate)
    requires Accounted(w) && id in w.rows && w.rows[id].status.Pending? && x in w.workers && !w.workers[x].Paid?
    ensures Accounted(MarkFailed(w, x, id, fate))
  {
    hide InFlight;
    var w' := MarkFailed(w, x, id, fate);
    forall i ensures Count(w'.paid, i) == Done(w'.rows, i) + Count(w'.lost, i) + Count(w'.repeated, i) + |InFlight(w'.workers, i)| {
      FlightPut(w.workers, x, w'.workers[x], i);
      assert Count(w.paid, i) == Done(w.rows, i) + Count(w.lost, i) + Count(w.repeated, i) + |InFlight(w.workers, i)|;
    }
  }

  /** Taking on work pays nothing. */
  lemma StartAccounted(w: World, w': World, x: int, k: Worker)
    requires Accounted(w) && x !in w.workers && !k.Paid?
    requires w'.workers == w.workers || w'.workers == w.workers[x := k]
    requires w'.paid == w.paid && w'.lost == w.lost && w'.repeated == w.repeated
    requires forall id :: Done(w'.rows, id) == Done(w.rows, id)
    ensures Accounted(w')
  {
    hide InFlight, Done;
    forall i ensures Count(w'.paid, i) == Done(w'.rows, i) + Count(w'.lost, i) + Count(w'.repeated, i) + |InFlight(w'.workers, i)| {
      FlightPut(w.workers, x, k, i);
      assert Count(w.paid, i) == Done(w.rows, i) + Count(w.lost, i) + Count(w.repeated, i) + |InFlight(w.workers, i)|;
    }
  }

  /** A worker that stops loses the mark it owed. */
  lemma StopAccounted(w: World, a: Action)
    requires Accounted(w) && a.Stop?
    ensures Accounted(Act(w, a))
  {
    hide InFlight;
    var w' := Act(w, a);
    forall i ensures Count(w'.paid, i) == Done(w'.rows, i) + Count(w'.lost, i) + Count(w'.repeated, i) + |InFlight(w'.workers, i)| {
      FlightSplit(w.workers, a.worker, i);
      assert Count(w.paid, i) == Done(w.rows, i) + Count(w.lost, i) + Count(w.repeated, i) + |InFlight(w.workers, i)|;
    }
  }

  lemma PayingAccounted(w: World, a: Action)
    requires Accounted(w) && a.Pay?
    ensures Accounted(Act(w, a))
  {
    hide Accounted, InFlight, PayStep;
    var x := a.worker;
    if x in w.workers {
      var k := w.workers[x];
      if k.Paying? {
        PayAccounted(w, x, k.id, a.fate);
      } else if k.Listed? && k.todo != [] {
        PayAccounted(w, x, k.todo[0], a.fate);
      }
    }
  }

  lemma MarkingAccounted(w: World, a: Action)
    requires Accounted(w) && FirstAttempts(w) && a.Mark?
    ensures Accounted(Act(w, a))
  {
    hide Accounted, InFlight, MarkCompleted, MarkFailed, Holds;
    var x := a.worker;
    if x in w.workers {
      var k := w.workers[x];
      if k.Failing? {
        FailAccounted(w, x, k.id, a.fate);
      } else if k.Paid? && k.id in w.rows {
        MarkAccounted(w, x, k.id, k.todo, a.fate);
      }
    }
  }

  lemma ReceivedAccounted(w: World, x: int, id: int, p: Payout, fate: Fate)
    requires Accounted(w)
    ensures Accounted(Received(w, x, id, p, fate))
  {
    hide Accounted, InFlight;
    if x !in w.workers {
      StartAccounted(w, Received(w, x, id, p, fate), x, Paying(id));
    }
  }

  lemma TakenAccounted(w: World, x: int, ids: seq<int>)
    requires Accounted(w)
    ensures Accounted(Taken(w, x, ids))
  {
    hide Accounted, InFlight, Listing;
    if x !in w.workers {
      StartAccounted(w, Taken(w, x, ids), x, Listed(ids));
    }
  }

  lemma ActAccounted(w: World, a: Action)
    requires Accounted(w) && FirstAttempts(w)
    ensures Accounted(Act(w, a))
  {
    hide Received, Taken, Asked, Marked, Stopped, Accounted, FirstAttempts;
    match a
    case Receive(x, id, p, fate) => ReceivedAccounted(w, x, id, p, fate);
    case ListFailed(x, ids) => TakenAccounted(w, x, ids);
    case Pay(_, _) => PayingAccounted(w, a);
    case Mark(_, _) => MarkingAccounted(w, a);
    case Stop(_) => StopAccounted(w, a);
  }

  // ---- Structure ----

  lemma AfterPayHolds(k: Worker, fate: Fate, id: int)
    requires Holds(AfterPay(k, fate), id)
    ensures Holds(k, id)
    ensures OnFirst(AfterPay(k, fate)) ==> OnFirst(k) && AfterPay(k, fate).id == k.id
  {
  }

  lemma AskedWorkers(w: World, x: int, fate: Fate)
    ensures Asked(w, x, fate).workers == w.workers
         || (x in w.workers && Asked(w, x, fate).workers == w.workers[x := AfterPay(w.workers[x], fate)])
  {
    hide Bump, AfterPay;
  }

  lemma AskHolds(w: World, x: int, fate: Fate, y: int, id: int)
    requires y in Asked(w, x, fate).workers && Holds(Asked(w, x, fate).workers[y], id)
    ensures y in w.workers && Holds(w.workers[y], id)
    ensures OnFirst(Asked(w, x, fate).workers[y]) ==> OnFirst(w.workers[y]) && Asked(w, x, fate).workers[y].id == w.workers[y].id
  {
    hide Holds, AfterPay, Asked;
    AskedWorkers(w, x, fate);
    if Asked(w, x, fate).workers != w.workers && y == x {
      AfterPayHolds(w.workers[x], fate, id);
    }
  }

  lemma MarkHolds(w: World, x: int, fate: Fate, y: int, id: int)
    requires y in Marked(w, x, fate).workers && Holds(Marked(w, x, fate).workers[y], id)
    ensures y in w.workers && Holds(w.workers[y], id)
    ensures OnFirst(Marked(w, x, fate).workers[y]) ==> OnFirst(w.workers[y]) && Marked(w, x, fate).workers[y].id == w.workers[y].id
  {
    hide Bump;
  }

  /** A worker that goes on holds no payout it did not hold before. */
  lemma StepHolds(w: World, a: Action, y: int, id: int)
    requires a.Pay? || a.Mark? || a.Stop?
    requires y in Act(w, a).workers && Holds(Act(w, a).workers[y], id)
    ensures y in w.workers && Holds(w.workers[y], id)
    ensures OnFirst(Act(w, a).workers[y]) ==> OnFirst(w.workers[y]) && Act(w, a).workers[y].id == w.workers[y].id
  {
    hide Asked, Marked, Holds;
    match a
    case Pay(x, fate) => AskHolds(w, x, fate, y, id);
    case Mark(x, fate) => MarkHolds(w, x, fate, y, id);
    case Stop(_) =>
  }

  /** A write to a payout changes its status only, and is by a worker that held it and then goes on. */
  lemma StepRows(w: World, a: Action, id: int)
    requires (a.Pay? || a.Mark? || a.Stop?) && id in w.rows
    ensures id in Act(w, a).rows && Act(w, a).rows[id] == w.rows[id].(status := Act(w, a).rows[id].status)
    ensures Act(w, a).rows[id] != w.rows[id] ==>
      a.worker in w.workers && Holds(w.workers[a.worker], id) && Act(w, a).workers[a.worker].Listed?
  {
    hide Count;
    if a.Mark? && a.worker in w.workers {
      var k := w.workers[a.worker];
      assert k.Paid? || k.Failing? ==> Holds(k, k.id);
    } else {
      assert Act(w, a).rows == w.rows;
    }
  }

  lemma StepKnown(w: World, a: Action)
    requires Known(w) && (a.Pay? || a.Mark? || a.Stop?)
    ensures Known(Act(w, a))
  {
    hide Holds;
    var w' := Act(w, a);
    forall y, id | y in w'.workers && Holds(w'.workers[y], id) ensures id in w'.rows {
      StepHolds(w, a, y, id);
    }
    StepCounts(w, a);
  }

  lemma StepCounts(w: World, a: Action)
    requires Known(w) && (a.Pay? || a.Mark? || a.Stop?)
    ensures var w' := Act(w, a);
            w'.rows.Keys == w.rows.Keys && w'.paid.Keys <= w.rows.Keys && w'.lost.Keys <= w.rows.Keys && w'.repeated.Keys <= w.rows.Keys
  {
    if a.worker in w.workers {
      var k := w.workers[a.worker];
      assert k.Paid? ==> Holds(k, k.id);
      assert k.Paying? ==> Holds(k, k.id);
      assert k.Listed? && k.todo != [] ==> Holds(k, k.todo[0]);
    }
  }

  lemma StepFirst(w: World, a: Action)
    requires Known(w) && FirstAttempts(w) && (a.Pay? || a.Mark? || a.Stop?)
    ensures FirstAttempts(Act(w, a))
  {
    hide Act;
    var w' := Act(w, a);
    forall x | x in w'.workers && OnFirst(w'.workers[x])
      ensures w'.workers[x].id in w'.rows && w'.rows[w'.workers[x].id].status.Pending?
      ensures forall y | y in w'.workers && y != x :: !Holds(w'.workers[y], w'.workers[x].id)
    {
      var id := w'.workers[x].id;
      StepHolds(w, a, x, id);
      StepRows(w, a, id);
      forall y | y in w'.workers && y != x ensures !Holds(w'.workers[y], id) {
        if Holds(w'.workers[y], id) {
          StepHolds(w, a, y, id);
        }
      }
    }
  }

  lemma ReceiveSound(w: World, a: Action)
    requires Known(w) && FirstAttempts(w) && Indexed(w) && a.Receive?
    ensures Known(Act(w, a)) && FirstAttempts(Act(w, a)) && Indexed(Act(w, a))
  {
    hide Act, Known, FirstAttempts, Indexed;
    var (w', err) := InsertPayout(w, a.id, a.payout, a.fate);
    ReceiveStep(w, a);
    InsertIndexed(w, a.id, a.payout, a.fate);
    InsertKnown(w, a.id, a.payout, a.fate);
    if err.None? && a.worker !in w.workers {
      TakeOn(w, w', a.worker, a.id);
    }
  }

  lemma ReceiveStep(w: World, a: Action)
    requires a.Receive?
    ensures var (w', err) := InsertPayout(w, a.id, a.payout, a.fate);
            Act(w, a) == if a.worker in w.workers then w
                         else if err.None? then w'.(workers := w'.workers[a.worker := Paying(a.id)]) else w'
    ensures var (w', err) := InsertPayout(w, a.id, a.payout, a.fate);
            && w'.workers == w.workers
            && (err.None? ==> a.id !in w.rows && a.id in w'.rows && w'.rows[a.id].status.Pending?)
  {
  }

  lemma InsertIndexed(w: World, id: int, p: Payout, fate: Fate)
    requires Indexed(w)
    ensures Indexed(InsertPayout(w, id, p, fate).0)
    ensures forall workers :: Indexed(InsertPayout(w, id, p, fate).0.(workers := workers))
  {
  }

  lemma InsertKnown(w: World, id: int, p: Payout, fate: Fate)
    requires Known(w) && FirstAttempts(w)
    ensures Known(InsertPayout(w, id, p, fate).0) && FirstAttempts(InsertPayout(w, id, p, fate).0)
  {
  }

  /** A new payout is held by nobody yet. */
  lemma TakeOn(w: World, w': World, x: int, id: int)
    requires Known(w) && Known(w') && FirstAttempts(w') && w'.workers == w.workers && x !in w.workers
    requires id !in w.rows && id in w'.rows && w'.rows[id].status.Pending?
    ensures Known(w'.(workers := w'.workers[x := Paying(id)])) && FirstAttempts(w'.(workers := w'.workers[x := Paying(id)]))
  {
  }

  lemma ListSound(w: World, a: Action)
    requires Known(w) && FirstAttempts(w) && Indexed(w) && a.ListFailed?
    ensures Known(Act(w, a)) && FirstAttempts(Act(w, a)) && Indexed(Act(w, a))
  {
    assert forall id | id in a.ids :: Listing(w, a.ids) ==> id in w.rows && w.rows[id].status.Failed?;
  }

  lemma StepIndexed(w: World, a: Action)
    requires Known(w) && Indexed(w) && (a.Pay? || a.Mark? || a.Stop?)
    ensures Indexed(Act(w, a))
  {
    hide Act, Known;
    var w' := Act(w, a);
    StepIndex(w, a);
    forall id | id in w.rows ensures id in w'.rows && w'.rows[id].tx == w.rows[id].tx && w'.rows[id].recipient == w.rows[id].recipient {
      StepRows(w, a, id);
    }
    StepCounts(w, a);
  }

  lemma StepIndex(w: World, a: Action)
    requires a.Pay? || a.Mark? || a.Stop?
    ensures Act(w, a).index == w.index
  {
  }

  lemma ActSound(w: World, a: Action)
    requires Sound(w)
    ensures Sound(Act(w, a))
  {
    hide Act, Known, Accounted, FirstAttempts, Indexed;
    ActAccounted(w, a);
    if a.Receive? {
      ReceiveSound(w, a);
    } else if a.ListFailed? {
      ListSound(w, a);
    } else {
      StepKnown(w, a);
      StepFirst(w, a);
      StepIndexed(w, a);
    }
  }

  // ---- What every run keeps ----

  lemma EmptyIsSound()
    ensures Sound(EMPTY)
  {
  }

  lemma {:induction false} RunSound(acts: seq<Action>)
    ensures Sound(Run(EMPTY, acts))
  {
    if acts == [] {
      EmptyIsSound();
    } else {
      hide Sound, Act;
      RunSound(acts[..|acts| - 1]);
      ActSound(Run(EMPTY, acts[..|acts| - 1]), acts[|acts| - 1]);
    }
  }

  /** A redelivered event adds no row and pays nothing. */
  lemma DuplicateAddsNothing(w: World, x: int, id: int, p: Payout, fate: Fate)
    requires (p.tx, p.recipient) in w.index
    ensures Act(w, Receive(x, id, p, fate)) == w
  {
  }

  // ---- The use case ----

  /** What the outside world does to one event, or to each payout of a replay. */
  datatype Effects = Effects(insert: Fate, pay: int -> Fate, mark: int -> Fate)

  function PayAndMark(w: World, x: int, id: int, fx: Effects): World {
    var paying := Act(w, Pay(x, fx.pay(id)));
    if x in paying.workers && !paying.workers[x].Listed? then Act(paying, Mark(x, fx.mark(id))) else paying
  }

  function Processed(w: World, x: int, id: int, p: Payout, fx: Effects): World {
    var received := Act(w, Receive(x, id, p, fx.insert));
    if x !in received.workers then received else Act(PayAndMark(received, x, id, fx), Stop(x))
  }

  function ReplayedAll(w: World, x: int, ids: seq<int>, fx: Effects): World {
    if ids == [] then w else PayAndMark(ReplayedAll(w, x, ids[..|ids| - 1], fx), x, ids[|ids| - 1], fx)
  }

  lemma PayAndMarkSound(w: World, x: int, id: int, fx: Effects)
    requires Sound(w)
    ensures Sound(PayAndMark(w, x, id, fx))
  {
    hide Sound, Act;
    ActSound(w, Pay(x, fx.pay(id)));
    ActSound(Act(w, Pay(x, fx.pay(id))), Mark(x, fx.mark(id)));
  }

  /** Both jobs are made of steps, so they keep what steps keep. */
  lemma ProcessedSound(w: World, x: int, id: int, p: Payout, fx: Effects)
    requires Sound(w)
    ensures Sound(Processed(w, x, id, p, fx))
  {
    hide Sound, Act, PayAndMark;
    var received := Act(w, Receive(x, id, p, fx.insert));
    ActSound(w, Receive(x, id, p, fx.insert));
    PayAndMarkSound(received, x, id, fx);
    ActSound(PayAndMark(received, x, id, fx), Stop(x));
  }

  lemma {:induction false} ReplayedSound(w: World, x: int, ids: seq<int>, fx: Effects)
    requires Sound(w)
    ensures Sound(ReplayedAll(w, x, ids, fx))
  {
    hide Sound, PayAndMark;
    if ids != [] {
      ReplayedSound(w, x, ids[..|ids| - 1], fx);
      PayAndMarkSound(ReplayedAll(w, x, ids[..|ids| - 1], fx), x, ids[|ids| - 1], fx);
    }
  }

  /** The failed payouts, newest first, at most the limit: none left out is newer than one taken. */
  ghost predicate Newest(rows: map<int, Payout>, ids: seq<int>) {
    && (forall i, j | 0 <= i < j < |ids| && ids[i] in rows && ids[j] in rows :: rows[ids[i]].created >= rows[ids[j]].created)
    && (forall id, i | id in rows && rows[id].status.Failed? && id !in ids && 0 <= i < |ids| && ids[i] in rows ::
          rows[ids[i]].created >= rows[id].created)
    && (|ids| < REPLAY_LIMIT ==> forall id | id in rows && rows[id].status.Failed? :: id in ids)
  }

  lemma StopIdle(w: World, x: int)
    requires x in w.workers && w.workers[x].Listed?
    ensures Act(w, Stop(x)) == w.(workers := w.workers - {x})
  {
  }

  lemma PayIs(w: World, x: int, fate: Fate)
    requires x in w.workers
    ensures w.workers[x].Paying? ==> Act(w, Pay(x, fate)) == PayStep(w, x, w.workers[x].id, fate)
    ensures w.workers[x].Listed? && w.workers[x].todo != [] ==>
      Act(w, Pay(x, fate)) == PayStep(w, x, w.workers[x].todo[0], fate)
  {
  }

  lemma PayFrame(w: World, x: int, fate: Fate)
    ensures var w' := Act(w, Pay(x, fate)); w'.rows == w.rows && w'.index == w.index && w'.repeated == w.repeated
  {
    hide Received, Taken, Marked, Stopped, Bump;
  }

  lemma ListingTaken(w: World, x: int, ids: seq<int>)
    requires x !in w.workers && Listing(w, ids)
    ensures Act(w, ListFailed(x, ids)) == w.(workers := w.workers[x := Listed(ids)]) && forall id | id in ids :: id in w.rows
  {
  }

  class RewardUsecase {
    var rows: map<int, Payout>
    var index: map<(int, string), int>
    var active: Option<Rewards.Rule>
    ghost var workers: map<int, Worker>
    ghost var paid: map<int, nat>
    ghost var lost: map<int, nat>
    ghost var repeated: map<int, nat>

    ghost function State(): World
      reads this
    {
      World(rows, index, workers, paid, lost, repeated)
    }

    constructor ()
      ensures State() == EMPTY && active == None
    {
      rows, index, active := map[], map[], None;
      workers, paid, lost, repeated := map[], map[], map[], map[];
    }

    method Insert(id: int, p: Payout, fate: Fate, ghost x: int) returns (err: Option<Error>)
      requires x !in workers
      modifies this`rows, this`index, this`workers
      ensures State() == Act(old(State()), Receive(x, id, p, fate))
      ensures err == InsertPayout(old(State()), id, p, fate).1
      ensures if err.None? then x in workers && workers[x] == Paying(id) && id in rows else x !in workers
      ensures err == Some(AlreadyExists) ==> State() == old(State())
      ensures (p.tx, p.recipient) !in old(index) && id !in old(rows) ==> err == if fate.Answered? then None else Some(Failure)
    {
      if fate.Dropped? {
        return Some(Failure);
      }
      if (p.tx, p.recipient) in index {
        return Some(AlreadyExists);
      }
      if id in rows {
        return Some(Failure);
      }
      rows := rows[id := p.(status := Pending)];
      index := index[(p.tx, p.recipient) := id];
      if !fate.Answered? {
        return Some(Failure);
      }
      workers := workers[x := Paying(id)];
      return None;
    }

    /** The client call; the payment is made unless the call never ran. */
    ghost method Pay(x: int, fate: Fate)
      modifies this`workers, this`paid, this`lost
      ensures State() == Act(old(State()), Action.Pay(x, fate))
      ensures x in old(workers) && old(workers)[x].Paying? ==>
        x in workers && workers[x] == if fate.Answered? then Paid(old(workers)[x].id, []) else Failing(old(workers)[x].id)
      ensures x in old(workers) && old(workers)[x].Listed? && old(workers)[x].todo != [] ==>
        var todo := old(workers)[x].todo;
        x in workers && workers[x] == if fate.Answered? then Paid(todo[0], todo[1..]) else Listed(todo[1..])
    {
      hide Act;
      PayFrame(State(), x, fate);
      if x in workers {
        PayIs(State(), x, fate);
      }
      var w := Act(State(), Action.Pay(x, fate));
      workers, paid, lost := w.workers, w.paid, w.lost;
    }

    method SetStatus(id: int, status: Status, fate: Fate, ghost x: int)
      requires id in rows && x in workers
      requires status.Completed? ==> workers[x].Paid? && workers[x].id == id
      requires status.Failed? ==> workers[x].Failing? && workers[x].id == id
      requires !status.Pending?
      modifies this`rows, this`workers, this`lost, this`repeated
      ensures State() == Act(old(State()), Mark(x, fate))
      ensures rows.Keys == old(rows).Keys && x in workers
      ensures workers[x] == Listed(if status.Failed? then [] else old(workers)[x].todo)
    {
      ghost var w := Act(State(), Mark(x, fate));
      if !fate.Dropped? {
        rows := rows[id := rows[id].(status := status)];
      }
      workers, lost, repeated := w.workers, w.lost, w.repeated;
    }

    /** One payment event: the newest active rule decides the reward, and its payout is inserted, paid and marked. An
        event without a rule, without a reward or seen before does nothing. */
    method ProcessPaymentCompletedEvent(tx: int, recipientType: string, account: int, amount: int, roll: int, id: int, created: int,
                                        fx: Effects, ghost x: int) returns (err: Option<Error>)
      requires x !in workers
      modifies this
      ensures active == old(active)
      ensures active.None? || !Rewards.Calculate(amount, active.value, roll).eligible ==> State() == old(State()) && err == None
      ensures active.Some? && Rewards.Calculate(amount, active.value, roll).eligible ==>
        var recipient := if recipientType == "merchant" then "merchant" else "user";
        var p := Payout(tx, recipient, account, Rewards.Calculate(amount, active.value, roll).reward, Pending, created);
        && State() == Processed(old(State()), x, id, p, fx)
        && (InsertPayout(old(State()), id, p, fx.insert).1 == Some(AlreadyExists) ==> err == None && State() == old(State()))
        && ((tx, recipient) !in old(index) && id !in old(rows) ==>
              (err == None <==> fx.insert.Answered? && fx.pay(id).Answered? && fx.mark(id).Answered?))
    {
      hide Act, Rewards.Calculate, InsertPayout;
      if active.None? {
        return None;
      }
      var reward := Rewards.Calculate(amount, active.value, roll);
      if !reward.eligible {
        return None;
      }
      var recipient := "user";
      if recipientType == "merchant" {
        recipient := "merchant";
      }
      var failure := Insert(id, Payout(tx, recipient, account, reward.reward, Pending, created), fx.insert, x);
      if failure.Some? {
        return if failure.value.AlreadyExists? then None else failure;
      }
      Pay(x, fx.pay(id));
      if !fx.pay(id).Answered? {
        SetStatus(id, Failed, fx.mark(id), x);
        err := Some(Failure);
      } else {
        SetStatus(id, Completed, fx.mark(id), x);
        err := if fx.mark(id).Answered? then None else Some(Failure);
      }
      StopIdle(State(), x);
      workers := workers - {x};
    }

    /** The newest failed payouts, selected one by one. */
    method ListFailedPayouts() returns (ids: seq<int>)
      ensures Listing(State(), ids) && Newest(rows, ids)
    {
      ids := [];
      var left := set id | id in rows && rows[id].status.Failed?;
      while left != {} && |ids| < REPLAY_LIMIT
        invariant |ids| <= REPLAY_LIMIT
        invariant forall id :: id in left <==> id in rows && rows[id].status.Failed? && id !in ids
        invariant forall i | 0 <= i < |ids| :: ids[i] in rows && rows[ids[i]].status.Failed?
        invariant forall i, j | 0 <= i < j < |ids| :: ids[i] != ids[j] && rows[ids[i]].created >= rows[ids[j]].created
        invariant forall i, id | 0 <= i < |ids| && id in left :: rows[ids[i]].created >= rows[id].created
        decreases |left|
      {
        SomeMember(left);
        var newest :| newest in left;
        var rest := left - {newest};
        while rest != {}
          invariant newest in left && rest <= left
          invariant forall id | id in left && id !in rest :: rows[newest].created >= rows[id].created
          decreases |rest|
        {
          SomeMember(rest);
          var id :| id in rest;
          if rows[id].created > rows[newest].created {
            newest := id;
          }
          rest := rest - {id};
        }
        ids := ids + [newest];
        left := left - {newest};
      }
    }

    method ReplayOne(id: int, fx: Effects, ghost x: int)
      requires id in rows && x in workers && workers[x].Listed? && workers[x].todo != [] && workers[x].todo[0] == id
      modifies this
      ensures State() == PayAndMark(old(State()), x, id, fx)
      ensures rows.Keys == old(rows).Keys && x in workers && workers[x] == Listed(old(workers)[x].todo[1..])
    {
      hide Act;
      Pay(x, fx.pay(id));
      if fx.pay(id).Answered? {
        SetStatus(id, Completed, fx.mark(id), x);
      }
    }

    /** Every payout of the list is paid again; one whose payment fails is left failed, and a lost mark is ignored. */
    method ReplayFailed(listed: bool, fx: Effects, ghost x: int) returns (err: Option<Error>, ghost taken: seq<int>)
      requires x !in workers
      modifies this
      ensures !listed ==> State() == old(State()) && err == Some(Failure)
      ensures listed ==>
        && err == None && Listing(old(State()), taken) && Newest(old(rows), taken)
        && State() == Act(ReplayedAll(Act(old(State()), ListFailed(x, taken)), x, taken, fx), Stop(x))
    {
      hide Act, Listing, Newest, PayAndMark;
      taken := [];
      if !listed {
        return Some(Failure), taken;
      }
      var payouts := ListFailedPayouts();
      taken := payouts;
      ListingTaken(State(), x, payouts);
      workers := workers[x := Listed(payouts)];
      ghost var start := State();
      for i := 0 to |payouts|
        invariant rows.Keys == start.rows.Keys && (forall k | k in payouts :: k in rows)
        invariant x in workers && workers[x] == Listed(payouts[i..])
        invariant State() == ReplayedAll(start, x, payouts[..i], fx)
      {
        assert payouts[..i + 1][..i] == payouts[..i];
        assert payouts[i..][1..] == payouts[i + 1..];
        ReplayOne(payouts[i], fx, x);
      }
      assert payouts[..|payouts|] == payouts;
      StopIdle(State(), x);
      workers := workers - {x};
      err := None;
    }
  }
}
