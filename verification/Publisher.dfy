/** The outbox publisher: each tick publishes the oldest unpublished events, at most one batch of them. */
module Publisher {
  import opened Common
  import Outbox

  datatype Entry = Entry(created: int, published: bool)

  datatype World = World(rows: map<int, Entry>, topic: seq<int>)

  /** What becomes of the events of a batch: the publish, and the write that marks the event. */
  datatype Luck = Luck(publish: int -> Fate, mark: int -> Fate)

  // ---- The order of the outbox ----

  ghost predicate Distinct(q: seq<int>) {
    forall i, j | 0 <= i < j < |q| :: q[i] != q[j]
  }

  ghost predicate Ordered(rows: map<int, Entry>, q: seq<int>) {
    && (forall e | e in q :: e in rows)
    && (forall i, j | 0 <= i < j < |q| :: q[i] != q[j] && rows[q[i]].created <= rows[q[j]].created)
  }

  /** The unpublished events, oldest first. */
  ghost predicate IsQueue(rows: map<int, Entry>, q: seq<int>) {
    Ordered(rows, q) && forall e :: e in q <==> e in rows && !rows[e].published
  }

  function Head(q: seq<int>): (h: seq<int>)
    ensures |h| <= Outbox.BATCH && h <= q
  {
    if |q| <= Outbox.BATCH then q else q[..Outbox.BATCH]
  }

  function Rest(q: seq<int>): (r: seq<int>)
    ensures q == Head(q) + r
  {
    if |q| <= Outbox.BATCH then [] else q[Outbox.BATCH..]
  }

  // ---- One tick ----

  /** The event leaves the queue: it was published, and marked. */
  predicate Leaves(luck: Luck, e: int) {
    luck.publish(e).Answered? && !luck.mark(e).Dropped?
  }

  function Kept(luck: Luck, es: seq<int>): seq<int> {
    if es == [] then []
    else
      var before, e := Kept(luck, es[..|es| - 1]), es[|es| - 1];
      if Leaves(luck, e) then before else before + [e]
  }

  /** What reaches the topic, also when its acknowledgement is lost. */
  function Said(luck: Luck, es: seq<int>): seq<int> {
    if es == [] then []
    else
      var before, e := Said(luck, es[..|es| - 1]), es[|es| - 1];
      if luck.publish(e).Dropped? then before else before + [e]
  }

  function Marked(rows: map<int, Entry>, luck: Luck, es: seq<int>): map<int, Entry> {
    map e | e in rows :: if e in es && Leaves(luck, e) then rows[e].(published := true) else rows[e]
  }

  function QueueAfter(luck: Luck, q: seq<int>): seq<int> {
    Kept(luck, Head(q)) + Rest(q)
  }

  function Tick(w: World, luck: Luck, q: seq<int>): World {
    World(Marked(w.rows, luck, Head(q)), w.topic + Said(luck, Head(q)))
  }

  lemma {:induction false} KeptMembers(luck: Luck, es: seq<int>)
    ensures forall e :: e in Kept(luck, es) <==> e in es && !Leaves(luck, e)
    ensures forall i | 0 <= i < |Kept(luck, es)| :: Kept(luck, es)[i] in es
    ensures |Kept(luck, es)| <= |es|
  {
    if es != [] {
      KeptMembers(luck, es[..|es| - 1]);
      assert es == es[..|es| - 1] + [es[|es| - 1]];
    }
  }

  lemma {:induction false} SaidMembers(luck: Luck, es: seq<int>)
    ensures forall e :: e in Said(luck, es) <==> e in es && !luck.publish(e).Dropped?
  {
    if es != [] {
      SaidMembers(luck, es[..|es| - 1]);
      assert es == es[..|es| - 1] + [es[|es| - 1]];
    }
  }

  lemma {:induction false} KeptOrdered(rows: map<int, Entry>, luck: Luck, es: seq<int>)
    requires Ordered(rows, es)
    ensures Ordered(rows, Kept(luck, es))
  {
    if es != [] {
      var init, e := es[..|es| - 1], es[|es| - 1];
      KeptOrdered(rows, luck, init);
      KeptMembers(luck, init);
      forall x | x in init ensures x != e && rows[x].created <= rows[e].created {
        var i :| 0 <= i < |init| && init[i] == x;
        assert es[i] == x;
      }
    }
  }

  lemma OrderedSum(rows: map<int, Entry>, h: seq<int>, r: seq<int>, k: seq<int>)
    requires Ordered(rows, h + r) && Ordered(rows, k) && forall i | 0 <= i < |k| :: k[i] in h
    ensures Ordered(rows, k + r)
  {
    forall i, j | 0 <= i < |k| && 0 <= j < |r| ensures k[i] != r[j] && rows[k[i]].created <= rows[r[j]].created {
      var l :| 0 <= l < |h| && h[l] == k[i];
      assert (h + r)[l] == k[i] && (h + r)[|h| + j] == r[j];
    }
    assert forall j | 0 <= j < |r| :: r[j] == (h + r)[|h| + j];
  }

  lemma OrderedPart(rows: map<int, Entry>, h: seq<int>, r: seq<int>)
    requires Ordered(rows, h + r)
    ensures Ordered(rows, h)
  {
    assert forall i | 0 <= i < |h| :: h[i] == (h + r)[i];
  }

  lemma SameOrdered(rows: map<int, Entry>, luck: Luck, es: seq<int>, q: seq<int>)
    requires Ordered(rows, q)
    ensures Ordered(Marked(rows, luck, es), q)
  {
  }

  /** After a tick the queue is what stuck of the batch, in its order, and then everything behind it. */
  lemma TickQueue(w: World, luck: Luck, q: seq<int>)
    requires IsQueue(w.rows, q)
    ensures IsQueue(Tick(w, luck, q).rows, QueueAfter(luck, q))
  {
    hide Head, Rest, Kept;
    var h, r := Head(q), Rest(q);
    OrderedPart(w.rows, h, r);
    KeptOrdered(w.rows, luck, h);
    KeptMembers(luck, h);
    OrderedSum(w.rows, h, r, Kept(luck, h));
    SameOrdered(w.rows, luck, h, QueueAfter(luck, q));
    TickMembers(luck, q);
    assert forall e | e in h :: e in q;
  }

  lemma TickMembers(luck: Luck, q: seq<int>)
    requires forall i, j | 0 <= i < j < |q| :: q[i] != q[j]
    ensures forall e :: e in QueueAfter(luck, q) <==> e in q && !(e in Head(q) && Leaves(luck, e))
  {
    var h, r := Head(q), Rest(q);
    KeptMembers(luck, h);
    forall e | e in r ensures e !in h {
      var i :| 0 <= i < |r| && r[i] == e;
      assert q[|h| + i] == e;
    }
    assert forall e :: e in q <==> e in h || e in r;
  }

  /** With distinct creation times there is one queue. */
  lemma {:induction false} QueueIsUnique(rows: map<int, Entry>, p: seq<int>, q: seq<int>)
    requires IsQueue(rows, p) && IsQueue(rows, q)
    requires forall d, e | d in rows && e in rows && rows[d].created == rows[e].created :: d == e
    ensures p == q
  {
    SameOrder(rows, p, q);
  }

  lemma HeadsAgree(rows: map<int, Entry>, p: seq<int>, q: seq<int>)
    requires Ordered(rows, p) && Ordered(rows, q) && p != [] && q != [] && q[0] in p && p[0] in q
    requires forall d, e | d in rows && e in rows && rows[d].created == rows[e].created :: d == e
    ensures p[0] == q[0]
  {
  }

  lemma FirstIsMember(p: seq<int>, q: seq<int>)
    requires forall e | e in p :: e in q
    ensures p != [] ==> q != [] && p[0] in q
  {
    if p != [] {
      var e := p[0];
      assert e in p && e in q;
    }
  }

  lemma TailMembers(rows: map<int, Entry>, p: seq<int>)
    requires p != [] && Ordered(rows, p)
    ensures Ordered(rows, p[1..]) && forall e :: e in p[1..] <==> e in p && e != p[0]
  {
  }

  lemma {:induction false} SameOrder(rows: map<int, Entry>, p: seq<int>, q: seq<int>)
    requires Ordered(rows, p) && Ordered(rows, q) && forall e :: e in p <==> e in q
    requires forall d, e | d in rows && e in rows && rows[d].created == rows[e].created :: d == e
    ensures p == q
  {
    hide Ordered;
    FirstIsMember(p, q);
    FirstIsMember(q, p);
    if p != [] && q != [] {
      HeadsAgree(rows, p, q);
      TailMembers(rows, p);
      TailMembers(rows, q);
      SameOrder(rows, p[1..], q[1..]);
      assert p == [p[0]] + p[1..] && q == [q[0]] + q[1..];
    }
  }

  // ---- Any number of ticks ----

  /** Ticks with whatever luck each of them has; the pair is the database and its queue. */
  function Ticks(w: World, q: seq<int>, lucks: seq<Luck>): (World, seq<int>) {
    if lucks == [] then (w, q)
    else
      var (w', q') := Ticks(w, q, lucks[..|lucks| - 1]);
      (Tick(w', lucks[|lucks| - 1], q'), QueueAfter(lucks[|lucks| - 1], q'))
  }

  /** What one tick does to the queue and the topic. */
  lemma TickLosesNothing(w: World, luck: Luck, q: seq<int>)
    requires IsQueue(w.rows, q)
    ensures var (w', q') := (Tick(w, luck, q), QueueAfter(luck, q));
            && IsQueue(w'.rows, q') && w'.rows.Keys == w.rows.Keys
            && |q'| <= |q| && (forall e | e in q' :: e in q)
            && w'.topic == w.topic + Said(luck, Head(q))
            && (forall e | e in q && e !in q' :: e in Said(luck, Head(q)))
            && (forall e | e in Said(luck, Head(q)) :: e in q)
  {
    TickQueue(w, luck, q);
    TickMembers(luck, q);
    KeptMembers(luck, Head(q));
    SaidMembers(luck, Head(q));
  }

  /** Under any failures: the queue stays the unpublished events in order, it never grows and nothing joins it, and
      what left it is on the topic. */
  lemma {:induction false} NothingIsLost(w: World, q: seq<int>, lucks: seq<Luck>)
    requires IsQueue(w.rows, q)
    ensures var (w', q') := Ticks(w, q, lucks);
            && IsQueue(w'.rows, q') && w'.rows.Keys == w.rows.Keys
            && |q'| <= |q| && (forall e | e in q' :: e in q)
            && w.topic <= w'.topic
            && (forall e | e in q && e !in q' :: e in w'.topic[|w.topic|..])
            && (forall e | e in w'.topic[|w.topic|..] :: e in q)
  {
    hide IsQueue, Tick, QueueAfter, Said, Head;
    if lucks != [] {
      var luck := lucks[|lucks| - 1];
      NothingIsLost(w, q, lucks[..|lucks| - 1]);
      var (w1, q1) := Ticks(w, q, lucks[..|lucks| - 1]);
      TickLosesNothing(w1, luck, q1);
      assert (w1.topic + Said(luck, Head(q1)))[|w.topic|..] == w1.topic[|w.topic|..] + Said(luck, Head(q1));
    }
  }

  ghost predicate Healthy(luck: Luck) {
    forall e :: luck.publish(e).Answered? && luck.mark(e).Answered?
  }

  lemma {:induction false} HealthyKeepsNone(luck: Luck, es: seq<int>)
    requires Healthy(luck)
    ensures Kept(luck, es) == [] && Said(luck, es) == es
  {
    if es != [] {
      HealthyKeepsNone(luck, es[..|es| - 1]);
      assert es == es[..|es| - 1] + [es[|es| - 1]];
    }
  }

  function Min(a: int, b: int): int {
    if a <= b then a else b
  }

  /** The batch after n events are gone. */
  lemma NextBatch(q: seq<int>, m: nat, n: nat)
    requires m <= |q| && n == Min(m + Outbox.BATCH, |q|)
    ensures Head(q[m..]) == q[m..n] && Rest(q[m..]) == q[n..] && q[..m] + q[m..n] == q[..n]
  {
  }

  /** Without failures each tick publishes the next batch, so n events are on the topic in their order after exactly
      the ticks it takes to count n in batches, and not before. */
  lemma {:induction false} DrainedInOrder(w: World, q: seq<int>, lucks: seq<Luck>)
    requires IsQueue(w.rows, q) && forall l | l in lucks :: Healthy(l)
    ensures var (w', q') := Ticks(w, q, lucks);
            var n := Min(Outbox.BATCH * |lucks|, |q|);
            && IsQueue(w'.rows, q') && q' == q[n..] && w'.topic == w.topic + q[..n]
            && (q' == [] <==> |lucks| >= (|q| + 19) / 20)
  {
    hide Head, Rest, Kept, Said, Healthy, Marked, IsQueue;
    NothingIsLost(w, q, lucks);
    if lucks != [] {
      var init, luck := lucks[..|lucks| - 1], lucks[|lucks| - 1];
      DrainedInOrder(w, q, init);
      var (w1, q1) := Ticks(w, q, init);
      HealthyKeepsNone(luck, Head(q1));
      NextBatch(q, Min(Outbox.BATCH * |init|, |q|), Min(Outbox.BATCH * |lucks|, |q|));
    }
  }

  // ---- Events that never succeed ----

  function After(luck: Luck, q: seq<int>, k: nat): seq<int>
    decreases k
  {
    if k == 0 then q else After(luck, QueueAfter(luck, q), k - 1)
  }

  lemma {:induction false} KeptOfSum(luck: Luck, a: seq<int>, b: seq<int>)
    ensures Kept(luck, a + b) == Kept(luck, a) + Kept(luck, b)
  {
    if b == [] {
      assert a + b == a;
    } else {
      KeptOfSum(luck, a, b[..|b| - 1]);
      assert (a + b)[..|a + b| - 1] == a + b[..|b| - 1];
    }
  }

  lemma {:induction false} KeptTwice(luck: Luck, es: seq<int>)
    ensures Kept(luck, Kept(luck, es)) == Kept(luck, es)
  {
    if es != [] {
      var init, e := es[..|es| - 1], es[|es| - 1];
      KeptTwice(luck, init);
      if !Leaves(luck, e) {
        assert (Kept(luck, init) + [e])[..|Kept(luck, init)|] == Kept(luck, init);
      }
    }
  }

  lemma QueueStaysDistinct(luck: Luck, q: seq<int>)
    requires Distinct(q)
    ensures Distinct(QueueAfter(luck, q))
  {
    hide QueueAfter;
    var w := World(map e | e in q :: Entry(0, false), []);
    TickQueue(w, luck, q);
  }

  lemma KeptPrefix(luck: Luck, h: seq<int>, between: seq<int>)
    ensures Kept(luck, Kept(luck, h) + between) == Kept(luck, h + between)
    ensures |Kept(luck, h)| <= |Kept(luck, h + between)| <= |h + between|
    ensures |Kept(luck, h + between)| <= |Kept(luck, h) + between|
  {
    KeptOfSum(luck, h, between);
    KeptOfSum(luck, Kept(luck, h), between);
    KeptTwice(luck, h);
    KeptMembers(luck, h + between);
    KeptMembers(luck, Kept(luck, h) + between);
  }

  /** Where an event behind the batch stands after a tick; as many stuck events are ahead of it as before. */
  lemma MovesUp(luck: Luck, q: seq<int>, p: nat) returns (p': nat)
    requires Outbox.BATCH <= p < |q|
    ensures var q' := QueueAfter(luck, q);
            && p' < |q'| && q'[p'] == q[p]
            && Kept(luck, q'[..p']) == Kept(luck, q[..p])
            && p' == |Kept(luck, Head(q))| + p - Outbox.BATCH
            && |Kept(luck, Head(q))| <= |Kept(luck, q[..p])| <= p'
  {
    hide Kept;
    var between := q[Outbox.BATCH..p];
    var k := Kept(luck, Head(q));
    p' := |k| + p - Outbox.BATCH;
    assert q[..p] == Head(q) + between;
    assert QueueAfter(luck, q)[..p'] == k + between;
    KeptPrefix(luck, Head(q), between);
  }

  /** A full batch of older events that never succeed holds everything behind it back for good. */
  lemma {:induction false} HeldBack(luck: Luck, q: seq<int>, p: nat, k: nat)
    requires Outbox.BATCH <= p < |q| && |Kept(luck, q[..p])| >= Outbox.BATCH
    ensures q[p] in After(luck, q, k)
    decreases k
  {
    hide Kept, QueueAfter;
    if k > 0 {
      var p' := MovesUp(luck, q, p);
      HeldBack(luck, QueueAfter(luck, q), p', k - 1);
    }
  }

  lemma {:induction false} StaysOut(luck: Luck, q: seq<int>, e: int, k: nat)
    requires Distinct(q) && e !in q
    ensures e !in After(luck, q, k)
    decreases k
  {
    hide Kept, QueueAfter, Distinct;
    if k > 0 {
      assert e !in QueueAfter(luck, q) by { LeavesOnly(luck, q); }
      QueueStaysDistinct(luck, q);
      StaysOut(luck, QueueAfter(luck, q), e, k - 1);
    }
  }

  lemma LeavesOnly(luck: Luck, q: seq<int>)
    requires Distinct(q)
    ensures forall e :: e in QueueAfter(luck, q) <==> e in q && !(e in Head(q) && Leaves(luck, e))
  {
    TickMembers(luck, q);
  }

  lemma {:induction false} GetsOut(luck: Luck, q: seq<int>, p: nat, k: nat)
    requires Distinct(q) && p < |q| && Leaves(luck, q[p]) && |Kept(luck, q[..p])| < Outbox.BATCH && k > p
    ensures q[p] !in After(luck, q, k)
    decreases k
  {
    hide Kept, QueueAfter, Leaves, Distinct;
    QueueStaysDistinct(luck, q);
    if p < Outbox.BATCH {
      assert Head(q)[p] == q[p];
      LeavesOnly(luck, q);
      StaysOut(luck, QueueAfter(luck, q), q[p], k - 1);
    } else {
      var p' := MovesUp(luck, q, p);
      GetsOut(luck, QueueAfter(luck, q), p', k - 1);
    }
  }

  lemma {:induction false} OneMoreTick(luck: Luck, q: seq<int>, k: nat)
    ensures After(luck, q, k + 1) == QueueAfter(luck, After(luck, q, k))
    decreases k
  {
    hide QueueAfter;
    if k > 0 {
      OneMoreTick(luck, QueueAfter(luck, q), k - 1);
    }
  }

  /** It is the queue that k ticks of that luck leave. */
  lemma {:induction false} AfterTicks(w: World, luck: Luck, q: seq<int>, k: nat)
    ensures Ticks(w, q, seq(k, _ => luck)).1 == After(luck, q, k)
  {
    hide QueueAfter, Tick;
    if k > 0 {
      AfterTicks(w, luck, q, k - 1);
      OneMoreTick(luck, q, k - 1);
      assert seq(k, _ => luck)[..k - 1] == seq(k - 1, _ => luck);
    }
  }

  /** With the same luck in every tick, an event that would succeed leaves the queue some day exactly when fewer
      events than a batch that never do are older than it. */
  lemma PublishedSomeDayIff(luck: Luck, q: seq<int>, p: nat)
    requires Distinct(q) && p < |q| && Leaves(luck, q[p])
    ensures (exists k: nat :: q[p] !in After(luck, q, k)) <==> |Kept(luck, q[..p])| < Outbox.BATCH
  {
    hide After;
    KeptMembers(luck, q[..p]);
    if |Kept(luck, q[..p])| < Outbox.BATCH {
      GetsOut(luck, q, p, p + 1);
    } else {
      forall k: nat ensures q[p] in After(luck, q, k) {
        HeldBack(luck, q, p, k);
      }
    }
  }

  // ---- The publisher ----

  lemma MarkedNone(rows: map<int, Entry>, luck: Luck)
    ensures Marked(rows, luck, []) == rows
  {
  }

  lemma MarkedOneMore(rows: map<int, Entry>, luck: Luck, es: seq<int>, e: int)
    requires e in rows
    ensures Marked(rows, luck, es + [e])
         == if Leaves(luck, e) then Marked(rows, luck, es)[e := Marked(rows, luck, es)[e].(published := true)] else Marked(rows, luck, es)
  {
  }

  class OutboxPublisher {
    var rows: map<int, Entry>
    var topic: seq<int>

    function State(): World
      reads this
    {
      World(rows, topic)
    }

    constructor (w: World)
      ensures State() == w
    {
      rows, topic := w.rows, w.topic;
    }

    /** One of the oldest of some events. */
    method Oldest(left: set<int>) returns (e: int)
      requires left != {} && left <= rows.Keys
      ensures e in left && forall d | d in left :: rows[e].created <= rows[d].created
    {
      SomeMember(left);
      e :| e in left;
      var rest := left - {e};
      while rest != {}
        invariant e in left && rest <= left
        invariant forall d | d in left && d !in rest :: rows[e].created <= rows[d].created
        decreases |rest|
      {
        SomeMember(rest);
        var d :| d in rest;
        if rows[d].created < rows[e].created {
          e := d;
        }
        rest := rest - {d};
      }
    }

    /** ORDER BY created_at over the rows that are not published. */
    method Unpublished() returns (q: seq<int>)
      ensures IsQueue(rows, q)
    {
      q := [];
      var left := set e | e in rows && !rows[e].published;
      while left != {}
        invariant left <= rows.Keys
        invariant Ordered(rows, q)
        invariant forall e :: e in rows && !rows[e].published <==> e in q || e in left
        invariant forall d, e | d in q && e in left :: d != e && rows[d].created <= rows[e].created
        decreases |left|
      {
        var e := Oldest(left);
        q := q + [e];
        left := left - {e};
      }
    }

    method PublishOne(e: int, luck: Luck)
      requires e in rows
      modifies this
      ensures topic == old(topic) + if luck.publish(e).Dropped? then [] else [e]
      ensures rows == if Leaves(luck, e) then old(rows)[e := old(rows)[e].(published := true)] else old(rows)
    {
      if !luck.publish(e).Dropped? {
        topic := topic + [e];
      }
      if luck.publish(e).Answered? && !luck.mark(e).Dropped? {
        rows := rows[e := rows[e].(published := true)];
      }
    }

    /** One tick. A fetch that fails does nothing; an event whose publish fails is left for the next tick, and an event
        whose mark fails is published again. */
    method PublishBatch(fetched: bool, luck: Luck) returns (ghost q: seq<int>)
      modifies this
      ensures IsQueue(old(rows), q)
      ensures State() == if fetched then Tick(old(State()), luck, q) else old(State())
    {
      hide Leaves, Marked, Ordered, Head;
      var queue := Unpublished();
      q := queue;
      if !fetched {
        return;
      }
      var events := Head(queue);
      ghost var rows0 := rows;
      MarkedNone(rows0, luck);
      for i := 0 to |events|
        invariant rows.Keys == rows0.Keys
        invariant rows == Marked(rows0, luck, events[..i])
        invariant topic == old(topic) + Said(luck, events[..i])
      {
        assert events[..i + 1][..i] == events[..i];
        assert events[i] in queue;
        MarkedOneMore(rows0, luck, events[..i], events[i]);
        assert events[..i + 1] == events[..i] + [events[i]];
        PublishOne(events[i], luck);
      }
      assert events[..|events|] == events;
    }
  }
}
