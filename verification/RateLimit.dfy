/** The gateway's rate limiter: a counter per key that is started by its first request and expires a window later. */
module RateLimit {
  import opened Common
  import opened Redis

  /** One request: the increment, and the later command that gives a new counter its expiry. Requests interleave, so
      the expiry is a step of its own. */
  datatype Step =
    | Hit(io: Io)
    | Renew(io: Io)

  /** A request's fate: when it was counted, in which life of the counter, whether its increment took effect, whether it
      was answered, and what the request was told. Uncounted requests are those whose increment was not answered; they
      are let through. */
  datatype Request = Request(at: int, life: nat, reached: bool, counted: bool, admitted: bool)

  /** owed says that the request that started the counter has yet to set its expiry; starts holds the time at which
      each life of the counter began. */
  datatype World = World(store: Store, owed: bool, starts: seq<int>, log: seq<Request>)

  /** The middleware: over the limit is refused, and a Redis error lets the request through. */
  function Hits(w: World, k: string, max: int, io: Io): World {
    var began := Lookup(Arrive(w.store, io), k).None? && !io.fate.Dropped?;
    var (s, count) := Incr(w.store, io, k);
    var starts := if began then w.starts + [s.now] else w.starts;
    World(s,
          if began then count.Ok? else w.owed,
          starts,
          w.log + [Request(s.now, if starts == [] then 0 else |starts| - 1, !io.fate.Dropped?, count.Ok?, count.Err? || count.value <= max)])
  }

  /** EXPIRE by the request that found the count at one. */
  function Renews(w: World, k: string, window: int, io: Io): World {
    if !w.owed then w else w.(store := Expire(w.store, io, k, window).0, owed := false)
  }

  function Act(w: World, k: string, max: int, window: int, step: Step): World {
    match step
    case Hit(io) => Hits(w, k, max, io)
    case Renew(io) => Renews(w, k, window, io)
  }

  function Run(now: int, k: string, max: int, window: int, steps: seq<Step>): World {
    if steps == [] then World(Store(map[], now), false, [], [])
    else Act(Run(now, k, max, window, steps[..|steps| - 1]), k, max, window, steps[|steps| - 1])
  }

  // ---- Counting ----

  /** Requests admitted by their count in one life. */
  function InLife(log: seq<Request>, life: nat): nat {
    if log == [] then 0
    else
      var r := log[|log| - 1];
      InLife(log[..|log| - 1], life) + if r.counted && r.admitted && r.life == life then 1 else 0
  }

  /** Requests let through at a time from a to b. */
  function Admitted(log: seq<Request>, a: int, b: int): nat {
    if log == [] then 0
    else
      var r := log[|log| - 1];
      Admitted(log[..|log| - 1], a, b) + if r.admitted && a <= r.at <= b then 1 else 0
  }

  /** Requests in that time whose increment was not answered. */
  function Uncounted(log: seq<Request>, a: int, b: int): nat {
    if log == [] then 0
    else
      var r := log[|log| - 1];
      Uncounted(log[..|log| - 1], a, b) + if !r.counted && a <= r.at <= b then 1 else 0
  }

  function Limit(max: int): nat {
    if max < 0 then 0 else max
  }

  function Least(a: int, b: int): int {
    if a <= b then a else b
  }

  // ---- The invariant ----

  /** Lives begin a window apart at least, and each counted request falls inside its life. */
  ghost predicate Lives(w: World, window: int) {
    && (forall i, j | 0 <= i < j < |w.starts| :: w.starts[j] >= w.starts[i] + window)
    && (forall i | 0 <= i < |w.log| && w.log[i].counted ::
          && w.log[i].life < |w.starts| && w.starts[w.log[i].life] <= w.log[i].at <= w.store.now
          && (w.log[i].life + 1 < |w.starts| ==> w.log[i].at < w.starts[w.log[i].life + 1]))
    && (w.starts != [] ==> w.starts[|w.starts| - 1] <= w.store.now)
  }

  /** The counter of the current life: it has counted at least the requests admitted, and if it expires, then a
      window after its start or later, and after every request of its life. */
  ghost predicate Current(w: World, k: string, max: int, window: int) {
    if k !in w.store.kv then w.starts == []
    else
      var e := w.store.kv[k];
      && e.value.Count? && e.value.count >= 1 && w.starts != []
      && InLife(w.log, |w.starts| - 1) <= Least(e.value.count, Limit(max))
      && (w.owed ==> e.expiry == None)
      && (e.expiry.Some? ==>
            && e.expiry.value >= w.starts[|w.starts| - 1] + window
            && forall i | 0 <= i < |w.log| && w.log[i].counted && w.log[i].life == |w.starts| - 1 :: w.log[i].at < e.expiry.value)
  }

  ghost predicate Bounded(w: World, max: int) {
    && (w.owed ==> w.starts != [])
    && (forall life: nat | life < |w.starts| :: InLife(w.log, life) <= Limit(max))
    && (forall life: nat | life >= |w.starts| :: InLife(w.log, life) == 0)
  }

  ghost predicate Sound(w: World, k: string, max: int, window: int) {
    Lives(w, window) && Current(w, k, max, window) && Bounded(w, max)
  }

  lemma InLifeSnoc(log: seq<Request>, r: Request, life: nat)
    ensures InLife(log + [r], life) == InLife(log, life) + if r.counted && r.admitted && r.life == life then 1 else 0
  {
  }

  lemma HitsLives(w: World, k: string, max: int, window: int, io: Io)
    requires Sound(w, k, max, window) && window > 0
    ensures Lives(Hits(w, k, max, io), window)
  {
    hide InLife, Bounded;
  }

  lemma HitsCurrent(w: World, k: string, max: int, window: int, io: Io)
    requires Sound(w, k, max, window) && window > 0
    ensures Current(Hits(w, k, max, io), k, max, window)
  {
  }

  lemma HitsBounded(w: World, k: string, max: int, window: int, io: Io)
    requires Sound(w, k, max, window) && window > 0
    ensures Bounded(Hits(w, k, max, io), max)
  {
    hide InLife, Lives;
    var w' := Hits(w, k, max, io);
    var r := w'.log[|w.log|];
    assert w'.log == w.log + [r];
    forall life: nat ensures InLife(w'.log, life) == InLife(w.log, life) + if r.counted && r.admitted && r.life == life then 1 else 0 {
      InLifeSnoc(w.log, r, life);
    }
  }

  lemma HitsSound(w: World, k: string, max: int, window: int, io: Io)
    requires Sound(w, k, max, window) && window > 0
    ensures Sound(Hits(w, k, max, io), k, max, window)
  {
    hide Lives, Current, Bounded, Hits;
    HitsLives(w, k, max, window, io);
    HitsCurrent(w, k, max, window, io);
    HitsBounded(w, k, max, window, io);
  }

  lemma RenewsSound(w: World, k: string, max: int, window: int, io: Io)
    requires Sound(w, k, max, window) && window > 0
    ensures Sound(Renews(w, k, window, io), k, max, window)
  {
    hide InLife;
  }

  lemma {:induction false} RunSound(now: int, k: string, max: int, window: int, steps: seq<Step>)
    requires window > 0
    ensures Sound(Run(now, k, max, window, steps), k, max, window)
  {
    if steps != [] {
      hide Sound, Hits, Renews;
      RunSound(now, k, max, window, steps[..|steps| - 1]);
      var w := Run(now, k, max, window, steps[..|steps| - 1]);
      match steps[|steps| - 1]
      case Hit(io) => HitsSound(w, k, max, window, io);
      case Renew(io) => RenewsSound(w, k, max, window, io);
    }
  }

  /** A renewal that takes effect ends the life of the counter a window after it, and no renewal changes the count. */
  lemma RenewedFor(w: World, k: string, max: int, window: int, io: Io)
    requires Sound(w, k, max, window) && window > 0 && w.owed
    ensures var w' := Renews(w, k, window, io);
            && !w'.owed && k in w'.store.kv && w'.store.kv[k].value == w.store.kv[k].value
            && w'.store.kv[k].expiry == if io.fate.Dropped? then None else Some(w.store.now + io.delay + window)
  {
    hide InLife, Lives;
  }

  // ---- Who is admitted ----

  /** Increments that took effect in one life. */
  function Reached(log: seq<Request>, life: nat): nat {
    if log == [] then 0
    else Reached(log[..|log| - 1], life) + if log[|log| - 1].reached && log[|log| - 1].life == life then 1 else 0
  }

  lemma ReachedSnoc(log: seq<Request>, r: Request, life: nat)
    ensures Reached(log + [r], life) == Reached(log, life) + if r.reached && r.life == life then 1 else 0
  {
    assert (log + [r])[..|log|] == log;
  }

  /** The counter of the present life stands at the increments of that life. */
  ghost predicate Exact(w: World, k: string) {
    && (k in w.store.kv ==> w.starts != [] && w.store.kv[k].value == Count(Reached(w.log, |w.starts| - 1)))
    && (forall life: nat | life >= |w.starts| :: Reached(w.log, life) == 0)
  }

  /** A counted request was admitted exactly when fewer than the limit had reached its life before. */
  ghost predicate Judged(log: seq<Request>, max: int) {
    forall i | 0 <= i < |log| && log[i].counted :: log[i].admitted <==> Reached(log[..i], log[i].life) < max
  }

  lemma HitsExact(w: World, k: string, max: int, io: Io)
    requires Exact(w, k)
    ensures Exact(Hits(w, k, max, io), k)
  {
    hide Reached;
    var w' := Hits(w, k, max, io);
    var r := w'.log[|w.log|];
    assert w'.log == w.log + [r];
    forall life: nat ensures Reached(w'.log, life) == Reached(w.log, life) + if r.reached && r.life == life then 1 else 0 {
      ReachedSnoc(w.log, r, life);
    }
  }

  lemma HitsJudged(w: World, k: string, max: int, io: Io)
    requires Exact(w, k) && Judged(w.log, max)
    ensures Judged(Hits(w, k, max, io).log, max)
  {
    hide Reached;
    var log := Hits(w, k, max, io).log;
    assert log[..|w.log|] == w.log;
    forall i | 0 <= i < |log| && log[i].counted ensures log[i].admitted <==> Reached(log[..i], log[i].life) < max {
      if i < |w.log| {
        assert log[..i] == w.log[..i] && log[i] == w.log[i];
      }
    }
  }

  lemma RenewsExact(w: World, k: string, window: int, io: Io)
    requires Exact(w, k) && window > 0
    ensures Exact(Renews(w, k, window, io), k) && Renews(w, k, window, io).log == w.log
  {
    hide Reached;
  }

  /** Over every run: a request that Redis counted is admitted if and only if fewer than the limit were counted before it
      in the same life of the counter, and one that it left uncounted is let through. */
  lemma {:induction false} AdmittedIff(now: int, k: string, max: int, window: int, steps: seq<Step>)
    requires window > 0
    ensures var w := Run(now, k, max, window, steps);
            && Exact(w, k) && Judged(w.log, max) && forall i | 0 <= i < |w.log| && !w.log[i].counted :: w.log[i].admitted
  {
    if steps != [] {
      hide Exact, Judged, Renews;
      AdmittedIff(now, k, max, window, steps[..|steps| - 1]);
      var w := Run(now, k, max, window, steps[..|steps| - 1]);
      match steps[|steps| - 1]
      case Hit(io) =>
        HitsExact(w, k, max, io);
        HitsJudged(w, k, max, io);
      case Renew(io) => RenewsExact(w, k, window, io);
    } else {
      NoneJudged(now, k, max, window);
    }
  }

  lemma NoneJudged(now: int, k: string, max: int, window: int)
    ensures Exact(Run(now, k, max, window, []), k) && Judged([], max)
  {
  }

  // ---- The bounds ----

  /** Request i was counted at a time from a to b. */
  predicate Seen(log: seq<Request>, a: int, b: int, i: int) {
    0 <= i < |log| && log[i].counted && a <= log[i].at <= b
  }

  /** The request of the least life among those seen, or -1. */
  lemma {:induction false} LeastLife(log: seq<Request>, a: int, b: int) returns (i: int)
    ensures i == -1 || Seen(log, a, b, i)
    ensures forall j | Seen(log, a, b, j) :: i != -1 && log[i].life <= log[j].life
  {
    i := -1;
    var n := 0;
    while n < |log|
      invariant n <= |log|
      invariant i == -1 || (i < n && Seen(log, a, b, i))
      invariant forall j | Seen(log, a, b, j) && j < n :: i != -1 && log[i].life <= log[j].life
    {
      if Seen(log, a, b, n) && (i == -1 || log[n].life < log[i].life) {
        i := n;
      }
      n := n + 1;
    }
  }

  lemma {:induction false} InTwoLives(log: seq<Request>, a: int, b: int, life: nat)
    requires forall i | Seen(log, a, b, i) :: log[i].life == life || log[i].life == life + 1
    ensures Admitted(log, a, b) <= InLife(log, life) + InLife(log, life + 1) + Uncounted(log, a, b)
  {
    if log != [] {
      var init := log[..|log| - 1];
      assert forall i | Seen(init, a, b, i) :: Seen(log, a, b, i) && init[i] == log[i];
      assert log[|log| - 1].counted && a <= log[|log| - 1].at <= b ==> Seen(log, a, b, |log| - 1);
      InTwoLives(init, a, b, life);
    }
  }

  /** Lives are a window apart, so a time no longer than the window sees two of them at most. */
  lemma TwoLivesAtMost(w: World, window: int, a: int, b: int, i: nat, j: nat)
    requires Lives(w, window) && window > 0 && b <= a + window
    requires Seen(w.log, a, b, i) && Seen(w.log, a, b, j) && w.log[i].life <= w.log[j].life
    ensures w.log[j].life <= w.log[i].life + 1
  {
  }

  /** Whatever commands fail, at most the limit is admitted by count in one life of the counter, and in any time no
      longer than the window at most twice the limit, besides the requests that Redis left uncounted. */
  lemma AtMostTwiceTheLimit(now: int, k: string, max: int, window: int, steps: seq<Step>, a: int, b: int)
    requires window > 0 && b <= a + window
    ensures var log := Run(now, k, max, window, steps).log;
            && (forall life: nat :: InLife(log, life) <= Limit(max))
            && Admitted(log, a, b) <= 2 * Limit(max) + Uncounted(log, a, b)
  {
    hide Run, InLife, Admitted, Uncounted, Lives, Current;
    RunSound(now, k, max, window, steps);
    var w := Run(now, k, max, window, steps);
    forall life: nat ensures InLife(w.log, life) <= Limit(max) {
      assert life < |w.starts| || life >= |w.starts|;
    }
    var i := LeastLife(w.log, a, b);
    forall j | Seen(w.log, a, b, j) ensures w.log[j].life == w.log[i].life || w.log[j].life == w.log[i].life + 1 {
      TwoLivesAtMost(w, window, a, b, i, j);
    }
    InTwoLives(w.log, a, b, if i == -1 then 0 else w.log[i].life);
  }

  // ---- A lost expiry ----

  /** A counter without expiry that nobody will give one. */
  predicate NeverExpires(w: World, k: string) {
    !w.owed && k in w.store.kv && w.store.kv[k].expiry == None
  }

  /** The step that starts a counter and is not told so, or the expiry that is owed and lost. */
  predicate Leaks(w: World, k: string, step: Step) {
    match step
    case Hit(io) => io.fate.Unanswered? && Lookup(Arrive(w.store, io), k).None?
    case Renew(io) => io.fate.Dropped? && w.owed
  }

  lemma LeaksIff(w: World, k: string, max: int, window: int, step: Step)
    requires Sound(w, k, max, window) && window > 0
    ensures NeverExpires(Act(w, k, max, window, step), k) <==> NeverExpires(w, k) || Leaks(w, k, step)
  {
    hide InLife, Lives;
  }

  ghost predicate EverLeaks(now: int, k: string, max: int, window: int, steps: seq<Step>) {
    exists i :: 0 <= i < |steps| && Leaks(Run(now, k, max, window, steps[..i]), k, steps[i])
  }

  lemma EverLeaksStep(now: int, k: string, max: int, window: int, steps: seq<Step>)
    requires steps != []
    ensures var before, last := steps[..|steps| - 1], steps[|steps| - 1];
            EverLeaks(now, k, max, window, steps)
            <==> EverLeaks(now, k, max, window, before) || Leaks(Run(now, k, max, window, before), k, last)
  {
    hide Run, Leaks;
    var n := |steps| - 1;
    forall i | 0 <= i < n ensures steps[..n][..i] == steps[..i] && steps[..n][i] == steps[i] {
    }
    if i :| 0 <= i < n && Leaks(Run(now, k, max, window, steps[..n][..i]), k, steps[..n][i]) {
      assert Leaks(Run(now, k, max, window, steps[..i]), k, steps[i]);
    }
  }

  /** Over every run: a counter is there for good exactly when some step leaked it. */
  lemma {:induction false} NeverExpiresExactly(now: int, k: string, max: int, window: int, steps: seq<Step>)
    requires window > 0
    ensures NeverExpires(Run(now, k, max, window, steps), k) <==> EverLeaks(now, k, max, window, steps)
  {
    if steps != [] {
      hide Act, Leaks, NeverExpires, EverLeaks, Sound;
      var before, last := steps[..|steps| - 1], steps[|steps| - 1];
      NeverExpiresExactly(now, k, max, window, before);
      EverLeaksStep(now, k, max, window, steps);
      RunSound(now, k, max, window, before);
      LeaksIff(Run(now, k, max, window, before), k, max, window, last);
    }
  }

  /** Such a counter, once it has counted up to the limit. */
  predicate Stuck(w: World, k: string, max: int) {
    NeverExpires(w, k) && w.store.kv[k].value.Count? && w.store.kv[k].value.count >= max
  }

  const FINE := Io(0, Answered)
  const LOST := Io(0, Dropped)

  /** A first request whose expiry is lost, and n more. */
  function Flood(n: nat): seq<Step> {
    if n == 0 then [] + [Hit(FINE)] + [Renew(LOST)] else Flood(n - 1) + [Hit(FINE)]
  }

  lemma RunSnoc(now: int, k: string, max: int, window: int, steps: seq<Step>, step: Step)
    ensures Run(now, k, max, window, steps + [step]) == Act(Run(now, k, max, window, steps), k, max, window, step)
  {
    assert (steps + [step])[..|steps|] == steps;
  }

  lemma HitCounts(w: World, k: string, max: int, window: int, n: int)
    requires NeverExpires(w, k) && w.store.kv[k].value == Count(n)
    ensures var w' := Act(w, k, max, window, Hit(FINE)); NeverExpires(w', k) && w'.store.kv[k].value == Count(n + 1)
  {
  }

  lemma FirstLost(now: int, k: string, max: int, window: int)
    ensures var w := Run(now, k, max, window, Flood(0)); NeverExpires(w, k) && w.store.kv[k].value == Count(1)
  {
    hide Run;
    RunSnoc(now, k, max, window, [], Hit(FINE));
    RunSnoc(now, k, max, window, [] + [Hit(FINE)], Renew(LOST));
    RunNothing(now, k, max, window);
  }

  lemma RunNothing(now: int, k: string, max: int, window: int)
    ensures Run(now, k, max, window, []) == World(Store(map[], now), false, [], [])
  {
  }

  /** For every limit and window there is a run after which the counter is stuck. */
  lemma {:induction false} FloodCounts(now: int, k: string, max: int, window: int, n: nat)
    ensures var w := Run(now, k, max, window, Flood(n));
            NeverExpires(w, k) && w.store.kv[k].value == Count(n + 1) && (n + 1 >= max ==> Stuck(w, k, max))
  {
    hide Run, Act;
    if n == 0 {
      FirstLost(now, k, max, window);
    } else {
      FloodCounts(now, k, max, window, n - 1);
      RunSnoc(now, k, max, window, Flood(n - 1), Hit(FINE));
      HitCounts(Run(now, k, max, window, Flood(n - 1)), k, max, window, n);
    }
  }

  function Resume(w: World, k: string, max: int, window: int, steps: seq<Step>): World {
    if steps == [] then w else Act(Resume(w, k, max, window, steps[..|steps| - 1]), k, max, window, steps[|steps| - 1])
  }

  lemma ActStuck(w: World, k: string, max: int, window: int, step: Step)
    requires Stuck(w, k, max)
    ensures var w' := Act(w, k, max, window, step);
            && Stuck(w', k, max) && w.log <= w'.log
            && forall i | |w.log| <= i < |w'.log| && w'.log[i].counted :: !w'.log[i].admitted
  {
  }

  /** From then on every counted request is refused, for ever. */
  lemma {:induction false} LostExpiryLocksOut(w: World, k: string, max: int, window: int, steps: seq<Step>)
    requires Stuck(w, k, max)
    ensures var w' := Resume(w, k, max, window, steps);
            && Stuck(w', k, max) && w.log <= w'.log
            && forall i | |w.log| <= i < |w'.log| && w'.log[i].counted :: !w'.log[i].admitted
  {
    if steps != [] {
      hide Act, Stuck;
      LostExpiryLocksOut(w, k, max, window, steps[..|steps| - 1]);
      ActStuck(Resume(w, k, max, window, steps[..|steps| - 1]), k, max, window, steps[|steps| - 1]);
    }
  }

  // ---- The middleware ----

  /** One request that nothing interrupts. */
  function Handled(s: Store, k: string, max: int, window: int, io: Io, renewal: Io): (Store, bool) {
    var (s', count) := Incr(s, io, k);
    if count.Err? then (s', true)
    else (if count.value == 1 then Expire(s', renewal, k, window).0 else s', count.value <= max)
  }

  /** It is a hit and, for the first of a life, the renewal. */
  lemma HandledIsSteps(w: World, k: string, max: int, window: int, io: Io, renewal: Io)
    requires Sound(w, k, max, window) && !w.owed
    ensures var hit := Hits(w, k, max, io);
            var done := Renews(hit, k, window, renewal);
            Handled(w.store, k, max, window, io, renewal) == (done.store, done.log[|w.log|].admitted)
  {
  }

  class RateLimiter {
    const rdb: Client
    const maxRequests: int
    const window: int

    constructor (client: Client, max: int, length: int)
      ensures rdb == client && maxRequests == max && window == length
    {
      rdb, maxRequests, window := client, max, length;
    }

    method Handle(user: string, ip: string, path: string, io: Io, renewal: Io) returns (next: bool)
      modifies rdb
      ensures var k := "rate:" + (if user == "" then ip else user) + ":" + path;
              (rdb.State(), next) == Handled(old(rdb.State()), k, maxRequests, window, io, renewal)
    {
      var userId := user;
      if userId == "" {
        userId := ip;
      }
      var key := "rate:" + userId + ":" + path;
      var count := rdb.IncrCommand(io, key);
      if count.Err? {
        return true;
      }
      if count.value == 1 {
        var renewed := rdb.ExpireCommand(renewal, key, window);
      }
      if count.value > maxRequests {
        return false;
      }
      return true;
    }
  }
}
