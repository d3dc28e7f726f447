/** The transaction PIN: a failure counter, a lock deadline, and the rate at which guesses get through. */
module Pin {
  import opened Common

  const MAX_PIN_ATTEMPTS := 5
  const LOCK := 15 * 60
  const MAX_INT32 := 0x7FFF_FFFF

  datatype UserPin = UserPin(hash: string, failed: int, lockedUntil: Option<int>)

  /** The table of PINs, one row per user. */
  type Table = map<int, UserPin>

  /** Outcomes of the calls a use case makes, and the two clock readings of VerifyPIN. */
  datatype Env = Env(
    read: bool,
    checkedAt: int,
    hashed: bool,
    write: Fate,       // increment, or reset of the counter, or new hash
    lockedAt: int,
    lock: Fate)

  datatype Request =
    | VerifyPIN(user: int, pin: string, env: Env)
    | UpdatePIN(user: int, oldPin: string, newPin: string, env: Env)
    | SetPIN(user: int, pin: string, env: Env)

  predicate Locked(p: UserPin, now: int) {
    p.lockedUntil.Some? && p.lockedUntil.value > now
  }

  /** How PINs are hashed and compared. */
  datatype Hasher = Hasher(hash: string -> string, verify: (string, string) -> bool)

  function Increment(p: UserPin, write: Fate): (r: (UserPin, Option<int>))
  {
    if write.Dropped? || p.failed == MAX_INT32 then (p, None)
    else (p.(failed := p.failed + 1), if write.Answered? then Some(p.failed + 1) else None)
  }

  function VerifyRow(h: Hasher, p: UserPin, pin: string, env: Env): (r: (UserPin, Option<Error>))
  {
    if Locked(p, env.checkedAt) then (p, Some(Forbidden))
    else if !env.hashed then (p, Some(Failure))
    else if !h.verify(p.hash, pin) then
      var (p1, attempts) := Increment(p, env.write);
      if attempts.None? then (p1, Some(Failure))
      else if attempts.value >= MAX_PIN_ATTEMPTS then
        var p2 := if env.lock.Dropped? then p1 else p1.(lockedUntil := Some(env.lockedAt + LOCK));
        (p2, Some(if env.lock.Answered? then Forbidden else Failure))
      else (p1, Some(InvalidInput))
    else if p.failed > 0 then
      (if env.write.Dropped? then p else p.(failed := 0, lockedUntil := None), if env.write.Answered? then None else Some(Failure))
    else (p, None)
  }

  function UpdateRow(h: Hasher, p: UserPin, oldPin: string, newPin: string, env: Env): (r: (UserPin, Option<Error>))
  {
    if Locked(p, env.checkedAt) then (p, Some(Forbidden))
    else if !env.hashed then (p, Some(Failure))
    else if !h.verify(p.hash, oldPin) then (p, Some(InvalidInput))
    else (if env.write.Dropped? then p else UserPin(h.hash(newPin), 0, None), if env.write.Answered? then None else Some(Failure))
  }

  function Step(h: Hasher, t: Table, r: Request): (out: (Table, Option<Error>))
  {
    match r
    case VerifyPIN(u, pin, env) =>
      if !env.read then (t, Some(Failure))
      else if u !in t then (t, Some(NotFound))
      else var (p, e) := VerifyRow(h, t[u], pin, env); (t[u := p], e)
    case UpdatePIN(u, oldPin, newPin, env) =>
      if |newPin| != 6 then (t, Some(InvalidInput))
      else if !env.read then (t, Some(Failure))
      else if u !in t then (t, Some(NotFound))
      else var (p, e) := UpdateRow(h, t[u], oldPin, newPin, env); (t[u := p], e)
    case SetPIN(u, pin, env) =>
      if |pin| != 6 then (t, Some(InvalidInput))
      else if !env.read then (t, Some(Failure))
      else if u in t then (t, Some(AlreadyExists))
      else if !env.hashed then (t, Some(Failure))
      else (if env.write.Dropped? then t else t[u := UserPin(h.hash(pin), 0, None)], if env.write.Answered? then None else Some(Failure))
  }

  /** The use cases over the repository, one statement at a time. */
  class PinUsecase {
    const hasher: Hasher
    var table: Table

    constructor (h: Hasher)
      ensures hasher == h && table == map[]
    {
      hasher, table := h, map[];
    }

    method IncrementFailedAttempts(user: int, write: Fate) returns (attempts: Option<int>)
      requires user in table
      modifies this
      ensures table == old(table)[user := Increment(old(table)[user], write).0]
      ensures attempts == Increment(old(table)[user], write).1
    {
      var p := table[user];
      if write.Dropped? || p.failed == MAX_INT32 {
        table := table[user := p];
        return None;
      }
      table := table[user := p.(failed := p.failed + 1)];
      attempts := if write.Answered? then Some(p.failed + 1) else None;
    }

    method VerifyPIN(user: int, pin: string, env: Env) returns (err: Option<Error>)
      modifies this
      ensures (table, err) == Step(hasher, old(table), Request.VerifyPIN(user, pin, env))
    {
      if !env.read {
        return Some(Failure);
      }
      if user !in table {
        return Some(NotFound);
      }
      var row := table[user];
      if row.lockedUntil.Some? && row.lockedUntil.value > env.checkedAt {
        table := table[user := row];
        return Some(Forbidden);
      }
      if !env.hashed {
        table := table[user := row];
        return Some(Failure);
      }
      if !hasher.verify(row.hash, pin) {
        var attempts := IncrementFailedAttempts(user, env.write);
        if attempts.None? {
          return Some(Failure);
        }
        if attempts.value >= MAX_PIN_ATTEMPTS {
          if !env.lock.Dropped? {
            table := table[user := table[user].(lockedUntil := Some(env.lockedAt + LOCK))];
            assert table == old(table)[user := table[user]];
          }
          return Some(if env.lock.Answered? then Forbidden else Failure);
        }
        return Some(InvalidInput);
      }
      if row.failed > 0 {
        if !env.write.Dropped? {
          table := table[user := row.(failed := 0, lockedUntil := None)];
        } else {
          table := table[user := row];
        }
        return if env.write.Answered? then None else Some(Failure);
      }
      table := table[user := row];
      return None;
    }

    method UpdatePIN(user: int, oldPin: string, newPin: string, env: Env) returns (err: Option<Error>)
      modifies this
      ensures (table, err) == Step(hasher, old(table), Request.UpdatePIN(user, oldPin, newPin, env))
    {
      if |newPin| != 6 {
        return Some(InvalidInput);
      }
      if !env.read {
        return Some(Failure);
      }
      if user !in table {
        return Some(NotFound);
      }
      var row := table[user];
      err := None;
      if row.lockedUntil.Some? && row.lockedUntil.value > env.checkedAt {
        err := Some(Forbidden);
      } else if !env.hashed {
        err := Some(Failure);
      } else if !hasher.verify(row.hash, oldPin) {
        err := Some(InvalidInput);
      } else {
        if !env.write.Dropped? {
          row := UserPin(hasher.hash(newPin), 0, None);
        }
        if !env.write.Answered? {
          err := Some(Failure);
        }
      }
      table := table[user := row];
    }

    method SetPIN(user: int, pin: string, env: Env) returns (err: Option<Error>)
      modifies this
      ensures (table, err) == Step(hasher, old(table), Request.SetPIN(user, pin, env))
    {
      if |pin| != 6 {
        return Some(InvalidInput);
      }
      if !env.read {
        return Some(Failure);
      }
      if user in table {
        return Some(AlreadyExists);
      }
      if !env.hashed {
        return Some(Failure);
      }
      if !env.write.Dropped? {
        table := table[user := UserPin(hasher.hash(pin), 0, None)];
      }
      return if env.write.Answered? then None else Some(Failure);
    }
  }

  // ---- Runs ----

  function Run(h: Hasher, rs: seq<Request>): Table {
    if rs == [] then map[] else Step(h, Run(h, rs[..|rs| - 1]), rs[|rs| - 1]).0
  }

  /** Every row of every run: the counter fits its column, and a lock is only ever set once it reached its limit. */
  ghost predicate Sane(t: Table) {
    forall u | u in t :: 0 <= t[u].failed <= MAX_INT32 && (t[u].lockedUntil.Some? ==> t[u].failed >= MAX_PIN_ATTEMPTS)
  }

  lemma StepSane(h: Hasher, t: Table, r: Request)
    requires Sane(t)
    ensures Sane(Step(h, t, r).0)
  {
  }

  lemma {:induction false} RunSane(h: Hasher, rs: seq<Request>)
    ensures Sane(Run(h, rs))
  {
    if rs != [] {
      RunSane(h, rs[..|rs| - 1]);
      StepSane(h, Run(h, rs[..|rs| - 1]), rs[|rs| - 1]);
    }
  }

  /** After any run, a successful VerifyPIN leaves no failures and no lock, also where it skips the reset. */
  lemma SuccessClears(h: Hasher, rs: seq<Request>, user: int, pin: string, env: Env)
    requires Step(h, Run(h, rs), VerifyPIN(user, pin, env)).1 == None
    ensures var t := Step(h, Run(h, rs), VerifyPIN(user, pin, env)).0;
            user in t && t[user].failed == 0 && t[user].lockedUntil == None && h.verify(t[user].hash, pin)
  {
    RunSane(h, rs);
  }

  // ---- What each request answers and leaves behind ----

  /** The row could be read, and is not locked at the time of the check. */
  predicate OpenRow(t: Table, user: int, env: Env) {
    env.read && user in t && (t[user].lockedUntil.Some? ==> t[user].lockedUntil.value <= env.checkedAt)
  }

  /** The failure about to be counted is the fifth or later. */
  predicate Fifth(p: UserPin) {
    p.failed + 1 >= 5
  }

  /** The count of a wrong PIN reaches the caller. */
  predicate CountTold(p: UserPin, env: Env) {
    env.write.Answered? && p.failed < MAX_INT32
  }

  /** VerifyPIN on the table of any run accepts exactly the right PIN of a row that is read and not locked, when hashing
      works and, after failures, the reset is answered. It answers Forbidden exactly for a locked row and for a wrong PIN
      that is the fifth or later failure, InvalidInput exactly for an earlier wrong PIN, and NotFound for a missing row. */
  lemma VerifyExact(h: Hasher, rs: seq<Request>, user: int, pin: string, env: Env)
    ensures var t := Run(h, rs);
            var e := Step(h, t, VerifyPIN(user, pin, env)).1;
            var checked := OpenRow(t, user, env) && env.hashed;
            && (e == None <==> checked && h.verify(t[user].hash, pin) && (t[user].failed > 0 ==> env.write.Answered?))
            && (e == Some(InvalidInput) <==> checked && !h.verify(t[user].hash, pin) && CountTold(t[user], env) && !Fifth(t[user]))
            && (e == Some(Forbidden) <==>
                  || (env.read && user in t && !OpenRow(t, user, env))
                  || (checked && !h.verify(t[user].hash, pin) && CountTold(t[user], env) && Fifth(t[user]) && env.lock.Answered?))
            && (e == Some(NotFound) <==> env.read && user !in t)
  {
    RunSane(h, rs);
  }

  /** What it leaves: the other rows and every hash as they were; one failure more for a wrong PIN that was counted, and a
      lock of fifteen minutes from the time of the lock for the fifth or later; no failures and no lock after a right PIN. */
  lemma VerifyLeaves(h: Hasher, rs: seq<Request>, user: int, pin: string, env: Env)
    ensures var t := Run(h, rs);
            var t' := Step(h, t, VerifyPIN(user, pin, env)).0;
            var checked := OpenRow(t, user, env) && env.hashed;
            && t'.Keys == t.Keys
            && (forall u | u in t && u != user :: t'[u] == t[u])
            && (user in t ==>
                  && t'[user].hash == t[user].hash
                  && (!checked ==> t'[user] == t[user])
                  && (checked && h.verify(t[user].hash, pin) && !env.write.Dropped? ==> t'[user].failed == 0 && t'[user].lockedUntil == None)
                  && (checked && h.verify(t[user].hash, pin) && env.write.Dropped? ==> t'[user] == t[user])
                  && (checked && !h.verify(t[user].hash, pin) ==>
                        && t'[user].failed == (if env.write.Dropped? || t[user].failed == MAX_INT32 then t[user].failed else t[user].failed + 1)
                        && t'[user].lockedUntil == (if CountTold(t[user], env) && Fifth(t[user]) && !env.lock.Dropped?
                                                    then Some(env.lockedAt + 15 * 60) else t[user].lockedUntil)))
  {
    RunSane(h, rs);
  }

  /** UpdatePIN takes a new PIN of six characters for the old one exactly from an open row that the old one opens. */
  lemma UpdateExact(h: Hasher, t: Table, user: int, oldPin: string, newPin: string, env: Env)
    ensures var (t', e) := Step(h, t, UpdatePIN(user, oldPin, newPin, env));
            var valid := |newPin| == 6 && OpenRow(t, user, env) && env.hashed && h.verify(t[user].hash, oldPin);
            && (e == None <==> valid && env.write.Answered?)
            && (e == Some(Forbidden) <==> |newPin| == 6 && env.read && user in t && !OpenRow(t, user, env))
            && (e == Some(InvalidInput) <==>
                  |newPin| != 6 || (OpenRow(t, user, env) && env.hashed && !h.verify(t[user].hash, oldPin)))
            && t' == if valid && !env.write.Dropped? then t[user := UserPin(h.hash(newPin), 0, None)] else t
  {
  }

  /** SetPIN gives a PIN of six characters to a user who has none. */
  lemma SetExact(h: Hasher, t: Table, user: int, pin: string, env: Env)
    ensures var (t', e) := Step(h, t, SetPIN(user, pin, env));
            var valid := |pin| == 6 && env.read && user !in t && env.hashed;
            && (e == None <==> valid && env.write.Answered?)
            && (e == Some(AlreadyExists) <==> |pin| == 6 && env.read && user in t)
            && t' == if valid && !env.write.Dropped? then t[user := UserPin(h.hash(pin), 0, None)] else t
  {
  }

  /** Hashing recognizes the PIN that was hashed, and no other. */
  ghost predicate Recognizes(h: Hasher) {
    forall p, q :: h.verify(h.hash(p), q) <==> p == q
  }

  predicate AllAnswered(env: Env) {
    env.read && env.hashed && env.write.Answered? && env.lock.Answered?
  }

  /** After a PIN was set or changed, it is the one that opens, at once and at any time before the next failure. */
  lemma NewPinOpens(h: Hasher, rs: seq<Request>, change: Request, user: int, pin: string, env: Env)
    requires Recognizes(h) && change.user == user && !change.VerifyPIN? && Step(h, Run(h, rs), change).1 == None && AllAnswered(env)
    ensures var latest := if change.SetPIN? then change.pin else change.newPin;
            var e := Step(h, Run(h, rs + [change]), VerifyPIN(user, pin, env)).1;
            if pin == latest then e == None else e == Some(InvalidInput)
  {
    assert (rs + [change])[..|rs|] == rs;
  }

  // ---- The rate of guessing ----

  /** A wrong PIN of this user was compared with the hash. */
  predicate WrongChecked(h: Hasher, t: Table, r: Request, user: int) {
    r.VerifyPIN? && r.user == user && r.env.read && user in t && !Locked(t[user], r.env.checkedAt) && r.env.hashed
    && !h.verify(t[user].hash, r.pin)
  }

  /** ... but the increment or the lock that should have followed was not written or not answered. */
  predicate WriteLost(h: Hasher, t: Table, r: Request, user: int) {
    WrongChecked(h, t, r, user) &&
    (Increment(t[user], r.env.write).1.None? || (t[user].failed + 1 >= MAX_PIN_ATTEMPTS && r.env.lock.Dropped?))
  }

  /** The counter of this user went back to zero. */
  predicate Cleared(h: Hasher, t: Table, r: Request, user: int) {
    var t' := Step(h, t, r).0;
    user in t' && (user in t ==> t[user] != t'[user]) && t'[user].failed == 0
  }

  predicate InWindow(r: Request, from: int, length: nat) {
    from <= r.env.checkedAt <= from + length
  }

  function Wrong(h: Hasher, t: Table, rs: seq<Request>, user: int, from: int, length: nat): nat
    decreases |rs|
  {
    if rs == [] then 0
    else
      var hit := if WrongChecked(h, t, rs[0], user) && InWindow(rs[0], from, length) then 1 else 0;
      hit + Wrong(h, Step(h, t, rs[0]).0, rs[1..], user, from, length)
  }

  function Lost(h: Hasher, t: Table, rs: seq<Request>, user: int): nat
    decreases |rs|
  {
    if rs == [] then 0
    else (if WriteLost(h, t, rs[0], user) then 1 else 0) + Lost(h, Step(h, t, rs[0]).0, rs[1..], user)
  }

  function Clears(h: Hasher, t: Table, rs: seq<Request>, user: int): nat
    decreases |rs|
  {
    if rs == [] then 0
    else (if Cleared(h, t, rs[0], user) then 1 else 0) + Clears(h, Step(h, t, rs[0]).0, rs[1..], user)
  }

  /** Requests one after the other: each clock reading is at or after the one before. */
  ghost predicate InOrder(rs: seq<Request>, start: int) {
    rs == [] || (start <= rs[0].env.checkedAt <= rs[0].env.lockedAt && InOrder(rs[1..], rs[0].env.lockedAt))
  }

  function Max(a: int, b: int): int {
    if a < b then b else a
  }

  /** The first moment, from now on and inside the window, at which a guess can get through. */
  function Opens(t: Table, user: int, now: int, from: int): int {
    var m := Max(now, from);
    if user in t && t[user].lockedUntil.Some? then Max(m, t[user].lockedUntil.value) else m
  }

  /** How many wrong guesses the window still admits: those left before the next lock, and then one per lock. */
  function Budget(t: Table, user: int, now: int, from: int, length: nat): int {
    var end := from + length;
    var m := Opens(t, user, now, from);
    if end < m then 0
    else (if user in t then Max(1, MAX_PIN_ATTEMPTS - t[user].failed) else MAX_PIN_ATTEMPTS) + (end - m) / LOCK
  }

  lemma SlotsShrink(a: int, b: int)
    requires 0 <= a <= b
    ensures a / LOCK <= b / LOCK
    ensures a >= LOCK ==> (a - LOCK) / LOCK == a / LOCK - 1
  {
  }

  /** One request uses up one unit of the budget per wrong guess, unless a write was lost;
      a cleared counter gives at most five back. */
  lemma BudgetStep(h: Hasher, t: Table, r: Request, user: int, now: int, from: int, length: nat)
    requires Sane(t) && now <= r.env.checkedAt <= r.env.lockedAt
    ensures var t' := Step(h, t, r).0;
            var hit := WrongChecked(h, t, r, user) && InWindow(r, from, length);
            (if hit then 1 else 0) + Budget(t', user, r.env.lockedAt, from, length)
            <= Budget(t, user, now, from, length)
             + (if WriteLost(h, t, r, user) then 1 else 0)
             + (if Cleared(h, t, r, user) then MAX_PIN_ATTEMPTS else 0)
  {
  }

  lemma {:induction false} BudgetRun(h: Hasher, t: Table, rs: seq<Request>, user: int, now: int, from: int, length: nat)
    requires Sane(t) && InOrder(rs, now)
    ensures Wrong(h, t, rs, user, from, length)
         <= Budget(t, user, now, from, length) + Lost(h, t, rs, user) + MAX_PIN_ATTEMPTS * Clears(h, t, rs, user)
    decreases |rs|
  {
    if rs != [] {
      StepSane(h, t, rs[0]);
      BudgetStep(h, t, rs[0], user, now, from, length);
      BudgetRun(h, Step(h, t, rs[0]).0, rs[1..], user, rs[0].env.lockedAt, from, length);
    } else {
      var end, m := from + length, Opens(t, user, now, from);
      if m <= end { SlotsShrink(0, end - m); }
    }
  }

  /** From any state a run can reach, in any window, over any further run: the wrong PINs compared number at
      most 5 + length / 15 minutes, plus one per lost write, plus five per cleared counter. */
  lemma GuessRate(h: Hasher, before: seq<Request>, rs: seq<Request>, user: int, now: int, from: int, length: nat)
    requires InOrder(rs, now)
    ensures var t := Run(h, before);
            Wrong(h, t, rs, user, from, length)
            <= MAX_PIN_ATTEMPTS + length / LOCK + Lost(h, t, rs, user) + MAX_PIN_ATTEMPTS * Clears(h, t, rs, user)
  {
    RunSane(h, before);
    var t := Run(h, before);
    BudgetRun(h, t, rs, user, now, from, length);
    var end, m := from + length, Opens(t, user, now, from);
    if m <= end { SlotsShrink(end - m, length); } else { SlotsShrink(0, length); }
  }

  // ---- The bound is met exactly ----

  function Attempt(user: int, pin: string, at: int): Request {
    VerifyPIN(user, pin, Env(true, at, true, Answered, at, Answered))
  }

  /** n wrong guesses: five at time 0, then one each time the lock runs out. */
  function Siege(user: int, pin: string, k: nat, n: nat): seq<Request>
    requires k <= n
    decreases n - k
  {
    if k == n then [] else [Attempt(user, pin, if k < MAX_PIN_ATTEMPTS then 0 else (k - 4) * LOCK)] + Siege(user, pin, k + 1, n)
  }

  lemma SiegeStep(h: Hasher, t: Table, user: int, pin: string, k: nat)
    requires k < MAX_INT32 && user in t && !h.verify(t[user].hash, pin)
    requires t[user].failed == k && t[user].lockedUntil == if k < MAX_PIN_ATTEMPTS then None else Some((k - 4) * LOCK)
    ensures var r := Attempt(user, pin, if k < MAX_PIN_ATTEMPTS then 0 else (k - 4) * LOCK);
            var t' := Step(h, t, r).0;
            && user in t' && t'[user].hash == t[user].hash && t'[user].failed == k + 1
            && t'[user].lockedUntil == (if k + 1 < MAX_PIN_ATTEMPTS then None else Some((k - 3) * LOCK))
            && WrongChecked(h, t, r, user) && !WriteLost(h, t, r, user) && !Cleared(h, t, r, user)
  {
  }

  lemma {:induction false} SiegeSucceeds(h: Hasher, t: Table, user: int, pin: string, k: nat, n: nat, length: nat)
    requires k <= n < MAX_INT32 && user in t && !h.verify(t[user].hash, pin)
    requires t[user].failed == k && t[user].lockedUntil == if k < MAX_PIN_ATTEMPTS then None else Some((k - 4) * LOCK)
    requires length >= if n <= MAX_PIN_ATTEMPTS then 0 else (n - 5) * LOCK
    ensures var rs := Siege(user, pin, k, n);
            && Wrong(h, t, rs, user, 0, length) == n - k
            && Lost(h, t, rs, user) == 0 && Clears(h, t, rs, user) == 0
            && InOrder(rs, if k <= MAX_PIN_ATTEMPTS then 0 else (k - 5) * LOCK)
    decreases n - k
  {
    hide Step, WrongChecked, WriteLost, Cleared;
    if k < n {
      var r := Siege(user, pin, k, n)[0];
      assert Siege(user, pin, k, n)[1..] == Siege(user, pin, k + 1, n);
      SiegeStep(h, t, user, pin, k);
      SiegeSucceeds(h, Step(h, t, r).0, user, pin, k + 1, n, length);
    }
  }

  /** For every number of locks there is a run without lost writes or resets that reaches the bound. */
  lemma GuessRateIsTight(h: Hasher, user: int, hash: string, pin: string, locks: nat)
    requires !h.verify(hash, pin) && locks + MAX_PIN_ATTEMPTS < MAX_INT32
    ensures var t: Table := map[user := UserPin(hash, 0, None)];
            var rs := Siege(user, pin, 0, MAX_PIN_ATTEMPTS + locks);
            && InOrder(rs, 0) && Lost(h, t, rs, user) == 0 && Clears(h, t, rs, user) == 0
            && Wrong(h, t, rs, user, 0, locks * LOCK) == MAX_PIN_ATTEMPTS + (locks * LOCK) / LOCK
  {
    SiegeSucceeds(h, map[user := UserPin(hash, 0, None)], user, pin, 0, MAX_PIN_ATTEMPTS + locks, locks * LOCK);
  }
}
