/** Redis as the services use it: one flat map from string keys to values with an optional
    expiry, a server clock, and calls that may fail before or after taking effect. */
module Redis {
  import opened Common

  datatype Value = Text(text: string) | Count(count: int)

  datatype Entry = Entry(value: Value, expiry: Option<int>)

  datatype Store = Store(kv: map<string, Entry>, now: int)

  /** Time passes before a command is executed. */
  datatype Io = Io(delay: nat, fate: Fate)

  predicate LiveAt(e: Entry, now: int) {
    e.expiry.Some? ==> now < e.expiry.value
  }

  /** A key past its expiry is indistinguishable from an absent key. */
  function Lookup(s: Store, k: string): (r: Option<Entry>)
  {
    if k in s.kv && LiveAt(s.kv[k], s.now) then Some(s.kv[k]) else None
  }

  /** Expiry given to a SET with a time to live: none when the duration is not positive. */
  function ExpiryAfter(now: int, ttl: int): Option<int> {
    if ttl > 0 then Some(now + ttl) else None
  }

  function Arrive(s: Store, io: Io): Store {
    s.(now := s.now + io.delay)
  }

  /** SET key value with a time to live. */
  function Set(s0: Store, io: Io, k: string, v: Value, ttl: int): (r: (Store, bool))
  {
    var s := Arrive(s0, io);
    if io.fate.Dropped? then (s, false)
    else (s.(kv := s.kv[k := Entry(v, ExpiryAfter(s.now, ttl))]), io.fate.Answered?)
  }

  /** DEL key. */
  function Del(s0: Store, io: Io, k: string): (r: (Store, bool))
  {
    var s := Arrive(s0, io);
    if io.fate.Dropped? then (s, false) else (s.(kv := s.kv - {k}), io.fate.Answered?)
  }

  /** GET key: an error, or the live value if there is one. */
  function Get(s0: Store, io: Io, k: string): (r: (Store, Result<Option<Value>>))
  {
    var s := Arrive(s0, io);
    if !io.fate.Answered? then (s, Err(Failure))
    else
      var e := Lookup(s, k);
      (s, Ok(if e.Some? then Some(e.value.value) else None))
  }

  /** INCR key: creates 1 without expiry, keeps the expiry of a live counter, rejects text. */
  function Incr(s0: Store, io: Io, k: string): (r: (Store, Result<int>))
  {
    var s := Arrive(s0, io);
    if io.fate.Dropped? then (s, Err(Failure))
    else
      match Lookup(s, k)
      case Some(Entry(Text(_), _)) => (s, Err(Failure))
      case Some(Entry(Count(n), x)) =>
        (s.(kv := s.kv[k := Entry(Count(n + 1), x)]), if io.fate.Answered? then Ok(n + 1) else Err(Failure))
      case None =>
        (s.(kv := s.kv[k := Entry(Count(1), None)]), if io.fate.Answered? then Ok(1) else Err(Failure))
  }

  /** EXPIRE key: gives a live key a new expiry; a duration that is not positive deletes it. */
  function Expire(s0: Store, io: Io, k: string, ttl: int): (r: (Store, bool))
  {
    var s := Arrive(s0, io);
    if io.fate.Dropped? then (s, false)
    else if Lookup(s, k).None? then (s, io.fate.Answered?)
    else if ttl <= 0 then (s.(kv := s.kv - {k}), io.fate.Answered?)
    else (s.(kv := s.kv[k := s.kv[k].(expiry := Some(s.now + ttl))]), io.fate.Answered?)
  }

  /** SET key value NX: takes effect only when no live key is there; answers whether it did. */
  function SetNX(s0: Store, io: Io, k: string, v: Value, ttl: int): (r: (Store, Result<bool>))
  {
    var s := Arrive(s0, io);
    if io.fate.Dropped? then (s, Err(Failure))
    else if Lookup(s, k).Some? then (s, if io.fate.Answered? then Ok(false) else Err(Failure))
    else
      (s.(kv := s.kv[k := Entry(v, ExpiryAfter(s.now, ttl))]), if io.fate.Answered? then Ok(true) else Err(Failure))
  }

  /** TTL key: remaining time, -1 without expiry, -2 without a live key. */
  function Ttl(s0: Store, io: Io, k: string): (r: (Store, Result<int>))
  {
    var s := Arrive(s0, io);
    if !io.fate.Answered? then (s, Err(Failure))
    else
      match Lookup(s, k)
      case None => (s, Ok(-2))
      case Some(Entry(_, None)) => (s, Ok(-1))
      case Some(Entry(_, Some(x))) => (s, Ok(x - s.now))
  }

  /** GETDEL key: answers whether a live key was there, and removes it. */
  function GetDel(s0: Store, io: Io, k: string): (r: (Store, Result<bool>))
  {
    var s := Arrive(s0, io);
    if io.fate.Dropped? then (s, Err(Failure))
    else (s.(kv := s.kv - {k}), if io.fate.Answered? then Ok(Lookup(s, k).Some?) else Err(Failure))
  }

  /** The server, updated in place by each command. */
  class Client {
    var kv: map<string, Entry>
    var now: int

    ghost function State(): Store
      reads this
    {
      Store(kv, now)
    }

    constructor (start: int)
      ensures State() == Store(map[], start)
    {
      kv, now := map[], start;
    }

    method Advance(d: nat)
      modifies this
      ensures State() == Store(old(kv), old(now) + d)
    {
      now := now + d;
    }

    method SetCommand(io: Io, k: string, v: Value, ttl: int) returns (ok: bool)
      modifies this
      ensures (State(), ok) == Set(old(State()), io, k, v, ttl)
    {
      now := now + io.delay;
      if !io.fate.Dropped? {
        kv := kv[k := Entry(v, ExpiryAfter(now, ttl))];
      }
      ok := io.fate.Answered?;
    }

    method DelCommand(io: Io, k: string) returns (ok: bool)
      modifies this
      ensures (State(), ok) == Del(old(State()), io, k)
    {
      now := now + io.delay;
      if !io.fate.Dropped? {
        kv := kv - {k};
      }
      ok := io.fate.Answered?;
    }

    method GetCommand(io: Io, k: string) returns (r: Result<Option<Value>>)
      modifies this
      ensures (State(), r) == Get(old(State()), io, k)
    {
      now := now + io.delay;
      if !io.fate.Answered? {
        return Err(Failure);
      }
      if k in kv && LiveAt(kv[k], now) {
        return Ok(Some(kv[k].value));
      }
      return Ok(None);
    }

    method IncrCommand(io: Io, k: string) returns (r: Result<int>)
      modifies this
      ensures (State(), r) == Incr(old(State()), io, k)
    {
      now := now + io.delay;
      if io.fate.Dropped? {
        return Err(Failure);
      }
      var n := 0;
      var expiry := None;
      if k in kv && LiveAt(kv[k], now) {
        if kv[k].value.Text? {
          return Err(Failure);
        }
        n, expiry := kv[k].value.count, kv[k].expiry;
      }
      kv := kv[k := Entry(Count(n + 1), expiry)];
      r := if io.fate.Answered? then Ok(n + 1) else Err(Failure);
    }

    method ExpireCommand(io: Io, k: string, ttl: int) returns (ok: bool)
      modifies this
      ensures (State(), ok) == Expire(old(State()), io, k, ttl)
    {
      now := now + io.delay;
      if !io.fate.Dropped? && k in kv && LiveAt(kv[k], now) {
        if ttl <= 0 {
          kv := kv - {k};
        } else {
          kv := kv[k := kv[k].(expiry := Some(now + ttl))];
        }
      }
      ok := io.fate.Answered?;
    }

    method SetNXCommand(io: Io, k: string, v: Value, ttl: int) returns (r: Result<bool>)
      modifies this
      ensures (State(), r) == SetNX(old(State()), io, k, v, ttl)
    {
      now := now + io.delay;
      if io.fate.Dropped? {
        return Err(Failure);
      }
      var taken := k in kv && LiveAt(kv[k], now);
      if !taken {
        kv := kv[k := Entry(v, ExpiryAfter(now, ttl))];
      }
      r := if io.fate.Answered? then Ok(!taken) else Err(Failure);
    }

    method TtlCommand(io: Io, k: string) returns (r: Result<int>)
      modifies this
      ensures (State(), r) == Ttl(old(State()), io, k)
    {
      now := now + io.delay;
      if !io.fate.Answered? {
        return Err(Failure);
      }
      if k !in kv || !LiveAt(kv[k], now) {
        return Ok(-2);
      }
      match kv[k].expiry
      case None => r := Ok(-1);
      case Some(x) => r := Ok(x - now);
    }

    method GetDelCommand(io: Io, k: string) returns (r: Result<bool>)
      modifies this
      ensures (State(), r) == GetDel(old(State()), io, k)
    {
      now := now + io.delay;
      if io.fate.Dropped? {
        return Err(Failure);
      }
      var found := k in kv && LiveAt(kv[k], now);
      kv := kv - {k};
      r := if io.fate.Answered? then Ok(found) else Err(Failure);
    }
  }
}
