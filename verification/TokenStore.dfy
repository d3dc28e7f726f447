/** The token store of the auth service: every method is one or two commands on one key. */
module TokenStore {
  import opened Common
  import opened Redis
  import opened Keyspace

  /** INCR, then EXPIRE only for the first increment; a failed EXPIRE fails the call. */
  function IncrementAttempts(s: Store, incr: Io, expire: Io, k: string, ttl: int): (r: (Store, Result<int>))
  {
    var (s1, n) := Incr(s, incr, k);
    if n.Err? || n.value != 1 then (s1, n)
    else
      var (s2, ok) := Redis.Expire(s1, expire, k, ttl);
      (s2, if ok then n else Err(Failure))
  }

  /** SET NX of the cooldown mark; when it is taken, the remaining time is read. */
  function TryCooldown(s: Store, setnx: Io, remaining: Io, k: string, ttl: int): (r: (Store, Result<(bool, int)>))
  {
    var (s1, won) := SetNX(s, setnx, k, Text("1"), ttl);
    if won.Err? then (s1, Err(Failure))
    else if won.value then (s1, Ok((true, ttl)))
    else
      var (s2, t) := Ttl(s1, remaining, k);
      (s2, if t.Ok? then Ok((false, t.value)) else Err(Failure))
  }

  /** An answered increment counts one more than the live counter, dies no earlier than it
      did before, and touches no other key. */
  lemma IncrementCounts(s: Store, incr: Io, expire: Io, k: string, ttl: int)
    requires incr.fate.Answered? && expire.fate.Answered? && ttl > 0
    requires var e := Lookup(Arrive(s, incr), k); e.Some? ==> e.value.value.Count? && e.value.value.count > 0
    ensures var (s', n) := IncrementAttempts(s, incr, expire, k, ttl);
            var before := Lookup(Arrive(s, incr), k);
            && n == Ok(1 + if before.Some? then before.value.value.count else 0)
            && s'.kv - {k} == s.kv - {k}
            && (before.Some? ==> s'.kv[k].expiry == before.value.expiry)
            && (before.None? ==> Lookup(s', k) == Some(Entry(Count(1), Some(s'.now + ttl))))
  {
  }

  /** The two methods of two commands refine as their commands do. */
  lemma IncrementAttemptsRefines(s: Store, incr: Io, expire: Io, f: Family, id: string, ttl: int)
    requires Plain(id)
    ensures var (s', r) := IncrementAttempts(s, incr, expire, Key(f, id), ttl);
            IncrementAttempts(View(s, f), incr, expire, id, ttl) == (View(s', f), r) && OthersKept(s, s', f)
  {
    hide Project, Key, Incr, Redis.Expire;
    IncrRefines(s, incr, f, id);
    ExpireRefines(Incr(s, incr, Key(f, id)).0, expire, f, id, ttl);
  }

  lemma TryCooldownRefines(s: Store, setnx: Io, remaining: Io, f: Family, id: string, ttl: int)
    requires Plain(id)
    ensures var (s', r) := TryCooldown(s, setnx, remaining, Key(f, id), ttl);
            TryCooldown(View(s, f), setnx, remaining, id, ttl) == (View(s', f), r) && OthersKept(s, s', f)
  {
    hide Project, Key, SetNX, Ttl;
    SetNXRefines(s, setnx, f, id, Text("1"), ttl);
    TtlRefines(SetNX(s, setnx, Key(f, id), Text("1"), ttl).0, remaining, f, id);
  }

  /** Of two cooldown claims within the cooldown, only the first is granted. */
  lemma CooldownExcludes(s: Store, a: Io, b: Io, k: string, ttl: int, wait: nat)
    requires a.fate.Answered? && b.fate.Answered? && ttl > 0
    requires TryCooldown(s, a, b, k, ttl).1 == Ok((true, ttl))
    ensures var t := TryCooldown(s, a, b, k, ttl).0;
            var again := TryCooldown(t.(now := t.now + wait), Io(0, Answered), Io(0, Answered), k, ttl).1;
            again == if wait < ttl then Ok((false, ttl - wait)) else Ok((true, ttl))
  {
  }

  class RedisStore {
    const client: Client

    constructor (c: Client)
      ensures client == c
    {
      client := c;
    }

    ghost function State(): Store
      reads this, client
    {
      client.State()
    }

    method UpgradeTokenVersion(io: Io, userId: string) returns (ok: bool)
      modifies client
      ensures State() == Incr(old(State()), io, Key(TokenVersion, userId)).0
      ensures ok == Incr(old(State()), io, Key(TokenVersion, userId)).1.Ok?
    {
      var r := client.IncrCommand(io, Key(TokenVersion, userId));
      ok := r.Ok?;
    }

    /** The version of a user whose key is missing is 0. */
    method GetTokenVersion(io: Io, userId: string) returns (r: Result<int>)
      modifies client
      ensures State() == Arrive(old(State()), io)
      ensures io.fate.Answered? ==>
        match Lookup(State(), Key(TokenVersion, userId))
        case None => r == Ok(0)
        case Some(Entry(Count(n), _)) => r == Ok(n)
        case _ => r == Err(Failure)
      ensures !io.fate.Answered? ==> r == Err(Failure)
    {
      var v := client.GetCommand(io, Key(TokenVersion, userId));
      match v
      case Ok(None) => r := Ok(0);
      case Ok(Some(Count(n))) => r := Ok(n);
      case _ => r := Err(Failure);
    }

    /** True when the token had been claimed before. */
    method ClaimRefreshToken(io: Io, tokenId: string, ttl: int) returns (r: Result<bool>)
      modifies client
      ensures State() == SetNX(old(State()), io, Key(RefreshClaim, tokenId), Text("claimed"), ttl).0
      ensures io.fate.Answered? ==> r == Ok(Lookup(Arrive(old(State()), io), Key(RefreshClaim, tokenId)).Some?)
      ensures !io.fate.Answered? ==> r.Err?
    {
      var won := client.SetNXCommand(io, Key(RefreshClaim, tokenId), Text("claimed"), ttl);
      if won.Err? {
        return Err(Failure);
      }
      return Ok(!won.value);
    }

    method SetOTP(io: Io, code: Family, email: string, otpHash: string, ttl: int) returns (ok: bool)
      requires code.RegisterCode? || code.ResetCode?
      modifies client
      ensures (State(), ok) == Set(old(State()), io, Key(code, email), Text(otpHash), ttl)
    {
      ok := client.SetCommand(io, Key(code, email), Text(otpHash), ttl);
    }

    method GetOTP(io: Io, code: Family, email: string) returns (r: Result<Option<Value>>)
      requires code.RegisterCode? || code.ResetCode?
      modifies client
      ensures (State(), r) == Get(old(State()), io, Key(code, email))
    {
      r := client.GetCommand(io, Key(code, email));
    }

    method Delete(io: Io, f: Family, email: string) returns (ok: bool)
      requires f.RegisterCode? || f.ResetCode? || f.RegisterAttempts? || f.ResetAttempts?
      modifies client
      ensures (State(), ok) == Del(old(State()), io, Key(f, email))
    {
      ok := client.DelCommand(io, Key(f, email));
    }

    method IncrementOTPAttempts(incr: Io, expire: Io, f: Family, email: string, ttl: int) returns (r: Result<int>)
      requires f.RegisterAttempts? || f.ResetAttempts?
      modifies client
      ensures (State(), r) == IncrementAttempts(old(State()), incr, expire, Key(f, email), ttl)
    {
      r := client.IncrCommand(incr, Key(f, email));
      if r.Ok? && r.value == 1 {
        var ok := client.ExpireCommand(expire, Key(f, email), ttl);
        if !ok {
          r := Err(Failure);
        }
      }
    }

    method TrySetResendCooldown(setnx: Io, remaining: Io, f: Family, email: string, ttl: int)
      returns (r: Result<(bool, int)>)
      requires f.RegisterCooldown? || f.ResetCooldown?
      modifies client
      ensures (State(), r) == TryCooldown(old(State()), setnx, remaining, Key(f, email), ttl)
    {
      var won := client.SetNXCommand(setnx, Key(f, email), Text("1"), ttl);
      if won.Err? {
        return Err(Failure);
      }
      if won.value {
        return Ok((true, ttl));
      }
      var t := client.TtlCommand(remaining, Key(f, email));
      if t.Err? {
        return Err(Failure);
      }
      return Ok((false, t.value));
    }

    method MarkEmailVerified(io: Io, email: string, ttl: int) returns (ok: bool)
      modifies client
      ensures (State(), ok) == Set(old(State()), io, Key(RegisterVerified, email), Text("1"), ttl)
    {
      ok := client.SetCommand(io, Key(RegisterVerified, email), Text("1"), ttl);
    }

    method ConsumeEmailVerified(io: Io, email: string) returns (r: Result<bool>)
      modifies client
      ensures (State(), r) == GetDel(old(State()), io, Key(RegisterVerified, email))
    {
      r := client.GetDelCommand(io, Key(RegisterVerified, email));
    }
  }
}
