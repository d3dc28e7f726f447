/** Runs that reach or break the guess bounds of OtpSafety, and so exactly when the bounds hold. */
module OtpLimits {
  import opened Common
  import opened Redis
  import opened Keyspace
  import opened TokenStore
  import opened OtpProtocol
  import opened OtpSafety

  const FINE := Io(0, Answered)
  const LOST := Io(0, Dropped)

  // ---- One code on stage ----

  /** A code is live; its counter stands at n, or is gone; and so many guesses were compared with the code. */
  ghost predicate Stage(w: World, flow: Flow, email: string, h: string, codeEnd: int, n: nat, counterEnd: int, guesses: nat, cleared: bool) {
    var keys, t := KeysOf(flow, email), TallyOf(w.history, flow, email);
    && keys.code in w.store.kv && w.store.kv[keys.code] == Entry(Text(h), Some(codeEnd)) && w.store.now < codeEnd
    && (if n == 0 then Lookup(w.store, keys.attempts) == None
        else Lookup(w.store, keys.attempts) == Some(Entry(Count(n), Some(counterEnd))))
    && t.hash == Some(h) && t.cleared == cleared && t.guesses == guesses
  }

  /** A guess in either flow; a reset with it stops after the comparison. */
  function Probe(flow: Flow, email: string, code: string): Command {
    match flow
    case Registration => VerifyCmd(email, code, VerifyEnv(GuessEnv(FINE, FINE, FINE, FINE), FINE, FINE, FINE))
    case Reset => ResetCmd(ResetInput(email, code, "password", "password"),
                           ResetEnv(GuessEnv(FINE, FINE, FINE, FINE), None, Dropped, FINE, false, FINE, FINE))
  }

  function Request(flow: Flow, email: string, code: string, clear: Io): Command {
    var env := SendEnv(FINE, FINE, Some(code), FINE, clear, true);
    if flow.Reset? then ForgotCmd(email, Some(true), env) else SendCmd(email, Some(false), env)
  }

  lemma StepOfProbe(cfg: OtpConfig, w: World, flow: Flow, email: string, code: string)
    requires email != "" && code != ""
    ensures var (w', v) := Guess(cfg, flow, w, email, KeysOf(flow, email), cfg.hash(code), GuessEnv(FINE, FINE, FINE, FINE));
            !v.Right? ==> Step(cfg, w, Probe(flow, email, code)) == w'
  {
    hide Guess, KeysOf;
  }

  lemma CounterStarts(s: Store, k: string, ttl: int)
    requires Lookup(s, k) == None && ttl > 0
    ensures IncrementAttempts(s, FINE, FINE, k, ttl) == (s.(kv := s.kv[k := Entry(Count(1), Some(s.now + ttl))]), Ok(1))
  {
    assert Incr(s, FINE, k) == (s.(kv := s.kv[k := Entry(Count(1), None)]), Ok(1));
    assert s.kv[k := Entry(Count(1), None)][k := Entry(Count(1), Some(s.now + ttl))] == s.kv[k := Entry(Count(1), Some(s.now + ttl))];
  }

  lemma CounterGoesOn(s: Store, k: string, ttl: int, n: nat, end: int)
    requires n >= 1 && Lookup(s, k) == Some(Entry(Count(n), Some(end)))
    ensures IncrementAttempts(s, FINE, FINE, k, ttl) == (s.(kv := s.kv[k := Entry(Count(n + 1), Some(end))]), Ok(n + 1))
  {
  }

  lemma CounterAdvances(s: Store, k: string, ttl: int, n: nat, end: int)
    requires ttl > 0 && Lookup(s, k) == if n == 0 then None else Some(Entry(Count(n), Some(end)))
    ensures IncrementAttempts(s, FINE, FINE, k, ttl)
         == (s.(kv := s.kv[k := Entry(Count(n + 1), Some(if n == 0 then s.now + ttl else end))]), Ok(n + 1))
  {
    if n == 0 {
      CounterStarts(s, k, ttl);
    } else {
      CounterGoesOn(s, k, ttl, n, end);
    }
  }

  lemma WrongGuess(cfg: OtpConfig, w: World, flow: Flow, email: string, code: string, h: string, codeEnd: int, n: nat,
                   counterEnd: int, guesses: nat, cleared: bool)
    requires cfg.Valid() && Plain(email) && email != "" && code != "" && cfg.hash(code) != h
    requires Stage(w, flow, email, h, codeEnd, n, counterEnd, guesses, cleared) && n < MaxGuesses(cfg, flow)
    requires n == 0 ==> counterEnd == w.store.now + AttemptsTtl(cfg, flow)
    ensures var w' := Step(cfg, w, Probe(flow, email, code));
            && Stage(w', flow, email, h, codeEnd, n + 1, counterEnd, guesses + 1, cleared)
            && w'.store.now == w.store.now
  {
    hide TallyOf, KeysOf, Key, IncrementAttempts;
    var keys := KeysOf(flow, email);
    OwnKeys(flow, email, flow, email);
    CounterAdvances(w.store, keys.attempts, AttemptsTtl(cfg, flow), n, counterEnd);
    var (s1, m) := IncrementAttempts(w.store, FINE, FINE, keys.attempts, AttemptsTtl(cfg, flow));
    StepOfProbe(cfg, w, flow, email, code);
    EmitTally(w.At(s1), true, Guessed(flow, email, cfg.hash(code), false), flow, email);
  }

  function Repeat(c: Command, n: nat): seq<Command> {
    if n == 0 then [] else Repeat(c, n - 1) + [c]
  }

  lemma {:induction false} RepeatPlain(c: Command, n: nat)
    requires PlainCommand(c)
    ensures PlainRun(Repeat(c, n)) && (TidyCommand(c) ==> TidyRun(Repeat(c, n)))
  {
    if n > 0 {
      RepeatPlain(c, n - 1);
    }
  }

  lemma {:induction false} WrongGuesses(cfg: OtpConfig, cmds: seq<Command>, flow: Flow, email: string, code: string, h: string,
                                        codeEnd: int, n: nat, counterEnd: int, guesses: nat, cleared: bool, more: nat)
    requires cfg.Valid() && Plain(email) && email != "" && code != "" && cfg.hash(code) != h
    requires Stage(Run(cfg, 0, cmds), flow, email, h, codeEnd, n, counterEnd, guesses, cleared) && n + more <= MaxGuesses(cfg, flow)
    requires n == 0 ==> counterEnd == Run(cfg, 0, cmds).store.now + AttemptsTtl(cfg, flow)
    ensures var w' := Run(cfg, 0, cmds + Repeat(Probe(flow, email, code), more));
            && Stage(w', flow, email, h, codeEnd, n + more, counterEnd, guesses + more, cleared)
            && w'.store.now == Run(cfg, 0, cmds).store.now
  {
    hide Stage, Step, TallyOf, Key, KeysOf, Probe, Run, AttemptsTtl, MaxGuesses;
    var c := Probe(flow, email, code);
    if more == 0 {
      assert cmds + Repeat(c, 0) == cmds;
    } else {
      WrongGuesses(cfg, cmds, flow, email, code, h, codeEnd, n, counterEnd, guesses, cleared, more - 1);
      var before := cmds + Repeat(c, more - 1);
      assert cmds + Repeat(c, more) == before + [c];
      RunSnoc(cfg, 0, before, c);
      WrongGuess(cfg, Run(cfg, 0, before), flow, email, code, h, codeEnd, n + more - 1, counterEnd, guesses + more - 1, cleared);
    }
  }

  // ---- Issuing a code ----

  lemma FreshCooldown(s: Store, k: string, ttl: int)
    requires k !in s.kv
    ensures TryCooldown(s, FINE, FINE, k, ttl) == (s.(kv := s.kv[k := Entry(Text("1"), ExpiryAfter(s.now, ttl))]), Ok((true, ttl)))
  {
    assert Arrive(s, FINE) == s;
    assert Lookup(s, k) == None;
    assert SetNX(s, FINE, k, Text("1"), ttl) == (s.(kv := s.kv[k := Entry(Text("1"), ExpiryAfter(s.now, ttl))]), Ok(true));
  }

  lemma Writes(s: Store, code: string, attempts: string, h: string, ttl: int, clear: Io)
    requires code != attempts && ttl > 0 && clear.delay == 0
    ensures Set(s, FINE, code, Text(h), ttl) == (s.(kv := s.kv[code := Entry(Text(h), Some(s.now + ttl))]), true)
    ensures var s' := Del(Set(s, FINE, code, Text(h), ttl).0, clear, attempts).0;
            && s'.now == s.now && code in s'.kv && s'.kv[code] == Entry(Text(h), Some(s.now + ttl))
            && Lookup(s', attempts) == if clear.fate.Dropped? then Lookup(s, attempts) else None
  {
  }

  /** A first request stores its code; the counter is cleared, or stays when that command is lost. */
  lemma IssueStarts(cfg: OtpConfig, w: World, flow: Flow, email: string, code: string, clear: Io)
    requires cfg.Valid() && Plain(email) && KeysOf(flow, email).cooldown !in w.store.kv && clear in {FINE, LOST}
    ensures var keys := KeysOf(flow, email);
            var w' := IssueCode(cfg, flow, w, email, keys, SendEnv(FINE, FINE, Some(code), FINE, clear, true)).0;
            && w'.store.now == w.store.now && keys.code in w'.store.kv
            && w'.store.kv[keys.code] == Entry(Text(cfg.hash(code)), Some(w.store.now + cfg.ttl))
            && Lookup(w'.store, keys.attempts) == (if clear == LOST then Lookup(w.store, keys.attempts) else None)
            && var t := TallyOf(w'.history, flow, email);
               t.hash == Some(cfg.hash(code)) && t.cleared == (clear == FINE) && t.guesses == 0
  {
    hide TryCooldown, Set, Del, TallyOf, Key, KeysOf;
    var keys, h := KeysOf(flow, email), cfg.hash(code);
    OwnKeys(flow, email, flow, email);
    FreshCooldown(w.store, keys.cooldown, cfg.resendCooldown);
    var s1 := TryCooldown(w.store, FINE, FINE, keys.cooldown, cfg.resendCooldown).0;
    Writes(s1, keys.code, keys.attempts, h, cfg.ttl, clear);
    var s2 := Set(s1, FINE, keys.code, Text(h), cfg.ttl).0;
    EmitTally(w.At(s2), true, CodeSet(flow, email, h), flow, email);
    var w2 := w.At(s2).Emit(true, CodeSet(flow, email, h));
    EmitTally(w2.At(Del(s2, clear, keys.attempts).0), !clear.fate.Dropped?, CounterCleared(flow, email), flow, email);
  }

  lemma RequestStarts(cfg: OtpConfig, w: World, flow: Flow, email: string, code: string, clear: Io, n: nat, end: int)
    requires cfg.Valid() && Plain(email) && PlausibleEmail(email) && KeysOf(flow, email).cooldown !in w.store.kv && clear in {FINE, LOST}
    requires if clear == FINE then n == 0
             else n >= 1 && Lookup(w.store, KeysOf(flow, email).attempts) == Some(Entry(Count(n), Some(end)))
    ensures var w' := Step(cfg, w, Request(flow, email, code, clear));
            Stage(w', flow, email, cfg.hash(code), w.store.now + cfg.ttl, n, end, 0, clear == FINE) && w'.store.now == w.store.now
  {
    hide IssueCode, KeysOf, TallyOf, Lookup;
    IssueStarts(cfg, w, flow, email, code, clear);
  }

  /** Time passes until the counter is gone, and the code is not. */
  lemma CounterExpires(cfg: OtpConfig, w: World, flow: Flow, email: string, h: string, codeEnd: int, n: nat, counterEnd: int,
                       guesses: nat, cleared: bool, d: nat, end: int)
    requires Stage(w, flow, email, h, codeEnd, n, counterEnd, guesses, cleared) && n >= 1
    requires counterEnd <= w.store.now + d < codeEnd
    ensures var w' := Step(cfg, w, Wait(d));
            Stage(w', flow, email, h, codeEnd, 0, end, guesses, cleared) && w'.store.now == w.store.now + d
  {
  }

  const EMPTY_STORE := Store(map[], 0)

  // ---- Registration: the bound for uncleared codes is reached ----

  /** A guess with no code at all starts the counter. */
  lemma EarlyGuess(cfg: OtpConfig, email: string, code: string)
    requires cfg.Valid() && Plain(email) && email != "" && code != ""
    ensures var w, keys := Step(cfg, World(EMPTY_STORE, []), Probe(Registration, email, code)), KeysOf(Registration, email);
            && w == World(Store(map[keys.attempts := Entry(Count(1), Some(cfg.ttl))], 0), [])
            && keys.code != keys.attempts && keys.cooldown != keys.attempts
  {
    hide KeysOf, Key, IncrementAttempts;
    var keys := KeysOf(Registration, email);
    OwnKeys(Registration, email, Registration, email);
    CounterStarts(EMPTY_STORE, keys.attempts, cfg.ttl);
    StepOfProbe(cfg, World(EMPTY_STORE, []), Registration, email, code);
  }

  /** For every configuration: one code whose counter was not cleared meets 2 * max - 1 guesses. */
  lemma UnclearedBoundIsReached(cfg: OtpConfig, email: string, code: string, wrong: string) returns (cmds: seq<Command>)
    requires cfg.Valid() && cfg.ttl >= 2 && PlausibleEmail(email) && Plain(email) && wrong != "" && cfg.hash(code) != cfg.hash(wrong)
    ensures PlainRun(cmds)
    ensures var t := TallyOf(Run(cfg, 0, cmds).history, Registration, email);
            !t.cleared && t.guesses == 2 * cfg.maxVerifyAttempts - 1
  {
    hide Stage, Step, TallyOf, Key, KeysOf, Run;
    var h, max, probe := cfg.hash(code), cfg.maxVerifyAttempts, Probe(Registration, email, wrong);
    var request := Request(Registration, email, code, LOST);
    RunEmpty(cfg);
    EarlyGuess(cfg, email, wrong);
    RunSnoc(cfg, 0, [], probe);
    RunSnoc(cfg, 0, [] + [probe], Wait(1));
    var early := [] + [probe] + [Wait(1)];
    WaitOne(cfg, Run(cfg, 0, [] + [probe]));
    RequestStarts(cfg, Run(cfg, 0, early), Registration, email, code, LOST, 1, cfg.ttl);
    RunSnoc(cfg, 0, early, request);
    var sent := early + [request];
    WrongGuesses(cfg, sent, Registration, email, wrong, h, cfg.ttl + 1, 1, cfg.ttl, 0, false, max - 1);
    var tried := sent + Repeat(probe, max - 1);
    var later := tried + [Wait(cfg.ttl - 1)];
    RunSnoc(cfg, 0, tried, Wait(cfg.ttl - 1));
    CounterExpires(cfg, Run(cfg, 0, tried), Registration, email, h, cfg.ttl + 1, max, cfg.ttl, max - 1, false, cfg.ttl - 1, cfg.ttl + cfg.ttl);
    WrongGuesses(cfg, later, Registration, email, wrong, h, cfg.ttl + 1, 0, cfg.ttl + cfg.ttl, max - 1, false, max);
    cmds := later + Repeat(probe, max);
    StageTally(Run(cfg, 0, cmds), Registration, email, h, cfg.ttl + 1, max, cfg.ttl + cfg.ttl, 2 * max - 1, false);
    RepeatPlain(probe, max - 1);
    RepeatPlain(probe, max);
  }

  lemma RunEmpty(cfg: OtpConfig)
    ensures Run(cfg, 0, []) == World(EMPTY_STORE, [])
  {
  }

  lemma WaitOne(cfg: OtpConfig, w: World)
    ensures Step(cfg, w, Wait(1)) == World(Store(w.store.kv, w.store.now + 1), w.history)
  {
  }

  lemma StageTally(w: World, flow: Flow, email: string, h: string, codeEnd: int, n: nat, counterEnd: int, guesses: nat, cleared: bool)
    requires Stage(w, flow, email, h, codeEnd, n, counterEnd, guesses, cleared)
    ensures TallyOf(w.history, flow, email).guesses == guesses && TallyOf(w.history, flow, email).cleared == cleared
  {
  }

  // ---- Reset: codes that outlive the fixed counter ----

  /** Waiting for the counter to expire buys a sixth guess. */
  lemma SixGuesses(cfg: OtpConfig, email: string, code: string, wrong: string) returns (cmds: seq<Command>)
    requires cfg.Valid() && PlausibleEmail(email) && Plain(email) && wrong != "" && cfg.hash(code) != cfg.hash(wrong)
    requires cfg.ttl > RESET_ATTEMPTS_TTL
    ensures PlainRun(cmds) && TidyRun(cmds)
    ensures var t := TallyOf(Run(cfg, 0, cmds).history, Reset, email); t.cleared && t.guesses == MAX_RESET_ATTEMPTS + 1
  {
    hide Stage, Step, TallyOf, Key, KeysOf, Run;
    var h, probe, request := cfg.hash(code), Probe(Reset, email, wrong), Request(Reset, email, code, FINE);
    RunEmpty(cfg);
    RequestStarts(cfg, World(EMPTY_STORE, []), Reset, email, code, FINE, 0, RESET_ATTEMPTS_TTL);
    RunSnoc(cfg, 0, [], request);
    var sent := [] + [request];
    WrongGuesses(cfg, sent, Reset, email, wrong, h, cfg.ttl, 0, RESET_ATTEMPTS_TTL, 0, true, MAX_RESET_ATTEMPTS);
    var tried := sent + Repeat(probe, MAX_RESET_ATTEMPTS);
    var later := tried + [Wait(RESET_ATTEMPTS_TTL)];
    RunSnoc(cfg, 0, tried, Wait(RESET_ATTEMPTS_TTL));
    CounterExpires(cfg, Run(cfg, 0, tried), Reset, email, h, cfg.ttl, 5, RESET_ATTEMPTS_TTL, 5, true, RESET_ATTEMPTS_TTL, 2 * RESET_ATTEMPTS_TTL);
    cmds := later + [probe];
    RunSnoc(cfg, 0, later, probe);
    WrongGuess(cfg, Run(cfg, 0, later), Reset, email, wrong, h, cfg.ttl, 0, 2 * RESET_ATTEMPTS_TTL, 5, true);
    StageTally(Run(cfg, 0, cmds), Reset, email, h, cfg.ttl, 1, 2 * RESET_ATTEMPTS_TTL, 6, true);
    RepeatPlain(probe, MAX_RESET_ATTEMPTS);
  }
}
