/** What is stored for an address over every run, whatever is lost: the code stored last, a counter of guesses, and the
    version counter of a user. */
module OtpStored {
  import opened Common
  import opened Redis
  import opened Keyspace
  import opened TokenStore
  import opened OtpProtocol
  import opened OtpSafety

  /** The keys watched: code and guess counter of one address and flow, and the version of one user. */
  datatype Watched = Watched(code: string, attempts: string, version: string)

  function CodeFamily(flow: Flow): Family {
    if flow.Reset? then ResetCode else RegisterCode
  }

  function AttemptsFamily(flow: Flow): Family {
    if flow.Reset? then ResetAttempts else RegisterAttempts
  }

  function CooldownFamily(flow: Flow): Family {
    if flow.Reset? then ResetCooldown else RegisterCooldown
  }

  function Watch(flow: Flow, email: string, user: string): Watched {
    Watched(Key(CodeFamily(flow), email), Key(AttemptsFamily(flow), email), Key(TokenVersion, user))
  }

  /** The key of a counter holds a count. */
  predicate Counter(s: Store, k: string, least: int) {
    k in s.kv ==> s.kv[k].value.Count? && s.kv[k].value.count >= least
  }

  /** A stored code is the one stored last and will expire; the counters are counters; and every guess so far was judged
      right exactly when it was the code stored last. */
  ghost predicate Stored(s: Store, x: Watched, ttl: int, t: Tally) {
    CodeFits(s, x.code, ttl, t) && Counter(s, x.attempts, 1) && Counter(s, x.version, 1) && t.sound
  }

  ghost predicate Holds(cfg: OtpConfig, w: World, x: Watched, flow: Flow, email: string) {
    Stored(w.store, x, cfg.ttl, TallyOf(w.history, flow, email))
  }

  /** A key is none of the watched ones. */
  predicate Unwatched(k: string, x: Watched) {
    k != x.code && k != x.attempts && k != x.version
  }

  lemma Later(s: Store, s': Store, x: Watched, ttl: int, t: Tally)
    requires Stored(s, x, ttl, t) && s.now <= s'.now && Same(x.code, s, s') && Same(x.attempts, s, s') && Same(x.version, s, s')
    ensures Stored(s', x, ttl, t)
  {
  }

  lemma DelStored(s: Store, io: Io, k: string, x: Watched, ttl: int, t: Tally)
    requires Stored(s, x, ttl, t)
    ensures Stored(Del(s, io, k).0, x, ttl, t)
  {
  }

  lemma IncrStored(s: Store, io: Io, k: string, x: Watched, ttl: int, t: Tally)
    requires Stored(s, x, ttl, t) && k != x.code
    ensures Stored(Incr(s, io, k).0, x, ttl, t)
  {
  }

  lemma ExpireStored(s: Store, io: Io, k: string, life: int, x: Watched, ttl: int, t: Tally)
    requires Stored(s, x, ttl, t) && k != x.code
    ensures Stored(Redis.Expire(s, io, k, life).0, x, ttl, t)
  {
  }

  lemma AttemptsStored(s: Store, a: Io, b: Io, k: string, life: int, x: Watched, ttl: int, t: Tally)
    requires Stored(s, x, ttl, t) && k != x.code
    ensures Stored(IncrementAttempts(s, a, b, k, life).0, x, ttl, t)
  {
    hide Stored, Incr, Redis.Expire;
    IncrStored(s, a, k, x, ttl, t);
    ExpireStored(Incr(s, a, k).0, b, k, life, x, ttl, t);
  }

  lemma CooldownStored(s: Store, a: Io, b: Io, k: string, life: int, x: Watched, ttl: int, t: Tally)
    requires Stored(s, x, ttl, t) && Unwatched(k, x)
    ensures Stored(TryCooldown(s, a, b, k, life).0, x, ttl, t)
  {
    hide Stored, TryCooldown;
    CooldownElsewhere(s, a, b, k, life, x.code);
    CooldownElsewhere(s, a, b, k, life, x.attempts);
    CooldownElsewhere(s, a, b, k, life, x.version);
    Later(s, TryCooldown(s, a, b, k, life).0, x, ttl, t);
  }

  lemma SetStored(s: Store, io: Io, k: string, v: Value, life: int, x: Watched, ttl: int, t: Tally)
    requires Stored(s, x, ttl, t) && Unwatched(k, x)
    ensures Stored(Set(s, io, k, v, life).0, x, ttl, t)
  {
  }

  /** Storing a code starts its tally afresh. */
  lemma CodeStoredNow(s: Store, io: Io, k: string, h: string, x: Watched, ttl: int, t: Tally, own: bool)
    requires Stored(s, x, ttl, t) && ttl > 0 && k != x.attempts && k != x.version && (k == x.code <==> own)
    ensures Stored(Set(s, io, k, Text(h), ttl).0, x, ttl, if own
          && !io.fate.Dropped? then Tally(Some(h), false, 0, t.sound) else t)
  {
  }

  lemma IssueHolds(cfg: OtpConfig, f: Flow, w: World, e: string, k: FlowKeys, env: SendEnv, x: Watched, flow: Flow,
        email: string)
    requires cfg.Valid() && Holds(cfg, w, x, flow, email)
    requires k.code != x.attempts && k.code != x.version && (k.code == x.code <==> f == flow && e == email)
    requires Unwatched(k.cooldown, x)
    ensures Holds(cfg, IssueCode(cfg, f, w, e, k, env).0, x, flow, email)
  {
    hide Stored, TallyOf, TryCooldown, Set, Del;
    var t, own := TallyOf(w.history, flow, email), f == flow && e == email;
    CooldownStored(w.store, env.cooldown, env.remaining, k.cooldown, cfg.resendCooldown, x, cfg.ttl, t);
    var (s1, c) := TryCooldown(w.store, env.cooldown, env.remaining, k.cooldown, cfg.resendCooldown);
    if c.Ok? && c.value.0 && env.code.Some? {
      var h := cfg.hash(env.code.value);
      CodeStoredNow(s1, env.set_, k.code, h, x, cfg.ttl, t, own);
      var s2 := Set(s1, env.set_, k.code, Text(h), cfg.ttl).0;
      EmitTally(w.At(s2), !env.set_.fate.Dropped?, CodeSet(f, e, h), flow, email);
      var w2 := w.At(s2).Emit(!env.set_.fate.Dropped?, CodeSet(f, e, h));
      var s3 := Del(s2, env.clear, k.attempts).0;
      DelStored(s2, env.clear, k.attempts, x, cfg.ttl, TallyOf(w2.history, flow, email));
      EmitTally(w2.At(s3), !env.clear.fate.Dropped?, CounterCleared(f, e), flow, email);
      SameFacts(s3, x, cfg.ttl, TallyOf(w2.history, flow, email), TallyOf(w2.At(s3).Emit(!env.clear.fate.Dropped?,
            CounterCleared(f, e)).history, flow, email));
    }
  }

  /** Only the hash and the soundness of the tally matter. */
  lemma SameFacts(s: Store, x: Watched, ttl: int, t: Tally, t': Tally)
    requires Stored(s, x, ttl, t) && t'.hash == t.hash && t'.sound == t.sound
    ensures Stored(s, x, ttl, t')
  {
  }

  lemma GuessHolds(cfg: OtpConfig, f: Flow, w: World, e: string, k: FlowKeys, supplied: string, env: GuessEnv,
                   x: Watched, flow: Flow, email: string)
    requires Holds(cfg, w, x, flow, email) && k.attempts != x.code && (k.code == x.code <==> f == flow && e == email)
    ensures Holds(cfg, Guess(cfg, f, w, e, k, supplied, env).0, x, flow, email)
  {
    hide Stored, TallyOf, IncrementAttempts, Del;
    var t := TallyOf(w.history, flow, email);
    AttemptsStored(w.store, env.incr, env.expire, k.attempts, AttemptsTtl(cfg, f), x, cfg.ttl, t);
    var (s1, n) := IncrementAttempts(w.store, env.incr, env.expire, k.attempts, AttemptsTtl(cfg, f));
    DelStored(s1, env.drop, k.code, x, cfg.ttl, t);
    var (s2, stored) := Get(s1, env.get, k.code);
    Later(s1, s2, x, cfg.ttl, t);
    if stored.Ok? && stored.value.Some? {
      var right := stored.value.value == Text(supplied);
      EmitTally(w.At(s2), true, Guessed(f, e, supplied, right), flow, email);
      if f == flow && e == email {
        JudgedRight(s2, x, cfg.ttl, t, supplied, right);
      }
    }
  }

  lemma JudgedRight(s: Store, x: Watched, ttl: int, t: Tally, supplied: string, right: bool)
    requires Stored(s, x, ttl, t) && x.code in s.kv && (right <==> s.kv[x.code].value == Text(supplied))
    ensures Stored(s, x, ttl, t.(guesses := t.guesses + 1, sound := t.sound && (right <==> t.hash == Some(supplied))))
  {
  }

  lemma VerifyHolds(cfg: OtpConfig, w: World, e: string, k: FlowKeys, verified: string, code: string, env: VerifyEnv,
                    x: Watched, flow: Flow, email: string)
    requires Holds(cfg, w, x, flow, email) && k.attempts != x.code && (k.code == x.code <==> flow == Registration && e == email)
    requires Unwatched(verified, x)
    ensures Holds(cfg, Verify(cfg, w, e, k, verified, code, env).0, x, flow, email)
  {
    hide Stored, TallyOf, Guess, Set, Del;
    GuessHolds(cfg, Registration, w, e, k, cfg.hash(code), env.guess, x, flow, email);
    var (w1, v) := Guess(cfg, Registration, w, e, k, cfg.hash(code), env.guess);
    var t := TallyOf(w1.history, flow, email);
    DelStored(w1.store, env.consume, k.code, x, cfg.ttl, t);
    var s2 := Del(w1.store, env.consume, k.code).0;
    var w2 := w1.At(s2).Emit(!env.consume.fate.Dropped?, Consumed(e));
    EmitTally(w1.At(s2), !env.consume.fate.Dropped?, Consumed(e), flow, email);
    DelStored(s2, env.clear, k.attempts, x, cfg.ttl, t);
    var s3 := Del(s2, env.clear, k.attempts).0;
    SetStored(s3, env.mark, verified, Text("1"), cfg.emailVerifiedTTL, x, cfg.ttl, t);
    var s4 := Set(s3, env.mark, verified, Text("1"), cfg.emailVerifiedTTL).0;
    EmitTally(w2.At(s4), !env.mark.fate.Dropped?, Marked(e), flow, email);
  }

  lemma RegisterHolds(cfg: OtpConfig, w: World, req: RegisterInput, verified: string, env: RegisterEnv, x: Watched, flow: Flow,
                      email: string)
    requires Holds(cfg, w, x, flow, email) && Unwatched(verified, x)
    ensures Holds(cfg, Register(w, req, verified, env).0, x, flow, email)
  {
    hide Stored, TallyOf, AcceptablePassword;
    var s1 := GetDel(w.store, env.take, verified).0;
    Later(w.store, s1, x, cfg.ttl, TallyOf(w.history, flow, email));
    var w2 := w.At(s1).Emit(true, Taken(req.email));
    EmitTally(w.At(s1), true, Taken(req.email), flow, email);
    EmitTally(w2, true, Registered(req.email), flow, email);
  }

  lemma ResetHolds(cfg: OtpConfig, w: World, req: ResetInput, k: FlowKeys, version: string, env: ResetEnv,
                   x: Watched, flow: Flow, email: string)
    requires Holds(cfg, w, x, flow, email) && k.attempts != x.code && (k.code == x.code <==>
          flow == Reset && req.email == email)
    requires env.user.Some? ==> version != x.code
    ensures Holds(cfg, ResetPassword(cfg, w, req, k, version, env).0, x, flow, email)
  {
    hide Stored, TallyOf, Guess, Incr, Del;
    GuessHolds(cfg, Reset, w, req.email, k, cfg.hash(req.code), env.guess, x, flow, email);
    var (w1, v) := Guess(cfg, Reset, w, req.email, k, cfg.hash(req.code), env.guess);
    var t := TallyOf(w1.history, flow, email);
    EmitTally(w1, !env.updated.Dropped?, PasswordChanged(req.email), flow, email);
    if env.user.Some? {
      IncrStored(w1.store, env.upgrade, version, x, cfg.ttl, t);
      var s3 := Incr(w1.store, env.upgrade, version).0;
      DelStored(s3, env.consume, k.code, x, cfg.ttl, t);
      DelStored(Del(s3, env.consume, k.code).0, env.clear, k.attempts, x, cfg.ttl, t);
    }
  }

  lemma KeysOfFamilies(flow: Flow, email: string)
    ensures KeysOf(flow, email) == FlowKeys(Key(CodeFamily(flow), email), Key(AttemptsFamily(flow), email),
          Key(CooldownFamily(flow), email))
  {
  }

  lemma StepHolds(cfg: OtpConfig, w: World, c: Command, flow: Flow, email: string, user: string)
    requires cfg.Valid() && PlainCommand(c) && Plain(email) && Plain(user)
          && Holds(cfg, w, Watch(flow, email, user), flow, email)
    ensures Holds(cfg, Step(cfg, w, c), Watch(flow, email, user), flow, email)
  {
    hide Key, Stored, TallyOf, IssueCode, Verify, Register, ResetPassword, KeysOf;
    var x := Watch(flow, email, user);
    forall f, id | Plain(id)
      ensures Key(f, id) == x.code <==> f == CodeFamily(flow) && id == email
      ensures Key(f, id) == x.attempts <==> f == AttemptsFamily(flow) && id == email
      ensures Key(f, id) == x.version <==> f == TokenVersion && id == user
    {
      KeysDistinct(f, id, CodeFamily(flow), email);
      KeysDistinct(f, id, AttemptsFamily(flow), email);
      KeysDistinct(f, id, TokenVersion, user);
    }
    match c
    case Wait(d) => Later(w.store, Step(cfg, w, c).store, x, cfg.ttl, TallyOf(w.history, flow, email));
    case SendCmd(e, _, env) =>
      KeysOfFamilies(Registration, e);
      IssueHolds(cfg, Registration, w, e, KeysOf(Registration, e), env, x, flow, email);
    case ForgotCmd(e, _, env) =>
      KeysOfFamilies(Reset, e);
      IssueHolds(cfg, Reset, w, e, KeysOf(Reset, e), env, x, flow, email);
    case VerifyCmd(e, code, env) =>
      KeysOfFamilies(Registration, e);
      VerifyHolds(cfg, w, e, KeysOf(Registration, e), VerifiedKey(e), code, env, x, flow, email);
    case RegisterCmd(req, env) => RegisterHolds(cfg, w, req, VerifiedKey(req.email), env, x, flow, email);
    case ResetCmd(req, env) =>
      KeysOfFamilies(Reset, req.email);
      ResetHolds(cfg, w, req, KeysOf(Reset, req.email), VersionKey(env.user), env, x, flow, email);
    case ClaimCmd(id, _, _) => Later(w.store, Step(cfg, w, c).store, x, cfg.ttl, TallyOf(w.history, flow, email));
    case UpgradeCmd(id, io) => IncrStored(w.store, io, Key(TokenVersion, id), x, cfg.ttl, TallyOf(w.history, flow, email));
  }

  /** In every run, in either flow and whatever the lifetimes: what is stored for an address is its code stored last. */
  lemma {:induction false} RunHolds(cfg: OtpConfig, start: int, cmds: seq<Command>, flow: Flow, email: string, user: string)
    requires cfg.Valid() && PlainRun(cmds) && Plain(email) && Plain(user)
    ensures Holds(cfg, Run(cfg, start, cmds), Watch(flow, email, user), flow, email)
  {
    if cmds != [] {
      hide Step, Stored, Watch;
      var init := cmds[..|cmds| - 1];
      RunHolds(cfg, start, init, flow, email, user);
      StepHolds(cfg, Run(cfg, start, init), cmds[|cmds| - 1], flow, email, user);
    } else {
      NothingHolds(cfg, start, Watch(flow, email, user), flow, email);
    }
  }

  lemma NothingHolds(cfg: OtpConfig, start: int, x: Watched, flow: Flow, email: string)
    ensures Holds(cfg, Run(cfg, start, []), x, flow, email)
  {
  }

  /** In either flow, a guess is accepted exactly when it equals the code last stored for the address. */
  lemma OnlyTheLastCodeIsRight(cfg: OtpConfig, start: int, cmds: seq<Command>, flow: Flow, email: string, i: nat)
    requires cfg.Valid() && PlainRun(cmds) && Plain(email)
    requires var h := Run(cfg, start, cmds).history; i < |h| && h[i].Guessed? && h[i].flow == flow && h[i].email == email
    ensures var h := Run(cfg, start, cmds).history;
            h[i].right <==> TallyOf(h[..i], flow, email).hash == Some(h[i].hash)
  {
    RunHolds(cfg, start, cmds, flow, email, email);
    SoundAt(Run(cfg, start, cmds).history, flow, email, i);
  }
}
