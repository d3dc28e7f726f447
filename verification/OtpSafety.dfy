/** Safety of the one-time codes over every run: guesses per code are bounded, only the code
    last sent is accepted, and codes, verifications and registrations are used up one by one. */
module OtpSafety {
  import opened Common
  import opened Redis
  import opened Keyspace
  import opened TokenStore
  import opened OtpProtocol

  /** What the history says about the code last stored for one address and flow: its hash, whether the guess counter
      was cleared for it, how many guesses were compared with it, and whether every guess so far was judged right
      exactly when it equalled the code. */
  datatype Tally = Tally(hash: Option<string>, cleared: bool, guesses: nat, sound: bool)

  function Tallied(t: Tally, flow: Flow, email: string, ev: Event): Tally {
    match ev
    case CodeSet(f, e, h) =>
      if f == flow && e == email then t.(hash := Some(h), cleared := false, guesses := 0) else t
    case CounterCleared(f, e) =>
      if f == flow && e == email then t.(cleared := true) else t
    case Guessed(f, e, h, right) =>
      if f == flow && e == email
      then t.(guesses := t.guesses + 1, sound := t.sound && (right <==> t.hash == Some(h)))
      else t
    case _ => t
  }

  function TallyOf(h: seq<Event>, flow: Flow, email: string): Tally {
    if h == [] then Tally(None, false, 0, true)
    else Tallied(TallyOf(h[..|h| - 1], flow, email), flow, email, h[|h| - 1])
  }

  lemma TallyAppend(h: seq<Event>, ev: Event, flow: Flow, email: string)
    ensures TallyOf(h + [ev], flow, email) == Tallied(TallyOf(h, flow, email), flow, email, ev)
  {
  }

  lemma EmitTally(w: World, happened: bool, ev: Event, flow: Flow, email: string)
    ensures TallyOf(w.Emit(happened, ev).history, flow, email)
         == if happened then Tallied(TallyOf(w.history, flow, email), flow, email, ev) else TallyOf(w.history, flow, email)
  {
  }

  // ---- The invariant for one address and flow ----

  /** The live counter has counted so many guesses and does not expire before the code. */
  ghost predicate Covered(s: Store, ck: string, ak: string, guesses: nat) {
    ck in s.kv && s.kv[ck].expiry.Some? &&
    match Lookup(s, ak)
    case None => guesses == 0
    case Some(Entry(Count(n), None)) => guesses <= n
    case Some(Entry(Count(n), Some(x))) => guesses <= n && s.kv[ck].expiry.value <= x
    case _ => false
  }

  /** The counter is one that was there before the code, so it has counted more than the guesses at the code; it may
      expire before the code does. */
  ghost predicate Older(s: Store, ak: string, guesses: nat, max: int) {
    guesses < max &&
    match Lookup(s, ak)
    case Some(Entry(Count(n), _)) => guesses < n
    case _ => false
  }

  /** The guesses at a code with an uncleared counter that the older counter cannot account for. */
  function Excess(guesses: nat, max: int): nat {
    if guesses < max then 0 else if max < 1 then guesses else guesses - max + 1
  }

  /** The most guesses one code can meet: a counter that outlived the previous code and was not cleared can expire
      under the new one, after one guess less than the limit. */
  function Bound(t: Tally, max: int): int {
    if t.cleared then max else 2 * max - 1
  }

  ghost predicate Tracked(s: Store, ck: string, ak: string, max: int, t: Tally) {
    if t.cleared then Covered(s, ck, ak, t.guesses)
    else Covered(s, ck, ak, Excess(t.guesses, max)) || Older(s, ak, t.guesses, max)
  }

  ghost predicate CodeFits(s: Store, ck: string, ttl: int, t: Tally) {
    ck in s.kv ==>
      && t.hash.Some? && s.kv[ck].value == Text(t.hash.value)
      && s.kv[ck].expiry.Some? && s.kv[ck].expiry.value <= s.now + ttl
  }

  ghost predicate Guarded(s: Store, ck: string, ak: string, ttl: int, max: int, t: Tally) {
    && CodeFits(s, ck, ttl, t)
    && (ak in s.kv ==> s.kv[ak].value.Count? && s.kv[ak].value.count >= 1)
    && t.sound
    && t.guesses <= Bound(t, max)
    && (Lookup(s, ck).Some? ==> Tracked(s, ck, ak, max, t))
  }

  ghost predicate Inv(cfg: OtpConfig, flow: Flow, email: string, keys: FlowKeys, w: World) {
    Guarded(w.store, keys.code, keys.attempts, cfg.ttl, MaxGuesses(cfg, flow), TallyOf(w.history, flow, email))
  }

  ghost predicate Same(k: string, s: Store, s': Store) {
    (k in s.kv <==> k in s'.kv) && (k in s.kv ==> s.kv[k] == s'.kv[k])
  }

  /** Time passing and changes of other keys keep the invariant. */
  lemma Elsewhere(s: Store, s': Store, ck: string, ak: string, ttl: int, max: int, t: Tally)
    requires Guarded(s, ck, ak, ttl, max, t)
    requires Same(ck, s, s') && Same(ak, s, s') && s.now <= s'.now
    ensures Guarded(s', ck, ak, ttl, max, t)
  {
  }

  lemma IncrementElsewhere(s: Store, a: Io, b: Io, k: string, ttl: int, k': string)
    requires k != k'
    ensures var s' := IncrementAttempts(s, a, b, k, ttl).0; Same(k', s, s') && s.now <= s'.now
  {
  }

  lemma CooldownElsewhere(s: Store, a: Io, b: Io, k: string, ttl: int, k': string)
    requires k != k'
    ensures var s' := TryCooldown(s, a, b, k, ttl).0; Same(k', s, s') && s.now <= s'.now
  {
  }

  /** Two key triples meet only in the same position, and only when they belong together. */
  ghost predicate Apart(k: FlowKeys, k': FlowKeys, same: bool) {
    && (k.code == k'.code <==> same) && (k.attempts == k'.attempts <==> same)
    && k.code != k'.attempts && k.attempts != k'.code
    && k.code != k'.cooldown && k.attempts != k'.cooldown
    && k.code != k.attempts
  }

  ghost predicate Foreign(k: FlowKeys, other: string) {
    k.code != other && k.attempts != other
  }

  lemma OwnKeys(flow: Flow, email: string, flow': Flow, email': string)
    requires Plain(email) && Plain(email')
    ensures Apart(KeysOf(flow, email), KeysOf(flow', email'), flow == flow' && email == email')
  {
    var c, a := if flow.Reset? then ResetCode else RegisterCode, if flow.Reset? then ResetAttempts else RegisterAttempts;
    var c', a' := if flow'.Reset? then ResetCode else RegisterCode, if flow'.Reset? then ResetAttempts else RegisterAttempts;
    var d' := if flow'.Reset? then ResetCooldown else RegisterCooldown;
    KeysDistinct(c, email, c', email');
    KeysDistinct(a, email, a', email');
    KeysDistinct(c, email, a', email');
    KeysDistinct(a, email, c', email');
    KeysDistinct(c, email, d', email');
    KeysDistinct(a, email, d', email');
    KeysDistinct(c, email, a, email);
  }

  lemma ForeignKey(flow: Flow, email: string, f: Family, id: string)
    requires Plain(email) && Plain(id)
    requires f.RegisterVerified? || f.TokenVersion? || f.RefreshClaim?
    ensures Foreign(KeysOf(flow, email), Key(f, id))
  {
    KeysDistinct(if flow.Reset? then ResetCode else RegisterCode, email, f, id);
    KeysDistinct(if flow.Reset? then ResetAttempts else RegisterAttempts, email, f, id);
  }

  // ---- Each operation keeps it ----

  /** Storing a code starts its tally afresh. */
  lemma CodeStored(s: Store, io: Io, k: string, h: string, ck: string, ak: string, ttl: int, max: int, t: Tally, own: bool)
    requires Guarded(s, ck, ak, ttl, max, t) && ttl > 0 && max >= 1
    requires k != ak && (ck == k <==> own)
    ensures Guarded(Set(s, io, k, Text(h), ttl).0, ck, ak, ttl, max,
                    if own && !io.fate.Dropped? then Tally(Some(h), false, 0, t.sound) else t)
  {
  }

  /** Clearing the counter of a code nobody guessed at yet makes the bound hold for it. */
  lemma CounterRemoved(s: Store, io: Io, k: string, ck: string, ak: string, ttl: int, max: int, t: Tally, own: bool)
    requires Guarded(s, ck, ak, ttl, max, t) && max >= 0
    requires k != ck && (ak == k <==> own)
    requires own ==> t.guesses == 0
    ensures Guarded(Del(s, io, k).0, ck, ak, ttl, max, if own && !io.fate.Dropped? then t.(cleared := true) else t)
  {
  }

  lemma IssueKeeps(cfg: OtpConfig, f: Flow, w: World, e: string, k: FlowKeys, env: SendEnv,
                   flow: Flow, email: string, keys: FlowKeys)
    requires cfg.Valid() && Apart(keys, k, flow == f && email == e) && Inv(cfg, flow, email, keys, w)
    ensures Inv(cfg, flow, email, keys, IssueCode(cfg, f, w, e, k, env).0)
  {
    hide Guarded, TallyOf, Tracked, TryCooldown, IncrementAttempts;
    var own := flow == f && email == e;
    var ck, ak, t, max := keys.code, keys.attempts, TallyOf(w.history, flow, email), MaxGuesses(cfg, flow);
    CooldownElsewhere(w.store, env.cooldown, env.remaining, k.cooldown, cfg.resendCooldown, ck);
    CooldownElsewhere(w.store, env.cooldown, env.remaining, k.cooldown, cfg.resendCooldown, ak);
    var (s1, c) := TryCooldown(w.store, env.cooldown, env.remaining, k.cooldown, cfg.resendCooldown);
    Elsewhere(w.store, s1, ck, ak, cfg.ttl, max, t);
    if c.Ok? && c.value.0 && env.code.Some? {
      var h := cfg.hash(env.code.value);
      var (s2, ok2) := Set(s1, env.set_, k.code, Text(h), cfg.ttl);
      CodeStored(s1, env.set_, k.code, h, ck, ak, cfg.ttl, max, t, own);
      EmitTally(w.At(s2), !env.set_.fate.Dropped?, CodeSet(f, e, h), flow, email);
      var w2 := w.At(s2).Emit(!env.set_.fate.Dropped?, CodeSet(f, e, h));
      if ok2 {
        var (s3, ok3) := Del(s2, env.clear, k.attempts);
        CounterRemoved(s2, env.clear, k.attempts, ck, ak, cfg.ttl, max, TallyOf(w2.history, flow, email), own);
        EmitTally(w2.At(s3), !env.clear.fate.Dropped?, CounterCleared(f, e), flow, email);
      }
    }
  }

  /** The counter has counted a guess that is about to be compared. */
  ghost predicate Counted(s: Store, ck: string, ak: string, max: int, t: Tally, n: int) {
    if t.cleared then t.guesses < n && Covered(s, ck, ak, t.guesses + 1)
    else
      || (Excess(t.guesses + 1, max) <= n && Covered(s, ck, ak, Excess(t.guesses + 1, max)))
      || (t.guesses + 1 < n && (Lookup(s, ak).Some? ==> Lookup(s, ak).value.value == Count(n)))
  }

  /** Counting a guess: afterwards the counter covers one guess more than before. */
  lemma CountCovers(s: Store, a: Io, b: Io, ck: string, ak: string, ttl: int, attemptsTtl: int, max: int, t: Tally)
    requires ck != ak && 0 < ttl <= attemptsTtl && max >= 1
    requires Guarded(s, ck, ak, ttl, max, t)
    ensures var (s', n) := IncrementAttempts(s, a, b, ak, attemptsTtl);
            && Guarded(s', ck, ak, ttl, max, t)
            && s.now <= s'.now
            && (n.Ok? && Lookup(s', ck).Some? ==> Counted(s', ck, ak, max, t, n.value))
  {
    var (s1, n) := Incr(s, a, ak);
    assert Same(ck, s, s1);
    assert Guarded(s1, ck, ak, ttl, max, t);
  }

  /** Comparing a counted guess with the live code. */
  lemma GuessRecorded(s: Store, ck: string, ak: string, ttl: int, max: int, t: Tally, supplied: string, n: int)
    requires Guarded(s, ck, ak, ttl, max, t) && Lookup(s, ck).Some? && n <= max
    requires Counted(s, ck, ak, max, t, n)
    ensures var right := s.kv[ck].value == Text(supplied);
            Guarded(s, ck, ak, ttl, max, t.(guesses := t.guesses + 1, sound := t.sound && (right <==> t.hash == Some(supplied))))
  {
  }

  lemma CountedLater(s: Store, s': Store, ck: string, ak: string, max: int, t: Tally, n: int)
    requires Counted(s, ck, ak, max, t, n) && s'.kv == s.kv && s.now <= s'.now && Lookup(s', ck).Some?
    requires n <= max
    ensures Counted(s', ck, ak, max, t, n)
  {
  }

  /** Guesses at other codes leave this one alone. */
  lemma GuessElsewhere(cfg: OtpConfig, f: Flow, w: World, e: string, k: FlowKeys, supplied: string, env: GuessEnv,
                       flow: Flow, email: string, keys: FlowKeys)
    requires Apart(keys, k, false) && !(flow == f && email == e) && Inv(cfg, flow, email, keys, w)
    ensures Inv(cfg, flow, email, keys, Guess(cfg, f, w, e, k, supplied, env).0)
  {
    hide Guarded, TallyOf;
    var t := TallyOf(w.history, flow, email);
    var s1 := IncrementAttempts(w.store, env.incr, env.expire, k.attempts, AttemptsTtl(cfg, f)).0;
    IncrementElsewhere(w.store, env.incr, env.expire, k.attempts, AttemptsTtl(cfg, f), keys.code);
    IncrementElsewhere(w.store, env.incr, env.expire, k.attempts, AttemptsTtl(cfg, f), keys.attempts);
    var w' := Guess(cfg, f, w, e, k, supplied, env).0;
    Elsewhere(w.store, w'.store, keys.code, keys.attempts, cfg.ttl, MaxGuesses(cfg, flow), t);
    if w'.history != w.history {
      TallyAppend(w.history, w'.history[|w.history|], flow, email);
      assert w'.history == w.history + [w'.history[|w.history|]];
    }
  }

  lemma OwnGuess(cfg: OtpConfig, w: World, supplied: string, env: GuessEnv, flow: Flow, email: string, keys: FlowKeys)
    requires cfg.Valid() && (flow.Reset? ==> cfg.ttl <= RESET_ATTEMPTS_TTL)
    requires keys.code != keys.attempts && Inv(cfg, flow, email, keys, w)
    ensures Inv(cfg, flow, email, keys, Guess(cfg, flow, w, email, keys, supplied, env).0)
  {
    hide Guarded, TallyOf, Counted, TryCooldown, IncrementAttempts;
    var ck, ak, t, max := keys.code, keys.attempts, TallyOf(w.history, flow, email), MaxGuesses(cfg, flow);
    CountCovers(w.store, env.incr, env.expire, ck, ak, cfg.ttl, AttemptsTtl(cfg, flow), max, t);
    var (s1, n) := IncrementAttempts(w.store, env.incr, env.expire, ak, AttemptsTtl(cfg, flow));
    if n.Ok? && n.value <= max {
      var (s2, stored) := Get(s1, env.get, ck);
      Elsewhere(s1, s2, ck, ak, cfg.ttl, max, t);
      if stored.Ok? && stored.value.Some? {
        CountedLater(s1, s2, ck, ak, max, t, n.value);
        GuessRecorded(s2, ck, ak, cfg.ttl, max, t, supplied, n.value);
        EmitTally(w.At(s2), true, Guessed(flow, email, supplied, stored.value.value == Text(supplied)), flow, email);
      }
    } else if n.Ok? {
      CleanupKeeps(s1, env.drop, ck, ck, ak, cfg.ttl, max, t);
    }
  }

  lemma GuessKeeps(cfg: OtpConfig, f: Flow, w: World, e: string, k: FlowKeys, supplied: string, env: GuessEnv,
                   flow: Flow, email: string, keys: FlowKeys)
    requires cfg.Valid() && (flow.Reset? ==> cfg.ttl <= RESET_ATTEMPTS_TTL)
    requires Apart(keys, k, flow == f && email == e) && Inv(cfg, flow, email, keys, w)
    ensures Inv(cfg, flow, email, keys, Guess(cfg, f, w, e, k, supplied, env).0)
  {
    if f == flow && e == email {
      assert Guess(cfg, f, w, e, k, supplied, env) == Guess(cfg, f, w, e, keys.(cooldown := k.cooldown), supplied, env);
      OwnGuess(cfg, w, supplied, env, flow, email, keys.(cooldown := k.cooldown));
    } else {
      GuessElsewhere(cfg, f, w, e, k, supplied, env, flow, email, keys);
    }
  }

  /** Removing a code is harmless, and so is removing the counter of a code that is gone. */
  lemma CleanupKeeps(s: Store, io: Io, k: string, ck: string, ak: string, ttl: int, max: int, t: Tally)
    requires Guarded(s, ck, ak, ttl, max, t)
    requires k == ak ==> ck !in s.kv || io.fate.Dropped?
    ensures Guarded(Del(s, io, k).0, ck, ak, ttl, max, t)
  {
  }

  lemma VerifyKeeps(cfg: OtpConfig, w: World, e: string, k: FlowKeys, verified: string, code: string, env: VerifyEnv,
                    flow: Flow, email: string, keys: FlowKeys)
    requires cfg.Valid() && (flow.Reset? ==> cfg.ttl <= RESET_ATTEMPTS_TTL)
    requires Apart(keys, k, flow == Registration && email == e) && Foreign(keys, verified)
    requires Inv(cfg, flow, email, keys, w)
    ensures Inv(cfg, flow, email, keys, Verify(cfg, w, e, k, verified, code, env).0)
  {
    hide Guarded, TallyOf, Tracked, TryCooldown, IncrementAttempts;
    GuessKeeps(cfg, Registration, w, e, k, cfg.hash(code), env.guess, flow, email, keys);
    var ck, ak, max := keys.code, keys.attempts, MaxGuesses(cfg, flow);
    var (w1, v) := Guess(cfg, Registration, w, e, k, cfg.hash(code), env.guess);
    if e != "" && code != "" && v.Right? {
      var t := TallyOf(w1.history, flow, email);
      CleanupKeeps(w1.store, env.consume, k.code, ck, ak, cfg.ttl, max, t);
      var (s2, ok2) := Del(w1.store, env.consume, k.code);
      var w2 := w1.At(s2).Emit(!env.consume.fate.Dropped?, Consumed(e));
      EmitTally(w1.At(s2), !env.consume.fate.Dropped?, Consumed(e), flow, email);
      if ok2 {
        CleanupKeeps(s2, env.clear, k.attempts, ck, ak, cfg.ttl, max, t);
        var (s3, ok3) := Del(s2, env.clear, k.attempts);
        var (s4, ok4) := Set(s3, env.mark, verified, Text("1"), cfg.emailVerifiedTTL);
        Elsewhere(s3, s4, ck, ak, cfg.ttl, max, t);
        EmitTally(w2.At(s4), !env.mark.fate.Dropped?, Marked(e), flow, email);
      }
    }
  }

  /** The clean-up of a used reset code never removes the counter and leaves the code. */
  predicate CleansUp(env: ResetEnv) {
    env.consume.fate.Dropped? ==> env.clear.fate.Dropped?
  }

  /** Every reset of the run cleans up so. */
  predicate TidyCommand(c: Command) {
    c.ResetCmd? ==> CleansUp(c.env)
  }

  predicate TidyRun(cmds: seq<Command>) {
    forall i | 0 <= i < |cmds| :: TidyCommand(cmds[i])
  }

  lemma ResetKeeps(cfg: OtpConfig, w: World, req: ResetInput, k: FlowKeys, version: string, env: ResetEnv,
                   flow: Flow, email: string, keys: FlowKeys)
    requires cfg.Valid() && (flow.Reset? ==> cfg.ttl <= RESET_ATTEMPTS_TTL)
    requires Apart(keys, k, flow == Reset && email == req.email) && (env.user.Some? ==> Foreign(keys, version))
    requires Inv(cfg, flow, email, keys, w)
    requires flow == Reset && email == req.email ==> CleansUp(env)
    ensures Inv(cfg, flow, email, keys, ResetPassword(cfg, w, req, k, version, env).0)
  {
    hide Guarded, TallyOf, Tracked, TryCooldown, IncrementAttempts;
    var supplied := cfg.hash(req.code);
    GuessKeeps(cfg, Reset, w, req.email, k, supplied, env.guess, flow, email, keys);
    var ck, ak, max := keys.code, keys.attempts, MaxGuesses(cfg, flow);
    var (w1, v) := Guess(cfg, Reset, w, req.email, k, supplied, env.guess);
    if v.Right? && env.user.Some? {
      var t := TallyOf(w1.history, flow, email);
      var w2 := w1.Emit(!env.updated.Dropped?, PasswordChanged(req.email));
      EmitTally(w1, !env.updated.Dropped?, PasswordChanged(req.email), flow, email);
      var (s3, bumped) := Incr(w2.store, env.upgrade, version);
      Elsewhere(w2.store, s3, ck, ak, cfg.ttl, max, t);
      CleanupKeeps(s3, env.consume, k.code, ck, ak, cfg.ttl, max, t);
      CleanupKeeps(Del(s3, env.consume, k.code).0, env.clear, k.attempts, ck, ak, cfg.ttl, max, t);
    }
  }

  lemma RegisterKeeps(cfg: OtpConfig, w: World, req: RegisterInput, verified: string, env: RegisterEnv,
                      flow: Flow, email: string, keys: FlowKeys)
    requires Foreign(keys, verified) && Inv(cfg, flow, email, keys, w)
    ensures Inv(cfg, flow, email, keys, Register(w, req, verified, env).0)
  {
    hide Guarded, TallyOf, AcceptablePassword;
    var s1 := GetDel(w.store, env.take, verified).0;
    Elsewhere(w.store, s1, keys.code, keys.attempts, cfg.ttl, MaxGuesses(cfg, flow), TallyOf(w.history, flow, email));
    var w2 := w.At(s1).Emit(true, Taken(req.email));
    EmitTally(w.At(s1), true, Taken(req.email), flow, email);
    EmitTally(w2, true, Registered(req.email), flow, email);
  }

  lemma StepKeeps(cfg: OtpConfig, w: World, c: Command, flow: Flow, email: string)
    requires cfg.Valid() && (flow.Reset? ==> cfg.ttl <= RESET_ATTEMPTS_TTL)
    requires PlainCommand(c) && Plain(email) && Inv(cfg, flow, email, KeysOf(flow, email), w)
    requires flow.Reset? ==> TidyCommand(c)
    ensures Inv(cfg, flow, email, KeysOf(flow, email), Step(cfg, w, c))
  {
    hide Guarded, TallyOf, Key, IssueCode, Guess;
    var keys := KeysOf(flow, email);
    var max, t := MaxGuesses(cfg, flow), TallyOf(w.history, flow, email);
    match c
    case Wait(d) =>
      Elsewhere(w.store, Step(cfg, w, c).store, keys.code, keys.attempts, cfg.ttl, max, t);
    case SendCmd(e, _, env) =>
      OwnKeys(flow, email, Registration, e);
      IssueKeeps(cfg, Registration, w, e, KeysOf(Registration, e), env, flow, email, keys);
    case ForgotCmd(e, _, env) =>
      OwnKeys(flow, email, Reset, e);
      IssueKeeps(cfg, Reset, w, e, KeysOf(Reset, e), env, flow, email, keys);
    case VerifyCmd(e, code, env) =>
      OwnKeys(flow, email, Registration, e);
      ForeignKey(flow, email, RegisterVerified, e);
      VerifyKeeps(cfg, w, e, KeysOf(Registration, e), VerifiedKey(e), code, env, flow, email, keys);
    case RegisterCmd(req, env) =>
      ForeignKey(flow, email, RegisterVerified, req.email);
      RegisterKeeps(cfg, w, req, VerifiedKey(req.email), env, flow, email, keys);
    case ResetCmd(req, env) =>
      OwnKeys(flow, email, Reset, req.email);
      if env.user.Some? {
        ForeignKey(flow, email, TokenVersion, env.user.value);
      }
      ResetKeeps(cfg, w, req, KeysOf(Reset, req.email), VersionKey(env.user), env, flow, email, keys);
    case ClaimCmd(id, _, _) =>
      ForeignKey(flow, email, RefreshClaim, id);
      Elsewhere(w.store, Step(cfg, w, c).store, keys.code, keys.attempts, cfg.ttl, max, t);
    case UpgradeCmd(id, _) =>
      ForeignKey(flow, email, TokenVersion, id);
      Elsewhere(w.store, Step(cfg, w, c).store, keys.code, keys.attempts, cfg.ttl, max, t);
  }

  lemma {:induction false} RunKeeps(cfg: OtpConfig, start: int, cmds: seq<Command>, flow: Flow, email: string)
    requires cfg.Valid() && (flow.Reset? ==> cfg.ttl <= RESET_ATTEMPTS_TTL)
    requires PlainRun(cmds) && Plain(email) && (flow.Reset? ==> TidyRun(cmds))
    ensures Inv(cfg, flow, email, KeysOf(flow, email), Run(cfg, start, cmds))
  {
    if cmds != [] {
      var init := cmds[..|cmds| - 1];
      RunKeeps(cfg, start, init, flow, email);
      StepKeeps(cfg, Run(cfg, start, init), cmds[|cmds| - 1], flow, email);
    }
  }

  // ---- The theorems ----

  /** Registration codes: whatever the clock, the expiries, the lost commands and the other users, one issued code is
      compared with at most maxVerifyAttempts guesses, right ones included, if its counter was cleared, and otherwise
      with at most one less than twice as many. */
  lemma RegistrationGuessesBounded(cfg: OtpConfig, start: int, cmds: seq<Command>, email: string)
    requires cfg.Valid() && PlainRun(cmds) && Plain(email)
    ensures var t := TallyOf(Run(cfg, start, cmds).history, Registration, email);
            t.guesses <= if t.cleared then cfg.maxVerifyAttempts else 2 * cfg.maxVerifyAttempts - 1
  {
    RunKeeps(cfg, start, cmds, Registration, email);
  }

  lemma {:induction false} SoundAt(h: seq<Event>, flow: Flow, email: string, i: nat)
    requires TallyOf(h, flow, email).sound && i < |h|
    requires h[i].Guessed? && h[i].flow == flow && h[i].email == email
    ensures h[i].right <==> TallyOf(h[..i], flow, email).hash == Some(h[i].hash)
  {
    if i < |h| - 1 {
      SoundAt(h[..|h| - 1], flow, email, i);
      assert h[..|h| - 1][..i] == h[..i];
    }
  }
}
