/** What one reset code is good for: how often it can be used, and exactly when its bounds hold. */
module OtpReuse {
  import opened Common
  import opened Redis
  import opened Keyspace
  import opened TokenStore
  import opened OtpProtocol
  import opened OtpSafety
  import opened OtpLimits

  // ---- One use of a code ----

  /** A reset with the right code that updates the password; env says what becomes of the work after that. */
  function Reset1(email: string, code: string, env: ResetEnv): Command {
    ResetCmd(ResetInput(email, code, "password", "password"), env)
  }

  /** The guess and the update go well, and no time passes. */
  predicate Updates(env: ResetEnv) {
    && env.guess == GuessEnv(FINE, FINE, FINE, FINE) && env.user.Some? && Plain(env.user.value) && !env.updated.Dropped?
    && env.upgrade.delay == env.consume.delay == env.clear.delay == 0
  }

  /** The work after the update gets as far as deleting the code. */
  predicate UsesUp(env: ResetEnv) {
    env.updated.Answered? && env.upgrade.fate.Answered? && env.revoked && !env.consume.fate.Dropped?
  }

  /** The clean-up after the update deletes the counter. */
  predicate Forgets(env: ResetEnv) {
    env.updated.Answered? && env.upgrade.fate.Answered? && env.revoked && !env.clear.fate.Dropped?
  }

  /** The version counter of the user, if there is one, is a counter. */
  predicate Versioned(s: Store, k: string) {
    Lookup(s, k).Some? ==> Lookup(s, k).value.value.Count?
  }

  lemma Upgrades(s: Store, io: Io, k: string)
    requires Versioned(s, k) && io.delay == 0
    ensures var (s', n) := Incr(s, io, k);
            && (n.Ok? <==> io.fate.Answered?) && s'.now == s.now && Versioned(s', k)
            && forall x | x != k :: (x in s'.kv <==> x in s.kv) && (x in s.kv ==> s'.kv[x] == s.kv[x])
  {
  }

  lemma RightGuess(cfg: OtpConfig, w: World, email: string, code: string, codeEnd: int, n: nat, end: int, guesses: nat)
    requires cfg.Valid() && Plain(email) && n < MAX_RESET_ATTEMPTS
    requires Stage(w, Reset, email, cfg.hash(code), codeEnd, n, end, guesses, true)
    ensures var keys, h := KeysOf(Reset, email), cfg.hash(code);
            var (w', v) := Guess(cfg, Reset, w, email, keys, h, GuessEnv(FINE, FINE, FINE, FINE));
            var end' := if n == 0 then w.store.now + RESET_ATTEMPTS_TTL else end;
            && v == Right && w' == World(w.store.(kv := w.store.kv[keys.attempts := Entry(Count(n + 1), Some(end'))]),
                                         w.history + [Guessed(Reset, email, h, true)])
  {
    hide TallyOf, KeysOf, Key, IncrementAttempts;
    var keys := KeysOf(Reset, email);
    OwnKeys(Reset, email, Reset, email);
    CounterAdvances(w.store, keys.attempts, RESET_ATTEMPTS_TTL, n, end);
  }

  /** What one such reset leaves: its two events, and the code with its counter, unless the code was used up. */
  lemma ResetsOnce(cfg: OtpConfig, w: World, email: string, code: string, env: ResetEnv, codeEnd: int, n: nat, end: int, guesses: nat)
    requires cfg.Valid() && Plain(email) && email != "" && code != "" && Updates(env) && n < MAX_RESET_ATTEMPTS
    requires Stage(w, Reset, email, cfg.hash(code), codeEnd, n, end, guesses, true) && Versioned(w.store, Key(TokenVersion, env.user.value))
    ensures var w' := Step(cfg, w, Reset1(email, code, env));
            && w'.history == w.history + [Guessed(Reset, email, cfg.hash(code), true)] + [PasswordChanged(email)]
            && Versioned(w'.store, Key(TokenVersion, env.user.value)) && w'.store.now == w.store.now
            && (if UsesUp(env) then KeysOf(Reset, email).code !in w'.store.kv
                else Stage(w', Reset, email, cfg.hash(code), codeEnd, if Forgets(env) then 0 else n + 1,
                           if n == 0 then w.store.now + RESET_ATTEMPTS_TTL else end, guesses + 1, true))
  {
    hide TallyOf, KeysOf, Key, Guess, Incr;
    var keys, version, h := KeysOf(Reset, email), Key(TokenVersion, env.user.value), cfg.hash(code);
    OwnKeys(Reset, email, Reset, email);
    ForeignKey(Reset, email, TokenVersion, env.user.value);
    RightGuess(cfg, w, email, code, codeEnd, n, end, guesses);
    var w1 := Guess(cfg, Reset, w, email, keys, h, GuessEnv(FINE, FINE, FINE, FINE)).0;
    EmitTally(w.At(w1.store), true, Guessed(Reset, email, h, true), Reset, email);
    EmitTally(w1, true, PasswordChanged(email), Reset, email);
    Upgrades(w1.store, env.upgrade, version);
    var s3 := Incr(w1.store, env.upgrade, version).0;
    var s' := Step(cfg, w, Reset1(email, code, env)).store;
    assert s' == if env.updated.Answered? && env.upgrade.fate.Answered? && env.revoked
                 then Del(Del(s3, env.consume, keys.code).0, env.clear, keys.attempts).0
                 else if env.updated.Answered? then s3 else w1.store;
    assert !UsesUp(env) ==> keys.code in s'.kv && s'.kv[keys.code] == w.store.kv[keys.code];
    assert !UsesUp(env) && !Forgets(env) ==> Lookup(s', keys.attempts) == Lookup(w1.store, keys.attempts);
    assert !UsesUp(env) && Forgets(env) ==> Lookup(s', keys.attempts) == None;
  }

  // ---- One password per code ----

  /** Password changes since the reset code last stored for the address. */
  function Changes(h: seq<Event>, email: string): nat {
    if h == [] then 0
    else
      var before, ev := Changes(h[..|h| - 1], email), h[|h| - 1];
      match ev
      case CodeSet(Reset, e, _) => if e == email then 0 else before
      case PasswordChanged(e) => if e == email then before + 1 else before
      case _ => before
  }

  lemma ChangesSnoc(h: seq<Event>, ev: Event, email: string)
    ensures Changes(h + [ev], email)
         == match ev
            case CodeSet(Reset, e, _) => if e == email then 0 else Changes(h, email)
            case PasswordChanged(e) => if e == email then Changes(h, email) + 1 else Changes(h, email)
            case _ => Changes(h, email)
  {
    assert (h + [ev])[..|h|] == h;
  }

  ghost predicate Versions(kv: map<string, Entry>) {
    forall id | id in Project(kv, TokenVersion) :: Project(kv, TokenVersion)[id].value.Count?
  }

  /** A stored reset code has not changed a password yet. */
  ghost predicate Unused(w: World, email: string) {
    && Versions(w.store.kv)
    && (email in Project(w.store.kv, ResetCode) ==> Changes(w.history, email) == 0)
    && Changes(w.history, email) <= 1
  }

  /** The two families this is about. */
  ghost predicate Kept(s: Store, s': Store) {
    Project(s'.kv, TokenVersion) == Project(s.kv, TokenVersion) && Project(s'.kv, ResetCode) == Project(s.kv, ResetCode)
  }

  /** A reset for the address that updates the password goes on to delete the code. */
  predicate Finishes(c: Command, email: string) {
    c.ResetCmd? && c.req.email == email && c.env.user.Some? && !c.env.updated.Dropped? ==> UsesUp(c.env)
  }

  /** Commands that leave the version counters alone, add no reset code and change no password of the address. */
  lemma Unaffected(w: World, w': World, email: string)
    requires Unused(w, email) && Project(w'.store.kv, TokenVersion) == Project(w.store.kv, TokenVersion)
    requires email in Project(w'.store.kv, ResetCode) ==> email in Project(w.store.kv, ResetCode)
    requires Changes(w'.history, email) == Changes(w.history, email)
    ensures Unused(w', email)
  {
    hide Project, Changes;
  }

  lemma IssueUnused(cfg: OtpConfig, flow: Flow, w: World, e: string, env: SendEnv, email: string)
    requires Unused(w, email) && Plain(e) && Plain(email)
    ensures Unused(IssueCode(cfg, flow, w, e, KeysOf(flow, e), env).0, email)
  {
    hide Key, Project, TryCooldown, Set, Del, Changes, Unused;
    var cooldown, code, attempts := if flow.Reset? then ResetCooldown else RegisterCooldown,
      if flow.Reset? then ResetCode else RegisterCode, if flow.Reset? then ResetAttempts else RegisterAttempts;
    TryCooldownRefines(w.store, env.cooldown, env.remaining, cooldown, e, cfg.resendCooldown);
    var (s1, c) := TryCooldown(w.store, env.cooldown, env.remaining, Key(cooldown, e), cfg.resendCooldown);
    Unaffected(w, w.At(s1), email);
    if c.Ok? && c.value.0 && env.code.Some? {
      var h := cfg.hash(env.code.value);
      CodeStoredUnused(cfg, flow, w.At(s1), e, h, env.set_, email);
      var s2 := Set(s1, env.set_, Key(code, e), Text(h), cfg.ttl).0;
      var w2 := w.At(s2).Emit(!env.set_.fate.Dropped?, CodeSet(flow, e, h));
      CodeDeleted(s2, env.clear, attempts, e);
      ChangesSnoc(w2.history, CounterCleared(flow, e), email);
      Unaffected(w2, w2.At(Del(s2, env.clear, Key(attempts, e)).0).Emit(!env.clear.fate.Dropped?, CounterCleared(flow, e)), email);
    }
  }

  lemma CodeStoredUnused(cfg: OtpConfig, flow: Flow, w: World, e: string, h: string, io: Io, email: string)
    requires Unused(w, email) && Plain(e) && Plain(email)
    ensures var s := Set(w.store, io, KeysOf(flow, e).code, Text(h), cfg.ttl).0;
            Unused(w.At(s).Emit(!io.fate.Dropped?, CodeSet(flow, e, h)), email)
  {
    hide Key, Project, Changes, Versions;
    var code := if flow.Reset? then ResetCode else RegisterCode;
    CodeWritten(w.store, io, code, e, h, cfg.ttl);
    ChangesSnoc(w.history, CodeSet(flow, e, h), email);
    SameVersions(w.store.kv, Set(w.store, io, Key(code, e), Text(h), cfg.ttl).0.kv);
  }

  lemma CodeWritten(s: Store, io: Io, code: Family, e: string, h: string, ttl: int)
    requires Plain(e) && code in {ResetCode, RegisterCode}
    ensures var s' := Set(s, io, Key(code, e), Text(h), ttl).0;
            && Project(s'.kv, TokenVersion) == Project(s.kv, TokenVersion)
            && (code == RegisterCode || io.fate.Dropped? ==> Project(s'.kv, ResetCode) == Project(s.kv, ResetCode))
            && (forall x | x != e :: x in Project(s'.kv, ResetCode) <==> x in Project(s.kv, ResetCode))
  {
    hide Key, Project;
    SetRefines(s, io, code, e, Text(h), ttl);
  }

  lemma GuessUnused(cfg: OtpConfig, flow: Flow, w: World, e: string, supplied: string, env: GuessEnv, email: string)
    requires Unused(w, email) && Plain(e) && Plain(email)
    ensures var (w', v) := Guess(cfg, flow, w, e, KeysOf(flow, e), supplied, env);
            && Unused(w', email) && Changes(w'.history, email) == Changes(w.history, email)
            && (v.Right? && flow.Reset? ==> e in Project(w'.store.kv, ResetCode))
  {
    hide Key, Project, IncrementAttempts, Del, Changes;
    var code, attempts := if flow.Reset? then ResetCode else RegisterCode, if flow.Reset? then ResetAttempts else RegisterAttempts;
    IncrementAttemptsRefines(w.store, env.incr, env.expire, attempts, e, AttemptsTtl(cfg, flow));
    var s1 := IncrementAttempts(w.store, env.incr, env.expire, Key(attempts, e), AttemptsTtl(cfg, flow)).0;
    CodeDeleted(s1, env.drop, code, e);
    var (s2, stored) := Get(s1, env.get, Key(code, e));
    ProjectHas(s2.kv, ResetCode, e);
    if stored.Ok? && stored.value.Some? {
      ChangesSnoc(w.history, Guessed(flow, e, supplied, stored.value.value == Text(supplied)), email);
    }
  }

  lemma CodeDeleted(s: Store, io: Io, f: Family, e: string)
    requires Plain(e) && f != TokenVersion
    ensures var s' := Del(s, io, Key(f, e)).0;
            && Project(s'.kv, TokenVersion) == Project(s.kv, TokenVersion)
            && (forall x | x in Project(s'.kv, ResetCode) :: x in Project(s.kv, ResetCode))
            && (f == ResetCode && !io.fate.Dropped? ==> e !in Project(s'.kv, ResetCode))
  {
    hide Key, Project;
    DelRefines(s, io, f, e);
  }

  lemma Upgraded(s: Store, io: Io, user: string)
    requires Plain(user) && Versions(s.kv)
    ensures var (s', n) := Incr(s, io, Key(TokenVersion, user));
            && Versions(s'.kv) && Project(s'.kv, ResetCode) == Project(s.kv, ResetCode) && (n.Ok? <==> io.fate.Answered?)
  {
    hide Key, Project;
    IncrRefines(s, io, TokenVersion, user);
  }

  lemma ResetUnused(cfg: OtpConfig, w: World, req: ResetInput, env: ResetEnv, email: string)
    requires Unused(w, email) && Plain(req.email) && Plain(email) && (env.user.Some? ==> Plain(env.user.value))
    requires Finishes(ResetCmd(req, env), email)
    ensures Unused(Step(cfg, w, ResetCmd(req, env)), email)
  {
    hide Key, Project, Guess, Incr, Del, Changes, Versions;
    GuessUnused(cfg, Reset, w, req.email, cfg.hash(req.code), env.guess, email);
    var (w1, v) := Guess(cfg, Reset, w, req.email, KeysOf(Reset, req.email), cfg.hash(req.code), env.guess);
    if v.Right? && env.user.Some? {
      ChangesSnoc(w1.history, PasswordChanged(req.email), email);
      Upgraded(w1.store, env.upgrade, env.user.value);
      var s3 := Incr(w1.store, env.upgrade, Key(TokenVersion, env.user.value)).0;
      CodeDeleted(s3, env.consume, ResetCode, req.email);
      var s4 := Del(s3, env.consume, Key(ResetCode, req.email)).0;
      CodeDeleted(s4, env.clear, ResetAttempts, req.email);
      SameVersions(s3.kv, s4.kv);
      SameVersions(s4.kv, Del(s4, env.clear, Key(ResetAttempts, req.email)).0.kv);
    }
  }

  lemma SameVersions(kv: map<string, Entry>, kv': map<string, Entry>)
    requires Versions(kv) && Project(kv', TokenVersion) == Project(kv, TokenVersion)
    ensures Versions(kv')
  {
  }

  lemma VerifyUnused(cfg: OtpConfig, w: World, e: string, code: string, env: VerifyEnv, email: string)
    requires Unused(w, email) && Plain(e) && Plain(email)
    ensures Unused(Step(cfg, w, VerifyCmd(e, code, env)), email)
  {
    hide Key, Project, Guess, Set, Del, Changes, Unused;
    GuessUnused(cfg, Registration, w, e, cfg.hash(code), env.guess, email);
    var (w1, v) := Guess(cfg, Registration, w, e, KeysOf(Registration, e), cfg.hash(code), env.guess);
    if v.Right? {
      CodeDeleted(w1.store, env.consume, RegisterCode, e);
      var s2 := Del(w1.store, env.consume, Key(RegisterCode, e)).0;
      var w2 := w1.At(s2).Emit(!env.consume.fate.Dropped?, Consumed(e));
      ChangesSnoc(w1.history, Consumed(e), email);
      Unaffected(w1, w2, email);
      CodeDeleted(s2, env.clear, RegisterAttempts, e);
      var s3 := Del(s2, env.clear, Key(RegisterAttempts, e)).0;
      Unaffected(w2, w2.At(s3), email);
      SetRefines(s3, env.mark, RegisterVerified, e, Text("1"), cfg.emailVerifiedTTL);
      var s4 := Set(s3, env.mark, Key(RegisterVerified, e), Text("1"), cfg.emailVerifiedTTL).0;
      ChangesSnoc(w2.history, Marked(e), email);
      Unaffected(w2.At(s3), w2.At(s4).Emit(!env.mark.fate.Dropped?, Marked(e)), email);
    }
  }

  lemma RegisterUnused(cfg: OtpConfig, w: World, req: RegisterInput, env: RegisterEnv, email: string)
    requires Unused(w, email) && Plain(req.email)
    ensures Unused(Step(cfg, w, RegisterCmd(req, env)), email)
  {
    hide Key, Project, GetDel, Changes, Unused;
    GetDelRefines(w.store, env.take, RegisterVerified, req.email);
    var w1 := w.At(GetDel(w.store, env.take, Key(RegisterVerified, req.email)).0);
    Unaffected(w, w1, email);
    ChangesSnoc(w1.history, Taken(req.email), email);
    var w2 := w1.Emit(true, Taken(req.email));
    Unaffected(w1, w2, email);
    ChangesSnoc(w2.history, Registered(req.email), email);
    Unaffected(w2, w2.Emit(true, Registered(req.email)), email);
  }

  lemma StepUnused(cfg: OtpConfig, w: World, c: Command, email: string)
    requires Unused(w, email) && PlainCommand(c) && Plain(email) && Finishes(c, email)
    ensures Unused(Step(cfg, w, c), email)
  {
    hide Key, Project, IssueCode, Verify, Register, ResetPassword, SetNX, Incr, Changes, Versions;
    match c
    case Wait(_) =>
    case SendCmd(e, _, env) => IssueUnused(cfg, Registration, w, e, env, email);
    case ForgotCmd(e, _, env) => IssueUnused(cfg, Reset, w, e, env, email);
    case VerifyCmd(e, code, env) => VerifyUnused(cfg, w, e, code, env, email);
    case RegisterCmd(req, env) => RegisterUnused(cfg, w, req, env, email);
    case ResetCmd(req, env) => ResetUnused(cfg, w, req, env, email);
    case ClaimCmd(id, ttl, io) =>
      SetNXRefines(w.store, io, RefreshClaim, id, Text("claimed"), ttl);
      Unaffected(w, Step(cfg, w, c), email);
    case UpgradeCmd(id, io) => Upgraded(w.store, io, id);
  }

  /** Over every run in which each reset for the address that updates the password goes on to delete the code, whatever
      else fails: one reset code changes at most one password. */
  lemma {:induction false} OnePasswordPerCode(cfg: OtpConfig, start: int, cmds: seq<Command>, email: string)
    requires PlainRun(cmds) && Plain(email) && forall i | 0 <= i < |cmds| :: Finishes(cmds[i], email)
    ensures Unused(Run(cfg, start, cmds), email) && Changes(Run(cfg, start, cmds).history, email) <= 1
  {
    hide Step, Finishes, Unused;
    if cmds == [] {
      NothingUsed(cfg, start, email);
    } else {
      var init := cmds[..|cmds| - 1];
      OnePasswordPerCode(cfg, start, init, email);
      StepUnused(cfg, Run(cfg, start, init), cmds[|cmds| - 1], email);
    }
    AtMostOne(Run(cfg, start, cmds), email);
  }

  lemma NothingUsed(cfg: OtpConfig, start: int, email: string)
    ensures Unused(Run(cfg, start, []), email)
  {
    hide Key;
  }

  lemma AtMostOne(w: World, email: string)
    requires Unused(w, email)
    ensures Changes(w.history, email) <= 1
  {
  }

  // ---- Using a code again ----

  function Reuses(email: string, code: string, env: ResetEnv, n: nat): seq<Command> {
    if n == 0 then [] + [Request(Reset, email, code, FINE)]
    else Reuses(email, code, env, n - 1) + [Reset1(email, code, env)]
  }

  /** No guess at the address can be right any more: the code is gone, or its counter is at the limit. */
  ghost predicate Spent(s: Store, keys: FlowKeys) {
    || keys.code !in s.kv
    || (Lookup(s, keys.attempts).Some? && Lookup(s, keys.attempts).value.value.Count?
        && Lookup(s, keys.attempts).value.value.count >= MAX_RESET_ATTEMPTS)
  }

  lemma SpentStays(cfg: OtpConfig, w: World, email: string, code: string, env: ResetEnv)
    requires Updates(env) && Plain(email) && Spent(w.store, KeysOf(Reset, email))
    ensures var w' := Step(cfg, w, Reset1(email, code, env));
            w'.history == w.history && w'.store.now == w.store.now && Spent(w'.store, KeysOf(Reset, email))
  {
    hide KeysOf, Key;
    OwnKeys(Reset, email, Reset, email);
  }

  /** How often one code changes the password when it is used n times in a row. */
  function Uses(env: ResetEnv, n: nat): nat {
    if UsesUp(env) then (if n == 0 then 0 else 1)
    else if Forgets(env) || n <= MAX_RESET_ATTEMPTS then n
    else MAX_RESET_ATTEMPTS
  }

  /** The code is still there after n uses. */
  predicate Survives(env: ResetEnv, n: nat) {
    if UsesUp(env) then n == 0 else Forgets(env) || n <= MAX_RESET_ATTEMPTS
  }

  lemma {:induction false} AfterUses(cfg: OtpConfig, email: string, code: string, env: ResetEnv, n: nat)
    requires cfg.Valid() && PlausibleEmail(email) && Plain(email) && code != "" && Updates(env)
    ensures PlainRun(Reuses(email, code, env, n))
    ensures var w := Run(cfg, 0, Reuses(email, code, env, n));
            && w.store.now == 0 && Changes(w.history, email) == Uses(env, n)
            && if Survives(env, n)
               then Versioned(w.store, Key(TokenVersion, env.user.value))
                    && Stage(w, Reset, email, cfg.hash(code), cfg.ttl, if Forgets(env) then 0 else n, RESET_ATTEMPTS_TTL, n, true)
               else Spent(w.store, KeysOf(Reset, email))
  {
    hide Stage, Step, TallyOf, Key, KeysOf, Run, Versioned, Spent, Changes, UsesUp, Forgets;
    if n == 0 {
      SentOnStage(cfg, email, code, env.user.value);
    } else {
      var before, use := Reuses(email, code, env, n - 1), Reset1(email, code, env);
      AfterUses(cfg, email, code, env, n - 1);
      var w := Run(cfg, 0, before);
      RunSnoc(cfg, 0, before, use);
      if Survives(env, n - 1) && (Forgets(env) || n <= MAX_RESET_ATTEMPTS || UsesUp(env)) {
        UsedOnce(cfg, w, email, code, env, if Forgets(env) then 0 else n - 1, n - 1);
      } else {
        if Survives(env, n - 1) {
          AtLimit(w, email, cfg.hash(code), cfg.ttl, n - 1);
        }
        SpentStays(cfg, w, email, code, env);
      }
    }
  }

  lemma AtLimit(w: World, email: string, h: string, codeEnd: int, n: nat)
    requires Stage(w, Reset, email, h, codeEnd, n, RESET_ATTEMPTS_TTL, n, true) && n >= MAX_RESET_ATTEMPTS
    ensures Spent(w.store, KeysOf(Reset, email))
  {
    hide KeysOf;
  }

  lemma UsedOnce(cfg: OtpConfig, w: World, email: string, code: string, env: ResetEnv, n: nat, guesses: nat)
    requires cfg.Valid() && Plain(email) && email != "" && code != "" && Updates(env) && n < MAX_RESET_ATTEMPTS && w.store.now == 0
    requires Stage(w, Reset, email, cfg.hash(code), cfg.ttl, n, RESET_ATTEMPTS_TTL, guesses, true)
    requires Versioned(w.store, Key(TokenVersion, env.user.value))
    ensures var w' := Step(cfg, w, Reset1(email, code, env));
            && w'.store.now == 0 && Changes(w'.history, email) == Changes(w.history, email) + 1
            && Versioned(w'.store, Key(TokenVersion, env.user.value))
            && if UsesUp(env) then Spent(w'.store, KeysOf(Reset, email))
               else Stage(w', Reset, email, cfg.hash(code), cfg.ttl, if Forgets(env) then 0 else n + 1, RESET_ATTEMPTS_TTL, guesses + 1, true)
  {
    hide Stage, Step, TallyOf, Key, KeysOf, Versioned, Changes, UsesUp, Forgets, Updates;
    ResetsOnce(cfg, w, email, code, env, cfg.ttl, n, RESET_ATTEMPTS_TTL, guesses);
    ChangesSnoc(w.history, Guessed(Reset, email, cfg.hash(code), true), email);
    ChangesSnoc(w.history + [Guessed(Reset, email, cfg.hash(code), true)], PasswordChanged(email), email);
  }

  /** A code used twice in a row, whatever becomes of the work after the update, changes the password twice exactly when
      the first use does not get as far as deleting it. */
  lemma SecondUseIff(cfg: OtpConfig, email: string, code: string, env: ResetEnv)
    requires cfg.Valid() && PlausibleEmail(email) && Plain(email) && code != "" && Updates(env)
    ensures Changes(Run(cfg, 0, Reuses(email, code, env, 2)).history, email) == 2 <==> !UsesUp(env)
  {
    hide Run, Stage, Changes, Reuses, Key, KeysOf;
    AfterUses(cfg, email, code, env, 2);
  }

  lemma SentOnStage(cfg: OtpConfig, email: string, code: string, user: string)
    requires cfg.Valid() && PlausibleEmail(email) && Plain(email) && Plain(user)
    ensures var w := Run(cfg, 0, [] + [Request(Reset, email, code, FINE)]);
            && Stage(w, Reset, email, cfg.hash(code), cfg.ttl, 0, RESET_ATTEMPTS_TTL, 0, true) && Versioned(w.store, Key(TokenVersion, user))
            && w.store.now == 0 && Changes(w.history, email) == 0
  {
    hide Stage, Step, TallyOf, Key, KeysOf, Run, Versioned;
    var request := Request(Reset, email, code, FINE);
    RunEmpty(cfg);
    RequestStarts(cfg, World(EMPTY_STORE, []), Reset, email, code, FINE, 0, RESET_ATTEMPTS_TTL);
    RunSnoc(cfg, 0, [], request);
    NothingVersioned(cfg, email, code, user);
    OnePasswordPerCode(cfg, 0, [] + [request], email);
    FreshCode(Run(cfg, 0, [] + [request]), email, cfg.hash(code), cfg.ttl);
  }

  lemma FreshCode(w: World, email: string, h: string, codeEnd: int)
    requires Unused(w, email) && Plain(email) && Stage(w, Reset, email, h, codeEnd, 0, RESET_ATTEMPTS_TTL, 0, true)
    ensures Changes(w.history, email) == 0
  {
    hide Key;
    ProjectHas(w.store.kv, ResetCode, email);
  }

  lemma NothingVersioned(cfg: OtpConfig, email: string, code: string, user: string)
    requires cfg.Valid() && Plain(email) && Plain(user)
    ensures Versioned(Step(cfg, World(EMPTY_STORE, []), Request(Reset, email, code, FINE)).store, Key(TokenVersion, user))
  {
    hide Key, TryCooldown;
    KeysDistinct(TokenVersion, user, ResetCode, email);
    KeysDistinct(TokenVersion, user, ResetAttempts, email);
    KeysDistinct(TokenVersion, user, ResetCooldown, email);
    FreshCooldown(EMPTY_STORE, Key(ResetCooldown, email), cfg.resendCooldown);
  }

  /** The deletion of the code is lost and that of the counter is not; both errors are ignored. */
  function Untidy(user: string): ResetEnv {
    ResetEnv(GuessEnv(FINE, FINE, FINE, FINE), Some(user), Answered, FINE, true, LOST, FINE)
  }

  // ---- The exact condition ----

  /** Every reset code keeps its bound, in all runs or in those whose clean-ups are tidy. */
  ghost predicate ResetsBounded(cfg: OtpConfig, email: string, untidy: bool) {
    forall start, cmds | PlainRun(cmds) && (untidy || TidyRun(cmds)) ::
      var t := TallyOf(Run(cfg, start, cmds).history, Reset, email); t.guesses <= Bound(t, MAX_RESET_ATTEMPTS)
  }

  /** Reset codes keep the bound of five (nine with an uncleared counter) exactly when they live no longer than the
      counter's fifteen minutes and no clean-up deletes the counter while it fails to delete the code. */
  lemma ResetBoundExact(cfg: OtpConfig, email: string, code: string, wrong: string, user: string, untidy: bool)
    requires cfg.Valid() && PlausibleEmail(email) && Plain(email) && Plain(user)
    requires code != "" && wrong != "" && cfg.hash(code) != cfg.hash(wrong)
    ensures ResetsBounded(cfg, email, untidy) <==> cfg.ttl <= RESET_ATTEMPTS_TTL && !untidy
  {
    hide TallyOf, Run, Stage, TidyRun, PlainRun;
    if untidy {
      AfterUses(cfg, email, code, Untidy(user), MAX_RESET_ATTEMPTS + 1);
      var cmds := Reuses(email, code, Untidy(user), MAX_RESET_ATTEMPTS + 1);
      StageTally(Run(cfg, 0, cmds), Reset, email, cfg.hash(code), cfg.ttl, 0, RESET_ATTEMPTS_TTL, MAX_RESET_ATTEMPTS + 1, true);
      assert !ResetsBounded(cfg, email, untidy);
    } else if cfg.ttl > RESET_ATTEMPTS_TTL {
      var cmds := SixGuesses(cfg, email, code, wrong);
      assert TallyOf(Run(cfg, 0, cmds).history, Reset, email).guesses > MAX_RESET_ATTEMPTS;
    } else {
      forall start, cmds | PlainRun(cmds) && TidyRun(cmds)
        ensures var t := TallyOf(Run(cfg, start, cmds).history, Reset, email); t.guesses <= Bound(t, MAX_RESET_ATTEMPTS)
      {
        RunKeeps(cfg, start, cmds, Reset, email);
      }
    }
  }
}
