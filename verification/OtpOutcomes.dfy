/** What each request of the one-time-code protocol answers, and what it leaves behind, on the store of any run. */
module OtpOutcomes {
  import opened Common
  import opened Redis
  import opened Keyspace
  import opened TokenStore
  import opened OtpProtocol
  import opened OtpSafety
  import opened OtpLimits
  import opened OtpStored

  predicate Answers(io: Io) {
    io.fate.Answered?
  }

  /** A key is there at a time. */
  predicate LiveKey(s: Store, k: string, at: int) {
    k in s.kv && (s.kv[k].expiry.Some? ==> at < s.kv[k].expiry.value)
  }

  /** Only these keys may have changed. */
  ghost predicate Only(s: Store, s': Store, keys: set<string>) {
    forall k | k !in keys :: Same(k, s, s')
  }

  // ---- A guess ----

  predicate GuessAnswered(env: GuessEnv) {
    Answers(env.incr) && Answers(env.expire) && Answers(env.drop) && Answers(env.get)
  }

  /** The number of this guess: one more than the counter that is there when it is counted. */
  function Number(s: Store, attempts: string, env: GuessEnv): int {
    if LiveKey(s, attempts, s.now + env.incr.delay) && s.kv[attempts].value.Count? then s.kv[attempts].value.count + 1 else 1
  }

  /** The time at which the code is fetched: a first guess also sets the counter's expiry before. */
  function FetchedAt(s: Store, attempts: string, env: GuessEnv): int {
    s.now + env.incr.delay + (if LiveKey(s, attempts, s.now + env.incr.delay) then 0 else env.expire.delay) + env.get.delay
  }

  /** The verdict says how the guess went: exhausted exactly beyond the limit, no code exactly when there is none within
      it, and otherwise right exactly when it is the code stored last. */
  ghost predicate Verdicts(cfg: OtpConfig, flow: Flow, w: World, email: string, supplied: string, env: GuessEnv, v: Verdict) {
    var keys, max := KeysOf(flow, email), MaxGuesses(cfg, flow);
    var n, live := Number(w.store, keys.attempts, env), LiveKey(w.store, keys.code, FetchedAt(w.store, keys.attempts, env));
    var matches := TallyOf(w.history, flow, email).hash == Some(supplied);
    && (v == Exhausted <==> n > max)
    && (v == NoCode <==> n <= max && !live)
    && (v == Right <==> n <= max && live && matches)
    && (v.Wrong? <==> n <= max && live && !matches)
    && (v.Wrong? ==> v.left == max - n)
  }

  lemma CountsNumber(s: Store, k: string, ttl: int, env: GuessEnv)
    requires GuessAnswered(env) && ttl > 0 && Counter(s, k, 1)
    ensures var (s', n) := IncrementAttempts(s, env.incr, env.expire, k, ttl);
            && n == Ok(Number(s, k, env)) && s'.now + env.get.delay == FetchedAt(s, k, env)
            && Only(s, s', {k}) && LiveKey(s', k, s'.now)
  {
  }

  /** The counter lives as long as a registration code, or fifteen minutes for a reset, from the first guess it counts. */
  lemma CounterLives(cfg: OtpConfig, flow: Flow, s: Store, k: string, env: GuessEnv)
    requires cfg.Valid() && GuessAnswered(env) && Counter(s, k, 1)
    ensures var s' := IncrementAttempts(s, env.incr, env.expire, k, AttemptsTtl(cfg, flow)).0;
            k in s'.kv && s'.kv[k]
            == if LiveKey(s, k, s.now + env.incr.delay) then Entry(Count(s.kv[k].value.count + 1), s.kv[k].expiry)
               else Entry(Count(1), Some(s.now + env.incr.delay + env.expire.delay + if flow.Reset? then 900 else cfg.ttl))
  {
  }

  /** One guess: its verdict, the event if a code was compared, and no key changed but the counter, and beyond the limit the
      code, which is deleted. */
  lemma Guesses(cfg: OtpConfig, flow: Flow, w: World, email: string, user: string, supplied: string, env: GuessEnv)
    requires cfg.Valid() && Plain(email) && GuessAnswered(env) && Holds(cfg, w, Watch(flow, email, user), flow, email)
    ensures var (w', v) := Guess(cfg, flow, w, email, KeysOf(flow, email), supplied, env);
            var keys := KeysOf(flow, email);
            && Verdicts(cfg, flow, w, email, supplied, env, v)
            && (v == Exhausted ==> keys.code !in w'.store.kv && Only(w.store, w'.store, {keys.attempts, keys.code}))
            && (v != Exhausted ==> Only(w.store, w'.store, {keys.attempts}))
            && (v.Wrong? ==> w'.history == w.history + [Guessed(flow, email, supplied, false)])
            && (!v.Wrong? && !v.Right? ==> w'.history == w.history)
            && (v.Right? ==> Only(w.store, w'.store, {keys.attempts}) && keys.code in w'.store.kv
                             && w'.store.now == FetchedAt(w.store, keys.attempts, env)
                             && w'.history == w.history + [Guessed(flow, email, supplied, true)])
  {
    hide Key, TallyOf, IncrementAttempts;
    var keys := KeysOf(flow, email);
    OwnKeys(flow, email, flow, email);
    KeysOfFamilies(flow, email);
    CountsNumber(w.store, keys.attempts, AttemptsTtl(cfg, flow), env);
    var s1 := IncrementAttempts(w.store, env.incr, env.expire, keys.attempts, AttemptsTtl(cfg, flow)).0;
    assert Same(keys.code, w.store, s1);
  }

  // ---- Verifying an address ----

  predicate VerifyAnswered(env: VerifyEnv) {
    GuessAnswered(env.guess) && Answers(env.consume) && Answers(env.clear) && Answers(env.mark)
  }

  /** On the store of any run, when every command is answered: a verification succeeds exactly when address and code are
      given, the guess is within the limit, and the code stored last is live and is the one given. Otherwise the answer
      names what was missing, and how many guesses are left. */
  lemma VerifyIff(cfg: OtpConfig, start: int, cmds: seq<Command>, email: string, code: string, env: VerifyEnv)
    requires cfg.Valid() && PlainRun(cmds) && Plain(email) && VerifyAnswered(env)
    ensures var w, keys := Run(cfg, start, cmds), KeysOf(Registration, email);
            var e := Verify(cfg, w, email, keys, VerifiedKey(email), code, env).1;
            var given, n := email != "" && code != "", Number(w.store, keys.attempts, env.guess);
            var live := LiveKey(w.store, keys.code, FetchedAt(w.store, keys.attempts, env.guess));
            var matches := TallyOf(w.history, Registration, email).hash == Some(cfg.hash(code));
            && (e == None <==> given && n <= cfg.maxVerifyAttempts && live && matches)
            && (e == Some(InvalidInput) <==> !given)
            && (e == Some(OtpMaxTries) <==> given && n > cfg.maxVerifyAttempts)
            && (e == Some(OtpExpired) <==> given && n <= cfg.maxVerifyAttempts && !live)
            && (e == Some(OtpInvalid(cfg.maxVerifyAttempts - n)) <==> given && n <= cfg.maxVerifyAttempts && live && !matches)
  {
    hide Run, Guess, Key, KeysOf, TallyOf, Holds, Watch, Number, FetchedAt, LiveKey;
    RunHolds(cfg, start, cmds, Registration, email, email);
    Guesses(cfg, Registration, Run(cfg, start, cmds), email, email, cfg.hash(code), env.guess);
  }

  /** What a successful verification leaves: the mark of the address, live for the configured time from its writing; the
      guess, the use of the code and the mark recorded in this order; neither code nor counter; and all else as it was. */
  lemma VerifiedLeaves(cfg: OtpConfig, start: int, cmds: seq<Command>, email: string, code: string, env: VerifyEnv)
    requires cfg.Valid() && PlainRun(cmds) && Plain(email) && VerifyAnswered(env)
    requires Verify(cfg, Run(cfg, start, cmds), email, KeysOf(Registration, email), VerifiedKey(email), code, env).1 == None
    ensures var w, keys := Run(cfg, start, cmds), KeysOf(Registration, email);
            var w' := Verify(cfg, w, email, keys, VerifiedKey(email), code, env).0;
            && VerifiedKey(email) in w'.store.kv
            && w'.store.kv[VerifiedKey(email)]
               == Entry(Text("1"), if cfg.emailVerifiedTTL > 0 then Some(w'.store.now + cfg.emailVerifiedTTL) else None)
            && keys.code !in w'.store.kv && keys.attempts !in w'.store.kv
            && w'.history == w.history + [Guessed(Registration, email, cfg.hash(code),
                  true)] + [Consumed(email)] + [Marked(email)]
            && Only(w.store, w'.store, {VerifiedKey(email), keys.code, keys.attempts})
  {
    hide Run, Guess, Key, TallyOf, Holds, Watch, Number, FetchedAt, LiveKey, Verdicts;
    var w, keys := Run(cfg, start, cmds), KeysOf(Registration, email);
    RunHolds(cfg, start, cmds, Registration, email, email);
    Guesses(cfg, Registration, w, email, email, cfg.hash(code), env.guess);
    var (w1, v) := Guess(cfg, Registration, w, email, keys, cfg.hash(code), env.guess);
    assert v.Right?;
    VerifyWrites(cfg, w, email, code, env);
    KeysOfFamilies(Registration, email);
    KeysDistinct(RegisterVerified, email, RegisterCode, email);
    KeysDistinct(RegisterVerified, email, RegisterAttempts, email);
    var w' := Verify(cfg, w, email, keys, VerifiedKey(email), code, env).0;
    forall k | k !in {VerifiedKey(email), keys.code, keys.attempts} ensures Same(k, w.store, w'.store) {
      assert Same(k, w.store, w1.store);
    }
  }

  /** After a right guess the code and the counter are deleted and the mark is written. */
  lemma VerifyWrites(cfg: OtpConfig, w: World, email: string, code: string, env: VerifyEnv)
    requires email != "" && code != "" && Answers(env.consume) && Answers(env.clear) && Answers(env.mark)
    requires Guess(cfg, Registration, w, email, KeysOf(Registration, email), cfg.hash(code), env.guess).1.Right?
    ensures var keys, verified := KeysOf(Registration, email), VerifiedKey(email);
            var w1 := Guess(cfg, Registration, w, email, keys, cfg.hash(code), env.guess).0;
            var at := w1.store.now + env.consume.delay + env.clear.delay + env.mark.delay;
            Verify(cfg, w, email, keys, verified, code, env).0
            == World(Store((w1.store.kv - {keys.code} - {keys.attempts})[verified := Entry(Text("1"), ExpiryAfter(at,
                  cfg.emailVerifiedTTL))], at),
                     w1.history + [Consumed(email)] + [Marked(email)])
  {
    hide Guess, Key, KeysOf;
  }

  // ---- Registering ----

  predicate GoodInput(req: RegisterInput) {
    req.email != "" && '@' in req.email && 8 <= |req.password| <= 256 && |req.pin| == 6 && req.knownAccountType
  }

  /** With an answered command, a registration succeeds exactly when its input is good, address and phone are free, the mark
      of the address is live, and the rest of the work succeeds; without a live mark it answers that the address is not
      verified. It takes the mark away and leaves all other keys. */
  lemma RegisterIff(w: World, req: RegisterInput, env: RegisterEnv)
    requires Answers(env.take)
    ensures var (w', e) := Register(w, req, VerifiedKey(req.email), env);
            var asked := GoodInput(req) && env.unique == Ok((false, false));
            var verified := LiveKey(w.store, VerifiedKey(req.email), w.store.now + env.take.delay);
            && (e == None <==> asked && verified && env.prepared && env.committed.Ok? && env.tokens)
            && (asked && !verified ==> e == Some(EmailNotVerified) && w'.history == w.history)
            && (e == None ==> w'.history == w.history + [Taken(req.email)] + [Registered(req.email)])
            && (asked ==> VerifiedKey(req.email) !in w'.store.kv)
            && Only(w.store, w'.store, {VerifiedKey(req.email)})
            && (!asked ==> w' == w && e != None)
            && (GoodInput(req) && env.unique.Ok? && env.unique.value.0 ==> e == Some(EmailAlreadyTaken))
  {
    hide Key;
  }

  // ---- Sending a code ----

  predicate SendAnswered(env: SendEnv) {
    Answers(env.cooldown) && Answers(env.remaining) && Answers(env.set_) && Answers(env.clear)
  }

  /** The mail of a code, as either flow sends it. */
  lemma IssueIff(cfg: OtpConfig, flow: Flow, w: World, email: string, env: SendEnv)
    requires cfg.Valid() && Plain(email) && SendAnswered(env)
    ensures var keys := KeysOf(flow, email);
            var (w', e) := IssueCode(cfg, flow, w, email, keys, env);
            var cooling := LiveKey(w.store, keys.cooldown, w.store.now + env.cooldown.delay);
            && (e == None <==> !cooling && env.code.Some? && env.mailed)
            && (cooling ==> e.Some? && e.value.OtpCooldown? && w'.store.kv == w.store.kv && w'.history == w.history)
            && (!cooling && env.code.Some? ==>
                  var at := w.store.now + env.cooldown.delay + env.set_.delay;
                  && keys.code in w'.store.kv && w'.store.kv[keys.code]
                        == Entry(Text(cfg.hash(env.code.value)), Some(at + cfg.ttl))
                  && w'.store.now == at + env.clear.delay
                  && keys.attempts !in w'.store.kv && keys.cooldown in w'.store.kv
                  && w'.history == w.history + [CodeSet(flow, email, cfg.hash(env.code.value))] + [CounterCleared(flow, email)]
                  && Only(w.store, w'.store, {keys.code, keys.attempts, keys.cooldown}))
  {
    hide Key;
    OwnKeys(flow, email, flow, email);
    KeysOfFamilies(flow, email);
    KeysDistinct(CooldownFamily(flow), email, CodeFamily(flow), email);
    KeysDistinct(CooldownFamily(flow), email, AttemptsFamily(flow), email);
  }

  /** While it cools down, the answer says for how long; a cooldown that is over by the second reading counts as two below
      zero. */
  lemma CoolingTells(cfg: OtpConfig, flow: Flow, w: World, email: string, env: SendEnv)
    requires SendAnswered(env) && LiveKey(w.store, KeysOf(flow, email).cooldown, w.store.now + env.cooldown.delay)
    ensures var entry := w.store.kv[KeysOf(flow, email).cooldown];
            var at := w.store.now + env.cooldown.delay + env.remaining.delay;
            IssueCode(cfg, flow, w, email, KeysOf(flow, email), env).1
            == Some(OtpCooldown(if entry.expiry.None? then -1
                  else if at < entry.expiry.value then entry.expiry.value - at else -2))
  {
    hide Key;
  }

  /** A registration code is sent exactly for a plausible address that is free; a taken one is told so. Nothing happens
      otherwise. */
  lemma SendIff(cfg: OtpConfig, w: World, email: string, taken: Option<bool>, env: SendEnv)
    ensures var (w', e) := SendRegistration(cfg, w, email, taken, env);
            var plausible := email != "" && '@' in email;
            && (e == Some(EmailAlreadyTaken) <==> plausible && taken == Some(true))
            && (e == Some(InvalidInput) <==> !plausible)
            && (plausible && taken == Some(false) ==>
                  (w', e) == IssueCode(cfg, Registration, w, email, KeysOf(Registration, email), env))
            && (!(plausible && taken == Some(false)) ==> w' == w && e != None)
  {
    hide KeysOf, TryCooldown, Set, Del;
  }

  /** A reset code is sent exactly for a plausible address that is known; for an unknown one the answer is success and
      nothing happens. */
  lemma ForgotIff(cfg: OtpConfig, w: World, email: string, known: Option<bool>, env: SendEnv)
    ensures var (w', e) := ForgotPassword(cfg, w, email, known, env);
            var plausible := email != "" && '@' in email;
            && (e == Some(InvalidInput) <==> !plausible)
            && (plausible && known == Some(false) ==> e == None)
            && (plausible && known == Some(true) ==> (w', e) == IssueCode(cfg, Reset, w, email, KeysOf(Reset, email), env))
            && (!(plausible && known == Some(true)) ==> w' == w)
  {
    hide KeysOf, TryCooldown, Set, Del;
  }

  // ---- Resetting a password ----

  predicate ResetInputGood(req: ResetInput) {
    req.email != "" && req.code != "" && req.password == req.confirm && 8 <= |req.password| <= 256
  }

  predicate ResetWorks(env: ResetEnv) {
    env.user.Some? && env.updated.Answered? && Answers(env.upgrade) && env.revoked
  }

  /** On the store of any run, when the guess is answered: a reset succeeds exactly when its input is good, the guess is
      within the limit, the code stored last is live and is the one given, and user, update and revocation succeed,
      whatever becomes of the clean-up. The password changes exactly when such a code meets an update that took effect. */
  lemma ResetIff(cfg: OtpConfig, start: int, cmds: seq<Command>, req: ResetInput, env: ResetEnv)
    requires cfg.Valid() && PlainRun(cmds) && PlainCommand(ResetCmd(req, env)) && GuessAnswered(env.guess)
    ensures var w, keys := Run(cfg, start, cmds), KeysOf(Reset, req.email);
            var (w', e) := ResetPassword(cfg, w, req, keys, VersionKey(env.user), env);
            var n, live := Number(w.store, keys.attempts, env.guess), LiveKey(w.store, keys.code, FetchedAt(w.store,
                  keys.attempts, env.guess));
            var right := n <= 5 && live && TallyOf(w.history, Reset, req.email).hash == Some(cfg.hash(req.code));
            && (e == None <==> ResetInputGood(req) && right && ResetWorks(env))
            && (PasswordChanged(req.email) in w'.history[|w.history|..]
                <==> ResetInputGood(req) && right && env.user.Some? && !env.updated.Dropped?)
            && (ResetInputGood(req) ==>
                  && (e == Some(OtpMaxTries) <==> n > 5)
                  && (e == Some(OtpExpired) <==> n <= 5 && !live)
                  && (e == Some(OtpInvalid(5 - n)) <==> n <= 5 && live && !right))
  {
    hide Run, Guess, Key, KeysOf, TallyOf, Number, FetchedAt, LiveKey, Incr, Del, Holds;
    var w, keys := Run(cfg, start, cmds), KeysOf(Reset, req.email);
    var user := if env.user.Some? then env.user.value else req.email;
    RunHolds(cfg, start, cmds, Reset, req.email, user);
    Guesses(cfg, Reset, w, req.email, user, cfg.hash(req.code), env.guess);
    GuessTells(cfg, w, req.email, cfg.hash(req.code), env.guess);
    var (w1, v) := Guess(cfg, Reset, w, req.email, keys, cfg.hash(req.code), env.guess);
    if env.user.Some? {
      OwnKeys(Reset, req.email, Reset, req.email);
      KeysOfFamilies(Reset, req.email);
      GuessHolds(cfg, Reset, w, req.email, keys, cfg.hash(req.code), env.guess, Watch(Reset, req.email, user), Reset,
            req.email);
      Upgrading(cfg, w1, req.email, user, env.upgrade);
    }
    var h := ResetPassword(cfg, w, req, keys, VersionKey(env.user), env).0.history;
    assert h == w.history || h == w1.history || h == w1.history + [PasswordChanged(req.email)];
    assert h == w.history || h[|w.history|..] == w1.history[|w.history|..] || h[|w.history|..]
          == w1.history[|w.history|..] + [PasswordChanged(req.email)];
  }

  lemma Upgrading(cfg: OtpConfig, w: World, email: string, user: string, io: Io)
    requires Holds(cfg, w, Watch(Reset, email, user), Reset, email)
    ensures Incr(w.store, io, Key(TokenVersion, user)).1.Ok? <==> Answers(io)
  {
    hide Key, TallyOf;
  }

  /** A guess changes no password. */
  lemma GuessTells(cfg: OtpConfig, w: World, email: string, supplied: string, env: GuessEnv)
    ensures var h := Guess(cfg, Reset, w, email, KeysOf(Reset, email), supplied, env).0.history;
            |h| >= |w.history| && PasswordChanged(email) !in h[|w.history|..]
  {
    hide KeysOf, IncrementAttempts, Get, Del;
  }

  /** What a successful reset leaves: one version more for the user, and the code and the counter gone unless their
      deletion was lost. */
  lemma ResetLeaves(cfg: OtpConfig, start: int, cmds: seq<Command>, req: ResetInput, env: ResetEnv)
    requires cfg.Valid() && PlainRun(cmds) && PlainCommand(ResetCmd(req, env)) && GuessAnswered(env.guess)
    requires ResetPassword(cfg, Run(cfg, start, cmds), req, KeysOf(Reset, req.email), VersionKey(env.user), env).1 == None
    ensures var w, keys := Run(cfg, start, cmds), KeysOf(Reset, req.email);
            var s' := ResetPassword(cfg, w, req, keys, VersionKey(env.user), env).0.store;
            && env.user.Some? && var version := Key(TokenVersion, env.user.value);
            && version in s'.kv && s'.kv[version].value
               == Count(if LiveKey(w.store, version, FetchedAt(w.store, keys.attempts, env.guess) + env.upgrade.delay)
                           && w.store.kv[version].value.Count? then w.store.kv[version].value.count + 1 else 1)
            && (keys.code in s'.kv ==> env.consume.fate.Dropped?) && (keys.attempts in s'.kv ==> env.clear.fate.Dropped?)
            && Only(w.store, s', {version, keys.code, keys.attempts})
  {
    hide Run, Guess, Key, KeysOf, TallyOf, Number, FetchedAt, Holds, Verdicts;
    var w, keys, user, version := Run(cfg, start, cmds), KeysOf(Reset, req.email), env.user.value, Key(TokenVersion,
          env.user.value);
    RunHolds(cfg, start, cmds, Reset, req.email, user);
    Guesses(cfg, Reset, w, req.email, user, cfg.hash(req.code), env.guess);
    var w1 := Guess(cfg, Reset, w, req.email, keys, cfg.hash(req.code), env.guess).0;
    KeysOfFamilies(Reset, req.email);
    KeysDistinct(TokenVersion, user, ResetCode, req.email);
    KeysDistinct(TokenVersion, user, ResetAttempts, req.email);
    assert Same(version, w.store, w1.store);
    var s' := ResetPassword(cfg, w, req, keys, VersionKey(env.user), env).0.store;
    forall k | k !in {version, keys.code, keys.attempts} ensures Same(k, w.store, s') {
      assert Same(k, w.store, w1.store);
    }
  }

  // ---- From the first request to the account ----

  const CALM := GuessEnv(FINE, FINE, FINE, FINE)

  function Sends(code: string): SendEnv {
    SendEnv(FINE, FINE, Some(code), FINE, FINE, true)
  }

  lemma SentHash(w: World, flow: Flow, email: string, h: string)
    ensures TallyOf(w.history + [CodeSet(flow, email, h)] + [CounterCleared(flow, email)], flow, email).hash == Some(h)
  {
    hide Key;
    TallyAppend(w.history, CodeSet(flow, email, h), flow, email);
    TallyAppend(w.history + [CodeSet(flow, email, h)], CounterCleared(flow, email), flow, email);
  }

  /** A code is there some time after it was sent, with no guess counted. */
  ghost predicate Waiting(w: World, flow: Flow, email: string, h: string) {
    && KeysOf(flow, email).code in w.store.kv && LiveKey(w.store, KeysOf(flow, email).code, w.store.now)
    && KeysOf(flow, email).attempts !in w.store.kv && TallyOf(w.history, flow, email).hash == Some(h)
  }

  lemma SentWaits(cfg: OtpConfig, w: World, flow: Flow, email: string, code: string, d: nat)
    requires cfg.Valid() && Plain(email) && !LiveKey(w.store, KeysOf(flow, email).cooldown, w.store.now) && d < cfg.ttl
    ensures var (w1, e) := IssueCode(cfg, flow, w, email, KeysOf(flow, email), Sends(code));
            e == None && Waiting(Step(cfg, w1, Wait(d)), flow, email, cfg.hash(code))
  {
    hide KeysOf, IssueCode, TallyOf;
    IssueIff(cfg, flow, w, email, Sends(code));
    SentHash(w, flow, email, cfg.hash(code));
  }

  lemma GoodGuess(w: World, flow: Flow, email: string, h: string)
    requires Waiting(w, flow, email, h)
    ensures Number(w.store, KeysOf(flow, email).attempts, CALM) == 1
    ensures LiveKey(w.store, KeysOf(flow, email).code, FetchedAt(w.store, KeysOf(flow, email).attempts, CALM))
  {
    hide KeysOf, TallyOf;
  }

  /** After any run, for a plausible address that is free and not cooling down, when every command is answered: a code is
      sent; given within its lifetime it verifies the address; and within the life of the mark a good registration
      succeeds. */
  lemma SignUp(cfg: OtpConfig, start: int, cmds: seq<Command>, email: string, code: string, d: nat, later: nat,
               req: RegisterInput, env: RegisterEnv)
    requires cfg.Valid() && PlainRun(cmds) && Plain(email) && PlausibleEmail(email) && code != ""
    requires !LiveKey(Run(cfg, start, cmds).store, KeysOf(Registration, email).cooldown, Run(cfg, start, cmds).store.now)
    requires d < cfg.ttl && (cfg.emailVerifiedTTL > 0 ==> later < cfg.emailVerifiedTTL)
    requires req.email == email && GoodInput(req) && env.unique == Ok((false, false)) && env.take == FINE && env.prepared
             && env.committed.Ok? && env.tokens
    ensures var send, verify := SendCmd(email, Some(false), Sends(code)), VerifyCmd(email, code, VerifyEnv(CALM, FINE,
          FINE, FINE));
            var sent := cmds + [send] + [Wait(d)];
            var verified := sent + [verify] + [Wait(later)];
            && SendRegistration(cfg, Run(cfg, start, cmds), email, Some(false), Sends(code)).1 == None
            && Verify(cfg, Run(cfg, start, sent), email, KeysOf(Registration, email), VerifiedKey(email), code,
                  VerifyEnv(CALM, FINE, FINE, FINE)).1
               == None
            && Register(Run(cfg, start, verified), req, VerifiedKey(email), env).1 == None
  {
    hide Run, KeysOf, Key, IssueCode, Verify, Register, TallyOf, Waiting, LiveKey, Number, FetchedAt;
    var send, verify := SendCmd(email, Some(false), Sends(code)), VerifyCmd(email, code, VerifyEnv(CALM, FINE, FINE, FINE));
    var sent := cmds + [send] + [Wait(d)];
    var w0 := Run(cfg, start, cmds);
    RunSnoc(cfg, start, cmds, send);
    RunSnoc(cfg, start, cmds + [send], Wait(d));
    SendIff(cfg, w0, email, Some(false), Sends(code));
    SentWaits(cfg, w0, Registration, email, code, d);
    var w2 := Run(cfg, start, sent);
    GoodGuess(w2, Registration, email, cfg.hash(code));
    MatchesWaiting(w2, Registration, email, cfg.hash(code));
    VerifyIff(cfg, start, sent, email, code, VerifyEnv(CALM, FINE, FINE, FINE));
    VerifiedLeaves(cfg, start, sent, email, code, VerifyEnv(CALM, FINE, FINE, FINE));
    RunSnoc(cfg, start, sent, verify);
    RunSnoc(cfg, start, sent + [verify], Wait(later));
    RegisterIff(Run(cfg, start, sent + [verify] + [Wait(later)]), req, env);
    MarkLives(cfg, Run(cfg, start, sent + [verify]), email, later);
  }

  lemma MatchesWaiting(w: World, flow: Flow, email: string, h: string)
    requires Waiting(w, flow, email, h)
    ensures TallyOf(w.history, flow, email).hash == Some(h)
  {
  }

  lemma MarkLives(cfg: OtpConfig, w: World, email: string, d: nat)
    requires VerifiedKey(email) in w.store.kv && w.store.kv[VerifiedKey(email)]
             == Entry(Text("1"), if cfg.emailVerifiedTTL > 0 then Some(w.store.now + cfg.emailVerifiedTTL) else None)
    requires cfg.emailVerifiedTTL > 0 ==> d < cfg.emailVerifiedTTL
    ensures var w' := Step(cfg, w, Wait(d)); LiveKey(w'.store, VerifiedKey(email), w'.store.now + FINE.delay)
  {
    hide Key;
  }

  /** After any run, when every command is answered: a known address that is not cooling down is sent a reset code, and with
      it, within its lifetime, a good reset succeeds. */
  lemma PasswordRecovered(cfg: OtpConfig, start: int, cmds: seq<Command>, req: ResetInput, d: nat, env: ResetEnv)
    requires cfg.Valid() && PlainRun(cmds) && PlainCommand(ResetCmd(req, env)) && PlausibleEmail(req.email)
          && ResetInputGood(req)
    requires !LiveKey(Run(cfg, start, cmds).store, KeysOf(Reset, req.email).cooldown, Run(cfg, start, cmds).store.now)
    requires d < cfg.ttl && env.guess == CALM && ResetWorks(env)
    ensures var forgot := ForgotCmd(req.email, Some(true), Sends(req.code));
            && ForgotPassword(cfg, Run(cfg, start, cmds), req.email, Some(true), Sends(req.code)).1 == None
            && ResetPassword(cfg, Run(cfg, start, cmds + [forgot] + [Wait(d)]), req, KeysOf(Reset, req.email),
                  VersionKey(env.user), env).1 == None
  {
    hide Run, KeysOf, Key, IssueCode, ResetPassword, TallyOf, Waiting, LiveKey, Number, FetchedAt;
    var forgot := ForgotCmd(req.email, Some(true), Sends(req.code));
    var w0, sent := Run(cfg, start, cmds), cmds + [forgot] + [Wait(d)];
    RunSnoc(cfg, start, cmds, forgot);
    RunSnoc(cfg, start, cmds + [forgot], Wait(d));
    ForgotIff(cfg, w0, req.email, Some(true), Sends(req.code));
    SentWaits(cfg, w0, Reset, req.email, req.code, d);
    GoodGuess(Run(cfg, start, sent), Reset, req.email, cfg.hash(req.code));
    MatchesWaiting(Run(cfg, start, sent), Reset, req.email, cfg.hash(req.code));
    ResetIff(cfg, start, sent, req, env);
  }
}
