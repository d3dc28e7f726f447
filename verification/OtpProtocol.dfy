/** The one-time-code protocol as a state machine: sending, guessing, registering, resetting.
    A world is the Redis store together with the history of what happened so far. */
module OtpProtocol {
  import opened Common
  import opened Redis
  import opened Keyspace
  import opened TokenStore

  datatype OtpConfig = OtpConfig(
    ttl: int,
    length: int,
    resendCooldown: int,
    maxVerifyAttempts: int,
    emailVerifiedTTL: int,
    hash: string -> string,
    lower: char -> char)
  {
    predicate Valid() {
      4 <= length <= 10 && maxVerifyAttempts >= 1 && ttl > 0
    }
  }

  const RESET_ATTEMPTS_TTL := 15 * 60
  const MAX_RESET_ATTEMPTS := 5

  datatype Flow = Registration | Reset

  /** The three keys one flow uses for one address. */
  datatype FlowKeys = FlowKeys(code: string, attempts: string, cooldown: string)

  function KeysOf(flow: Flow, email: string): FlowKeys {
    match flow
    case Registration => FlowKeys(Key(RegisterCode, email), Key(RegisterAttempts, email), Key(RegisterCooldown, email))
    case Reset => FlowKeys(Key(ResetCode, email), Key(ResetAttempts, email), Key(ResetCooldown, email))
  }

  function VerifiedKey(email: string): string {
    Key(RegisterVerified, email)
  }

  function VersionKey(user: Option<string>): string {
    if user.Some? then Key(TokenVersion, user.value) else ""
  }

  function MaxGuesses(cfg: OtpConfig, flow: Flow): int {
    if flow.Reset? then MAX_RESET_ATTEMPTS else cfg.maxVerifyAttempts
  }

  function AttemptsTtl(cfg: OtpConfig, flow: Flow): int {
    if flow.Reset? then RESET_ATTEMPTS_TTL else cfg.ttl
  }

  datatype Event =
    | CodeSet(flow: Flow, email: string, hash: string)
    | CounterCleared(flow: Flow, email: string)
    | Guessed(flow: Flow, email: string, hash: string, right: bool)
    | Consumed(email: string)
    | Marked(email: string)
    | Taken(email: string)
    | Registered(email: string)
    | PasswordChanged(email: string)

  datatype World = World(store: Store, history: seq<Event>)
  {
    function Emit(happened: bool, ev: Event): World {
      if happened then World(store, history + [ev]) else this
    }
    function At(s: Store): World {
      World(s, history)
    }
  }

  // ---- Sending a code ----

  datatype SendEnv = SendEnv(cooldown: Io, remaining: Io, code: Option<string>, set_: Io, clear: Io, mailed: bool)

  /** The part SendRegistrationOTP and ForgotPassword share after their user lookup. */
  function IssueCode(cfg: OtpConfig, flow: Flow, w: World, email: string, keys: FlowKeys, env: SendEnv)
    : (r: (World, Option<Error>))
  {
    var (s1, c) := TryCooldown(w.store, env.cooldown, env.remaining, keys.cooldown, cfg.resendCooldown);
    var w1 := w.At(s1);
    if c.Err? then (w1, Some(Failure))
    else if !c.value.0 then (w1, Some(OtpCooldown(c.value.1)))
    else if env.code.None? then (w1, Some(Failure))
    else
      var h := cfg.hash(env.code.value);
      var (s2, ok2) := Set(s1, env.set_, keys.code, Text(h), cfg.ttl);
      var w2 := w1.At(s2).Emit(!env.set_.fate.Dropped?, CodeSet(flow, email, h));
      if !ok2 then (w2, Some(Failure))
      else
        var (s3, ok3) := Del(s2, env.clear, keys.attempts);
        var w3 := w2.At(s3).Emit(!env.clear.fate.Dropped?, CounterCleared(flow, email));
        (w3, if ok3 && env.mailed then None else Some(Failure))
  }

  predicate PlausibleEmail(email: string) {
    email != "" && '@' in email
  }

  /** SendRegistrationOTP; taken is the answer of the user lookup, if there was one. */
  function SendRegistration(cfg: OtpConfig, w: World, email: string, taken: Option<bool>, env: SendEnv)
    : (r: (World, Option<Error>))
  {
    if !PlausibleEmail(email) then (w, Some(InvalidInput))
    else if taken.None? then (w, Some(Failure))
    else if taken.value then (w, Some(EmailAlreadyTaken))
    else IssueCode(cfg, Registration, w, email, KeysOf(Registration, email), env)
  }

  /** ForgotPassword answers success for an unknown address without touching the store. */
  function ForgotPassword(cfg: OtpConfig, w: World, email: string, known: Option<bool>, env: SendEnv)
    : (r: (World, Option<Error>))
  {
    if !PlausibleEmail(email) then (w, Some(InvalidInput))
    else if known.None? then (w, Some(Failure))
    else if !known.value then (w, None)
    else IssueCode(cfg, Reset, w, email, KeysOf(Reset, email), env)
  }

  // ---- Guessing a code ----

  datatype GuessEnv = GuessEnv(incr: Io, expire: Io, drop: Io, get: Io)

  datatype Verdict = Broken | Exhausted | NoCode | Wrong(left: int) | Right

  /** The part VerifyRegistrationOTP and ResetPassword share: count, limit, fetch, compare. */
  function Guess(cfg: OtpConfig, flow: Flow, w: World, email: string, keys: FlowKeys, supplied: string, env: GuessEnv)
    : (r: (World, Verdict))
  {
    var (s1, n) := IncrementAttempts(w.store, env.incr, env.expire, keys.attempts, AttemptsTtl(cfg, flow));
    var w1 := w.At(s1);
    if n.Err? then (w1, Broken)
    else if n.value > MaxGuesses(cfg, flow) then (w1.At(Del(s1, env.drop, keys.code).0), Exhausted)
    else
      var (s2, stored) := Get(s1, env.get, keys.code);
      var w2 := w1.At(s2);
      match stored
      case Err(_) => (w2, Broken)
      case Ok(None) => (w2, NoCode)
      case Ok(Some(v)) =>
        var right := v == Text(supplied);
        var left := MaxGuesses(cfg, flow) - n.value;
        (w2.Emit(true, Guessed(flow, email, supplied, right)), if right then Right else Wrong(if left < 0 then 0 else left))
  }

  function Refusal(v: Verdict): Error
    requires !v.Right?
  {
    match v
    case Broken => Failure
    case Exhausted => OtpMaxTries
    case NoCode => OtpExpired
    case Wrong(left) => OtpInvalid(left)
  }

  datatype VerifyEnv = VerifyEnv(guess: GuessEnv, consume: Io, clear: Io, mark: Io)

  /** VerifyRegistrationOTP: a right guess consumes the code, then marks the address. */
  function Verify(cfg: OtpConfig, w: World, email: string, keys: FlowKeys, verified: string, code: string, env: VerifyEnv)
    : (r: (World, Option<Error>))
  {
    if email == "" || code == "" then (w, Some(InvalidInput))
    else
      var (w1, v) := Guess(cfg, Registration, w, email, keys, cfg.hash(code), env.guess);
      if !v.Right? then (w1, Some(Refusal(v)))
      else
        var (s2, ok2) := Del(w1.store, env.consume, keys.code);
        var w2 := w1.At(s2).Emit(!env.consume.fate.Dropped?, Consumed(email));
        if !ok2 then (w2, Some(Failure))
        else
          var (s3, ok3) := Del(s2, env.clear, keys.attempts);
          var w3 := w2.At(s3);
          if !ok3 then (w3, Some(Failure))
          else
            var (s4, ok4) := Set(s3, env.mark, verified, Text("1"), cfg.emailVerifiedTTL);
            (w3.At(s4).Emit(!env.mark.fate.Dropped?, Marked(email)), if ok4 then None else Some(Failure))
  }

  // ---- Using a verified address, or a guessed reset code ----

  datatype RegisterInput = RegisterInput(email: string, password: string, pin: string, knownAccountType: bool)
  datatype RegisterEnv = RegisterEnv(
    unique: Result<(bool, bool)>,   // email taken, phone taken
    take: Io,
    prepared: bool,                 // hashing, identifiers, handle, QR code and role lookup
    committed: Result<()>,          // the transaction writing user, role, PIN and outbox event
    landed: bool,                   // whether it took effect although an error came back
    tokens: bool)

  predicate AcceptablePassword(pw: string) {
    8 <= |pw| <= 256
  }

  /** Register takes the verified mark before it writes anything. */
  function Register(w: World, req: RegisterInput, verified: string, env: RegisterEnv): (r: (World, Option<Error>))
  {
    if !PlausibleEmail(req.email) then (w, Some(InvalidInput))
    else if !AcceptablePassword(req.password) then (w, Some(InvalidPassword))
    else if |req.pin| != 6 || !req.knownAccountType then (w, Some(InvalidInput))
    else if env.unique.Err? then (w, Some(Failure))
    else if env.unique.value.0 then (w, Some(EmailAlreadyTaken))
    else if env.unique.value.1 then (w, Some(PhoneAlreadyTaken))
    else
      var (s1, found) := GetDel(w.store, env.take, verified);
      var w1 := w.At(s1);
      if found.Err? then (w1, Some(Failure))
      else if !found.value then (w1, Some(EmailNotVerified))
      else
        var w2 := w1.Emit(true, Taken(req.email));
        if !env.prepared then (w2, Some(Failure))
        else if env.committed.Err? then (w2.Emit(env.landed, Registered(req.email)), Some(env.committed.error))
        else (w2.Emit(true, Registered(req.email)), if env.tokens then None else Some(Failure))
  }

  datatype ResetInput = ResetInput(email: string, code: string, password: string, confirm: string)
  datatype ResetEnv = ResetEnv(
    guess: GuessEnv,
    user: Option<string>,
    updated: Fate,                  // hashing and UpdatePassword
    upgrade: Io,
    revoked: bool,                  // version row and refresh tokens
    consume: Io,
    clear: Io)

  /** ResetPassword: the clean-up of code and counter ignores its errors. */
  function ResetPassword(cfg: OtpConfig, w: World, req: ResetInput, keys: FlowKeys, version: string, env: ResetEnv)
    : (r: (World, Option<Error>))
  {
    if req.email == "" || req.code == "" || req.password == "" || req.confirm == "" then (w, Some(InvalidInput))
    else if req.password != req.confirm then (w, Some(PasswordMismatch))
    else if !AcceptablePassword(req.password) then (w, Some(InvalidPassword))
    else
      var (w1, v) := Guess(cfg, Reset, w, req.email, keys, cfg.hash(req.code), env.guess);
      if !v.Right? then (w1, Some(Refusal(v)))
      else if env.user.None? then (w1, Some(Failure))
      else
        var w2 := w1.Emit(!env.updated.Dropped?, PasswordChanged(req.email));
        if !env.updated.Answered? then (w2, Some(Failure))
        else
          var (s3, bumped) := Incr(w2.store, env.upgrade, version);
          if bumped.Err? || !env.revoked then (w2.At(s3), Some(Failure))
          else
            var s4 := Del(s3, env.consume, keys.code).0;
            var s5 := Del(s4, env.clear, keys.attempts).0;
            (w2.At(s5), None)
  }

  // ---- Runs ----

  datatype Command =
    | Wait(d: nat)
    | SendCmd(email: string, taken: Option<bool>, send: SendEnv)
    | ForgotCmd(email: string, known: Option<bool>, send: SendEnv)
    | VerifyCmd(email: string, code: string, verify: VerifyEnv)
    | RegisterCmd(reg: RegisterInput, renv: RegisterEnv)
    | ResetCmd(req: ResetInput, env: ResetEnv)
    | ClaimCmd(tokenId: string, ttl: int, io: Io)
    | UpgradeCmd(userId: string, io: Io)

  function Step(cfg: OtpConfig, w: World, c: Command): World {
    match c
    case Wait(d) => w.At(w.store.(now := w.store.now + d))
    case SendCmd(email, taken, env) => SendRegistration(cfg, w, email, taken, env).0
    case ForgotCmd(email, known, env) => ForgotPassword(cfg, w, email, known, env).0
    case VerifyCmd(email, code, env) => Verify(cfg, w, email, KeysOf(Registration, email), VerifiedKey(email), code, env).0
    case RegisterCmd(req, env) => Register(w, req, VerifiedKey(req.email), env).0
    case ResetCmd(req, env) => ResetPassword(cfg, w, req, KeysOf(Reset, req.email), VersionKey(env.user), env).0
    case ClaimCmd(id, ttl, io) => w.At(SetNX(w.store, io, Key(RefreshClaim, id), Text("claimed"), ttl).0)
    case UpgradeCmd(id, io) => w.At(Incr(w.store, io, Key(TokenVersion, id)).0)
  }

  /** Identifiers of a command contain no colon, so its keys are its own. */
  predicate PlainCommand(c: Command) {
    match c
    case Wait(_) => true
    case SendCmd(email, _, _) => Plain(email)
    case ForgotCmd(email, _, _) => Plain(email)
    case VerifyCmd(email, _, _) => Plain(email)
    case RegisterCmd(req, _) => Plain(req.email)
    case ResetCmd(req, env) => Plain(req.email) && (env.user.Some? ==> Plain(env.user.value))
    case ClaimCmd(id, _, _) => Plain(id)
    case UpgradeCmd(id, _) => Plain(id)
  }

  predicate PlainRun(cmds: seq<Command>) {
    forall i :: 0 <= i < |cmds| ==> PlainCommand(cmds[i])
  }

  function Run(cfg: OtpConfig, start: int, cmds: seq<Command>): World {
    if cmds == [] then World(Store(map[], start), [])
    else Step(cfg, Run(cfg, start, cmds[..|cmds| - 1]), cmds[|cmds| - 1])
  }

  lemma RunSnoc(cfg: OtpConfig, start: int, cmds: seq<Command>, c: Command)
    ensures Run(cfg, start, cmds + [c]) == Step(cfg, Run(cfg, start, cmds), c)
  {
    assert (cmds + [c])[..|cmds|] == cmds;
  }

  lemma IssueGrows(cfg: OtpConfig, flow: Flow, w: World, email: string, keys: FlowKeys, env: SendEnv)
    ensures w.history <= IssueCode(cfg, flow, w, email, keys, env).0.history
  {
    hide TryCooldown, Set, Del;
  }

  lemma GuessGrows(cfg: OtpConfig, flow: Flow, w: World, email: string, keys: FlowKeys, supplied: string, env: GuessEnv)
    ensures w.history <= Guess(cfg, flow, w, email, keys, supplied, env).0.history
  {
    hide IncrementAttempts, Get, Del;
  }

  /** What happened is never taken back. */
  lemma HistoryGrows(cfg: OtpConfig, w: World, c: Command)
    ensures w.history <= Step(cfg, w, c).history
  {
    hide IssueCode, Guess, KeysOf, Key, Set, Del, Incr, GetDel, SetNX;
    match c
    case SendCmd(email, _, env) => IssueGrows(cfg, Registration, w, email, KeysOf(Registration, email), env);
    case ForgotCmd(email, _, env) => IssueGrows(cfg, Reset, w, email, KeysOf(Reset, email), env);
    case VerifyCmd(email, code, env) =>
      GuessGrows(cfg, Registration, w, email, KeysOf(Registration, email), cfg.hash(code), env.guess);
    case ResetCmd(req, env) => GuessGrows(cfg, Reset, w, req.email, KeysOf(Reset, req.email), cfg.hash(req.code), env.guess);
    case _ =>
  }

  lemma {:induction false} RunGrows(cfg: OtpConfig, start: int, cmds: seq<Command>, more: seq<Command>)
    ensures Run(cfg, start, cmds).history <= Run(cfg, start, cmds + more).history
  {
    hide Step;
    if more == [] {
      assert cmds + more == cmds;
    } else {
      var init, c := more[..|more| - 1], more[|more| - 1];
      RunGrows(cfg, start, cmds, init);
      assert cmds + more == cmds + init + [c];
      RunSnoc(cfg, start, cmds + init, c);
      HistoryGrows(cfg, Run(cfg, start, cmds + init), c);
    }
  }
}
