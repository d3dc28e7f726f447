/** Codes, verifications and registrations are used up one for one. */
module OtpCounting {
  import opened Common
  import opened Redis
  import opened Keyspace
  import opened TokenStore
  import opened OtpProtocol
  import OtpSafety

  /** How often each thing happened to one address in the registration flow; whether a mark was written since the last
      one was taken; and whether that was so each time one was taken. */
  datatype Counts = Counts(sent: nat, consumed: nat, marked: nat, taken: nat, registered: nat, standing: bool, honest: bool)

  function Counted(c: Counts, email: string, ev: Event): Counts {
    match ev
    case CodeSet(Registration, e, _) => if e == email then c.(sent := c.sent + 1) else c
    case Consumed(e) => if e == email then c.(consumed := c.consumed + 1) else c
    case Marked(e) => if e == email then c.(marked := c.marked + 1, standing := true) else c
    case Taken(e) => if e == email then c.(taken := c.taken + 1, standing := false, honest := c.honest && c.standing) else c
    case Registered(e) => if e == email then c.(registered := c.registered + 1) else c
    case _ => c
  }

  function CountsOf(h: seq<Event>, email: string): Counts {
    if h == [] then Counts(0, 0, 0, 0, 0, false, true) else Counted(CountsOf(h[..|h| - 1], email), email, h[|h| - 1])
  }

  lemma EmitCounts(w: World, happened: bool, ev: Event, email: string)
    ensures CountsOf(w.Emit(happened, ev).history, email)
         == if happened then Counted(CountsOf(w.history, email), email, ev) else CountsOf(w.history, email)
  {
  }

  function Present(s: Store, k: string): nat {
    if k in s.kv then 1 else 0
  }

  /** A stored code and a stored mark are unspent; every later stage spent one of the stage before. */
  ghost predicate Balanced(s: Store, ck: string, vk: string, c: Counts) {
    && c.consumed + Present(s, ck) <= c.sent
    && c.marked <= c.consumed
    && c.taken + Present(s, vk) <= c.marked
    && c.registered <= c.taken
    && (vk in s.kv ==> c.standing) && c.honest
  }

  ghost predicate Inv(w: World, email: string, ck: string, vk: string) {
    Balanced(w.store, ck, vk, CountsOf(w.history, email))
  }

  lemma CodeStoredBalances(w: World, io: Io, f: Flow, e: string, k: string, h: string, ttl: int, email: string, ck: string, vk: string)
    requires Inv(w, email, ck, vk) && (ck == k <==> f == Registration && e == email) && vk != k
    ensures Inv(w.At(Set(w.store, io, k, Text(h), ttl).0).Emit(!io.fate.Dropped?, CodeSet(f, e, h)), email, ck, vk)
  {
    hide CountsOf;
    EmitCounts(w.At(Set(w.store, io, k, Text(h), ttl).0), !io.fate.Dropped?, CodeSet(f, e, h), email);
  }

  lemma CounterClearedBalances(w: World, io: Io, f: Flow, e: string, k: string, email: string, ck: string, vk: string)
    requires Inv(w, email, ck, vk) && ck != k && vk != k
    ensures Inv(w.At(Del(w.store, io, k).0).Emit(!io.fate.Dropped?, CounterCleared(f, e)), email, ck, vk)
  {
    hide CountsOf;
    EmitCounts(w.At(Del(w.store, io, k).0), !io.fate.Dropped?, CounterCleared(f, e), email);
  }

  lemma IssueBalances(cfg: OtpConfig, f: Flow, w: World, e: string, k: FlowKeys, env: SendEnv,
                      email: string, ck: string, vk: string)
    requires Inv(w, email, ck, vk)
    requires ck == k.code <==> f == Registration && e == email
    requires k.cooldown != ck && k.attempts != ck && vk != k.cooldown && vk != k.attempts && vk != k.code
    ensures Inv(IssueCode(cfg, f, w, e, k, env).0, email, ck, vk)
  {
    hide CountsOf, TryCooldown, Set, Del;
    var (s1, c) := TryCooldown(w.store, env.cooldown, env.remaining, k.cooldown, cfg.resendCooldown);
    OtpSafety.CooldownElsewhere(w.store, env.cooldown, env.remaining, k.cooldown, cfg.resendCooldown, ck);
    OtpSafety.CooldownElsewhere(w.store, env.cooldown, env.remaining, k.cooldown, cfg.resendCooldown, vk);
    assert Inv(w.At(s1), email, ck, vk);
    hide Inv;
    if c.Ok? && c.value.0 && env.code.Some? {
      var h := cfg.hash(env.code.value);
      CodeStoredBalances(w.At(s1), env.set_, f, e, k.code, h, cfg.ttl, email, ck, vk);
      var w2 := w.At(Set(s1, env.set_, k.code, Text(h), cfg.ttl).0).Emit(!env.set_.fate.Dropped?, CodeSet(f, e, h));
      CounterClearedBalances(w2, env.clear, f, e, k.attempts, email, ck, vk);
    }
  }

  lemma GuessBalances(cfg: OtpConfig, f: Flow, w: World, e: string, k: FlowKeys, supplied: string, env: GuessEnv,
                      email: string, ck: string, vk: string)
    requires Inv(w, email, ck, vk)
    requires k.attempts != ck && k.attempts != vk && k.code != vk
    ensures var (w', v) := Guess(cfg, f, w, e, k, supplied, env);
            && Inv(w', email, ck, vk)
            && CountsOf(w'.history, email) == CountsOf(w.history, email)
            && (v.Right? ==> k.code in w'.store.kv)
  {
    hide CountsOf, IncrementAttempts;
    var (s1, n) := IncrementAttempts(w.store, env.incr, env.expire, k.attempts, AttemptsTtl(cfg, f));
    OtpSafety.IncrementElsewhere(w.store, env.incr, env.expire, k.attempts, AttemptsTtl(cfg, f), ck);
    OtpSafety.IncrementElsewhere(w.store, env.incr, env.expire, k.attempts, AttemptsTtl(cfg, f), vk);
    var (s2, stored) := Get(s1, env.get, k.code);
    if stored.Ok? && stored.value.Some? {
      EmitCounts(w.At(s2), true, Guessed(f, e, supplied, stored.value.value == Text(supplied)), email);
    }
  }

  lemma VerifyBalances(cfg: OtpConfig, w: World, e: string, k: FlowKeys, verified: string, code: string, env: VerifyEnv,
                       email: string, ck: string, vk: string)
    requires Inv(w, email, ck, vk)
    requires (ck == k.code <==> e == email) && (vk == verified <==> e == email)
    requires k.attempts != ck && k.attempts != vk && k.code != vk && verified != ck
    ensures Inv(Verify(cfg, w, e, k, verified, code, env).0, email, ck, vk)
  {
    hide CountsOf, Guess;
    GuessBalances(cfg, Registration, w, e, k, cfg.hash(code), env.guess, email, ck, vk);
    var (w1, v) := Guess(cfg, Registration, w, e, k, cfg.hash(code), env.guess);
    if v.Right? {
      var s2 := Del(w1.store, env.consume, k.code).0;
      var w2 := w1.At(s2).Emit(!env.consume.fate.Dropped?, Consumed(e));
      EmitCounts(w1.At(s2), !env.consume.fate.Dropped?, Consumed(e), email);
      var s3 := Del(s2, env.clear, k.attempts).0;
      var s4 := Set(s3, env.mark, verified, Text("1"), cfg.emailVerifiedTTL).0;
      EmitCounts(w2.At(s4), !env.mark.fate.Dropped?, Marked(e), email);
    }
  }

  lemma RegisterBalances(w: World, req: RegisterInput, verified: string, env: RegisterEnv, email: string, ck: string, vk: string)
    requires Inv(w, email, ck, vk)
    requires (vk == verified <==> req.email == email) && verified != ck
    ensures Inv(Register(w, req, verified, env).0, email, ck, vk)
  {
    hide CountsOf;
    var s1 := GetDel(w.store, env.take, verified).0;
    var w2 := w.At(s1).Emit(true, Taken(req.email));
    EmitCounts(w.At(s1), true, Taken(req.email), email);
    EmitCounts(w2, true, Registered(req.email), email);
  }

  lemma ResetBalances(cfg: OtpConfig, w: World, req: ResetInput, k: FlowKeys, version: string, env: ResetEnv,
                      email: string, ck: string, vk: string)
    requires Inv(w, email, ck, vk)
    requires k.attempts != ck && k.attempts != vk && k.code != vk && k.code != ck
    requires env.user.Some? ==> version != ck && version != vk
    ensures Inv(ResetPassword(cfg, w, req, k, version, env).0, email, ck, vk)
  {
    hide CountsOf, Guess;
    GuessBalances(cfg, Reset, w, req.email, k, cfg.hash(req.code), env.guess, email, ck, vk);
    var (w1, v) := Guess(cfg, Reset, w, req.email, k, cfg.hash(req.code), env.guess);
    EmitCounts(w1, true, PasswordChanged(req.email), email);
  }

  lemma StepBalances(cfg: OtpConfig, w: World, c: Command, email: string)
    requires PlainCommand(c) && Plain(email)
    requires Inv(w, email, Key(RegisterCode, email), VerifiedKey(email))
    ensures Inv(Step(cfg, w, c), email, Key(RegisterCode, email), VerifiedKey(email))
  {
    hide Key, CountsOf, IssueCode, Verify, Register, ResetPassword;
    var ck, vk := Key(RegisterCode, email), VerifiedKey(email);
    forall f, id | Plain(id) && f in {RegisterCode, RegisterAttempts, RegisterCooldown, RegisterVerified, ResetCode,
                                      ResetAttempts, ResetCooldown, TokenVersion, RefreshClaim}
      ensures Key(f, id) == ck <==> f == RegisterCode && id == email
      ensures Key(f, id) == vk <==> f == RegisterVerified && id == email
    {
      KeysDistinct(f, id, RegisterCode, email);
      KeysDistinct(f, id, RegisterVerified, email);
    }
    match c
    case Wait(_) =>
    case SendCmd(e, _, env) => IssueBalances(cfg, Registration, w, e, KeysOf(Registration, e), env, email, ck, vk);
    case ForgotCmd(e, _, env) => IssueBalances(cfg, Reset, w, e, KeysOf(Reset, e), env, email, ck, vk);
    case VerifyCmd(e, code, env) =>
      VerifyBalances(cfg, w, e, KeysOf(Registration, e), VerifiedKey(e), code, env, email, ck, vk);
    case RegisterCmd(req, env) => RegisterBalances(w, req, VerifiedKey(req.email), env, email, ck, vk);
    case ResetCmd(req, env) =>
      ResetBalances(cfg, w, req, KeysOf(Reset, req.email), VersionKey(env.user), env, email, ck, vk);
    case ClaimCmd(id, _, _) => assert Key(RefreshClaim, id) != ck && Key(RefreshClaim, id) != vk;
    case UpgradeCmd(id, _) => assert Key(TokenVersion, id) != ck && Key(TokenVersion, id) != vk;
  }

  /** Over every run, with any store failures and expiries: registrations completed are at most the
      marks taken, at most the verifications marked, at most the codes consumed, at most the codes stored. */
  lemma {:induction false} NothingFromNothing(cfg: OtpConfig, start: int, cmds: seq<Command>, email: string)
    requires PlainRun(cmds) && Plain(email)
    ensures var w := Run(cfg, start, cmds);
            var c := CountsOf(w.history, email);
            && Inv(w, email, Key(RegisterCode, email), VerifiedKey(email))
            && c.registered <= c.taken <= c.marked <= c.consumed <= c.sent
  {
    hide Key, Step;
    if cmds != [] {
      var init := cmds[..|cmds| - 1];
      NothingFromNothing(cfg, start, init, email);
      StepBalances(cfg, Run(cfg, start, init), cmds[|cmds| - 1], email);
    }
  }

  lemma {:induction false} HonestAt(h: seq<Event>, email: string, i: nat)
    requires CountsOf(h, email).honest && i < |h| && h[i] == Taken(email)
    ensures CountsOf(h[..i], email).standing
  {
    if i < |h| - 1 {
      HonestAt(h[..|h| - 1], email, i);
      assert h[..|h| - 1][..i] == h[..i];
    }
  }

  lemma {:induction false} StandingSince(h: seq<Event>, email: string) returns (k: nat)
    requires CountsOf(h, email).standing
    ensures k < |h| && h[k] == Marked(email) && Taken(email) !in h[k + 1..]
  {
    var n := |h| - 1;
    if h[n] == Marked(email) {
      k := n;
    } else {
      k := StandingSince(h[..n], email);
      assert h[k + 1..] == h[..n][k + 1..] + [h[n]];
    }
  }

  /** Between any two marks taken for an address, and so between any two registrations, a new mark was written. */
  lemma EveryRegistrationNeedsAMark(cfg: OtpConfig, start: int, cmds: seq<Command>, email: string, i: nat) returns (k: nat)
    requires PlainRun(cmds) && Plain(email)
    requires var h := Run(cfg, start, cmds).history; i < |h| && h[i] == Taken(email)
    ensures var h := Run(cfg, start, cmds).history; k < i && h[k] == Marked(email) && Taken(email) !in h[k + 1..i]
  {
    hide Run, CountsOf;
    NothingFromNothing(cfg, start, cmds, email);
    var h := Run(cfg, start, cmds).history;
    HonestAt(h, email, i);
    k := StandingSince(h[..i], email);
    assert h[..i][k + 1..] == h[k + 1..i];
  }

  lemma {:induction false} NoNewMark(h: seq<Event>, h': seq<Event>, email: string)
    requires h <= h' && !CountsOf(h, email).standing && Marked(email) !in h'[|h|..]
    ensures !CountsOf(h', email).standing
  {
    if h' == h {
    } else {
      var n := |h'| - 1;
      assert h'[|h|..] == h'[..n][|h|..] + [h'[n]];
      NoNewMark(h, h'[..n], email);
    }
  }

  /** After a registration took its mark, and any commands of anyone that write no new mark for the address, another
      registration for it is refused, whatever its input. */
  lemma MarkIsSingleUse(cfg: OtpConfig, start: int, before: seq<Command>, req: RegisterInput, env: RegisterEnv,
                        after: seq<Command>, again: RegisterInput, env': RegisterEnv)
    requires PlainRun(before + [RegisterCmd(req, env)] + after) && Plain(req.email) && again.email == req.email
    requires Register(Run(cfg, start, before), req, VerifiedKey(req.email), env).1 == None
    requires var h, h' := Run(cfg, start, before + [RegisterCmd(req, env)]).history,
                          Run(cfg, start, before + [RegisterCmd(req, env)] + after).history;
             forall i | |h| <= i < |h'| :: h'[i] != Marked(req.email)
    ensures var w := Run(cfg, start, before + [RegisterCmd(req, env)] + after);
            var (w', r) := Register(w, again, VerifiedKey(again.email), env');
            r != None && w'.history == w.history
  {
    hide Key, CountsOf, Run, Step;
    var first := before + [RegisterCmd(req, env)];
    RegisterSpends(cfg, Run(cfg, start, before), req, env);
    RunSnoc(cfg, start, before, RegisterCmd(req, env));
    RunGrows(cfg, start, first, after);
    NoNewMark(Run(cfg, start, first).history, Run(cfg, start, first + after).history, req.email);
    NothingFromNothing(cfg, start, first + after, req.email);
  }

  lemma RegisterSpends(cfg: OtpConfig, w: World, req: RegisterInput, env: RegisterEnv)
    requires Register(w, req, VerifiedKey(req.email), env).1 == None
    ensures !CountsOf(Step(cfg, w, RegisterCmd(req, env)).history, req.email).standing
  {
    hide Key, CountsOf;
    var w1 := w.At(GetDel(w.store, env.take, VerifiedKey(req.email)).0);
    EmitCounts(w1, true, Taken(req.email), req.email);
    EmitCounts(w1.Emit(true, Taken(req.email)), true, Registered(req.email), req.email);
  }
}
