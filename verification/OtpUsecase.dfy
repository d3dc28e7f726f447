/** The use cases that drive the token store, call by call, and the step of the protocol each one is. */
module OtpUsecase {
  import opened Common
  import opened Redis
  import opened Keyspace
  import opened TokenStore
  import opened OtpProtocol
  import opened Strings

  /** An address as typed: trimmed, and each character in lower case. */
  function NormalizeEmail(cfg: OtpConfig, raw: string): (email: string)
    ensures |email| == |TrimSpace(raw)| && forall i | 0 <= i < |email| :: email[i] == cfg.lower(TrimSpace(raw)[i])
  {
    var email := TrimSpace(raw);
    seq(|email|, i requires 0 <= i < |email| => cfg.lower(email[i]))
  }

  class AuthUsecase {
    const store: RedisStore
    const cfg: OtpConfig
    ghost var history: seq<Event>

    constructor (s: RedisStore, conf: OtpConfig)
      ensures store == s && cfg == conf && history == []
    {
      store, cfg, history := s, conf, [];
    }

    ghost function Seen(): World
      reads this, store, store.client
    {
      World(store.State(), history)
    }

    method IssueOTP(flow: Flow, email: string, env: SendEnv) returns (err: Option<Error>)
      modifies this`history, store.client
      ensures (Seen(), err) == IssueCode(cfg, flow, old(Seen()), email, KeysOf(flow, email), env)
    {
      hide Key;
      var cooldown, code, attempts := RegisterCooldown, RegisterCode, RegisterAttempts;
      if flow.Reset? {
        cooldown, code, attempts := ResetCooldown, ResetCode, ResetAttempts;
      }
      var allowed := store.TrySetResendCooldown(env.cooldown, env.remaining, cooldown, email, cfg.resendCooldown);
      if allowed.Err? {
        return Some(Failure);
      }
      if !allowed.value.0 {
        return Some(OtpCooldown(allowed.value.1));
      }
      if env.code.None? {
        return Some(Failure);
      }
      var otpHash := cfg.hash(env.code.value);
      var ok := store.SetOTP(env.set_, code, email, otpHash, cfg.ttl);
      if !env.set_.fate.Dropped? {
        history := history + [CodeSet(flow, email, otpHash)];
      }
      if !ok {
        return Some(Failure);
      }
      ok := store.Delete(env.clear, attempts, email);
      if !env.clear.fate.Dropped? {
        history := history + [CounterCleared(flow, email)];
      }
      if !ok || !env.mailed {
        return Some(Failure);
      }
      return None;
    }

    method SendRegistrationOTP(rawEmail: string, taken: Option<bool>, env: SendEnv) returns (err: Option<Error>)
      modifies this`history, store.client
      ensures (Seen(), err) == SendRegistration(cfg, old(Seen()), NormalizeEmail(cfg, rawEmail), taken, env)
    {
      hide Key, NormalizeEmail;
      var email := NormalizeEmail(cfg, rawEmail);
      if email == "" || '@' !in email {
        return Some(InvalidInput);
      }
      if taken.None? {
        return Some(Failure);
      }
      if taken.value {
        return Some(EmailAlreadyTaken);
      }
      err := IssueOTP(Registration, email, env);
    }

    method ForgotPassword(rawEmail: string, known: Option<bool>, env: SendEnv) returns (err: Option<Error>)
      modifies this`history, store.client
      ensures (Seen(), err) == OtpProtocol.ForgotPassword(cfg, old(Seen()), NormalizeEmail(cfg, rawEmail), known, env)
    {
      hide Key, NormalizeEmail;
      var email := NormalizeEmail(cfg, rawEmail);
      if email == "" || '@' !in email {
        return Some(InvalidInput);
      }
      if known.None? {
        return Some(Failure);
      }
      if !known.value {
        return None;
      }
      err := IssueOTP(Reset, email, env);
    }

    method GuessOTP(flow: Flow, email: string, supplied: string, env: GuessEnv) returns (v: Verdict)
      modifies this`history, store.client
      ensures (Seen(), v) == Guess(cfg, flow, old(Seen()), email, KeysOf(flow, email), supplied, env)
    {
      hide Key;
      var code, counter, ttl, max := RegisterCode, RegisterAttempts, cfg.ttl, cfg.maxVerifyAttempts;
      if flow.Reset? {
        code, counter, ttl, max := ResetCode, ResetAttempts, RESET_ATTEMPTS_TTL, MAX_RESET_ATTEMPTS;
      }
      var attempts := store.IncrementOTPAttempts(env.incr, env.expire, counter, email, ttl);
      if attempts.Err? {
        return Broken;
      }
      if attempts.value > max {
        var _ := store.Delete(env.drop, code, email);
        return Exhausted;
      }
      var stored := store.GetOTP(env.get, code, email);
      if stored.Err? {
        return Broken;
      }
      if stored.value.None? {
        return NoCode;
      }
      var right := stored.value.value == Text(supplied);
      history := history + [Guessed(flow, email, supplied, right)];
      if !right {
        var left := max - attempts.value;
        return Wrong(if left < 0 then 0 else left);
      }
      return Right;
    }

    method VerifyRegistrationOTP(rawEmail: string, rawCode: string, env: VerifyEnv) returns (err: Option<Error>)
      modifies this`history, store.client
      ensures var email := NormalizeEmail(cfg, rawEmail);
              (Seen(), err) == Verify(cfg, old(Seen()), email, KeysOf(Registration, email), VerifiedKey(email),
                                      TrimSpace(rawCode), env)
    {
      hide Key, Guess, NormalizeEmail, TrimSpace;
      var email := NormalizeEmail(cfg, rawEmail);
      var code := TrimSpace(rawCode);
      if email == "" || code == "" {
        return Some(InvalidInput);
      }
      var v := GuessOTP(Registration, email, cfg.hash(code), env.guess);
      if !v.Right? {
        return Some(Refusal(v));
      }
      var ok := store.Delete(env.consume, RegisterCode, email);
      if !env.consume.fate.Dropped? {
        history := history + [Consumed(email)];
      }
      if !ok {
        return Some(Failure);
      }
      ok := store.Delete(env.clear, RegisterAttempts, email);
      if !ok {
        return Some(Failure);
      }
      ok := store.MarkEmailVerified(env.mark, email, cfg.emailVerifiedTTL);
      if !env.mark.fate.Dropped? {
        history := history + [Marked(email)];
      }
      err := if ok then None else Some(Failure);
    }

    method Register(raw: RegisterInput, env: RegisterEnv) returns (err: Option<Error>)
      modifies this`history, store.client
      ensures var req := raw.(email := NormalizeEmail(cfg, raw.email));
              (Seen(), err) == OtpProtocol.Register(old(Seen()), req, VerifiedKey(req.email), env)
    {
      hide Key, NormalizeEmail;
      var req := raw.(email := NormalizeEmail(cfg, raw.email));
      if req.email == "" || '@' !in req.email {
        return Some(InvalidInput);
      }
      if |req.password| < 8 || |req.password| > 256 {
        return Some(InvalidPassword);
      }
      if |req.pin| != 6 {
        return Some(InvalidInput);
      }
      if !req.knownAccountType {
        return Some(InvalidInput);
      }
      if env.unique.Err? {
        return Some(Failure);
      }
      if env.unique.value.0 {
        return Some(EmailAlreadyTaken);
      }
      if env.unique.value.1 {
        return Some(PhoneAlreadyTaken);
      }
      var verified := store.ConsumeEmailVerified(env.take, req.email);
      if verified.Err? {
        return Some(Failure);
      }
      if !verified.value {
        return Some(EmailNotVerified);
      }
      history := history + [Taken(req.email)];
      if !env.prepared {
        return Some(Failure);
      }
      if env.committed.Err? {
        if env.landed {
          history := history + [Registered(req.email)];
        }
        return Some(env.committed.error);
      }
      history := history + [Registered(req.email)];
      err := if env.tokens then None else Some(Failure);
    }

    method ResetPassword(raw: ResetInput, env: ResetEnv) returns (err: Option<Error>)
      modifies this`history, store.client
      ensures var req := raw.(email := NormalizeEmail(cfg, raw.email), code := TrimSpace(raw.code));
              (Seen(), err) == OtpProtocol.ResetPassword(cfg, old(Seen()), req, KeysOf(Reset, req.email),
                                                         VersionKey(env.user), env)
    {
      hide Key, Guess, NormalizeEmail, TrimSpace;
      var req := raw.(email := NormalizeEmail(cfg, raw.email), code := TrimSpace(raw.code));
      if req.email == "" || req.code == "" || req.password == "" || req.confirm == "" {
        return Some(InvalidInput);
      }
      if req.password != req.confirm {
        return Some(PasswordMismatch);
      }
      if |req.password| < 8 || |req.password| > 256 {
        return Some(InvalidPassword);
      }
      var v := GuessOTP(Reset, req.email, cfg.hash(req.code), env.guess);
      if !v.Right? {
        return Some(Refusal(v));
      }
      if env.user.None? {
        return Some(Failure);
      }
      if !env.updated.Dropped? {
        history := history + [PasswordChanged(req.email)];
      }
      if !env.updated.Answered? {
        return Some(Failure);
      }
      var ok := store.UpgradeTokenVersion(env.upgrade, env.user.value);
      if !ok || !env.revoked {
        return Some(Failure);
      }
      var _ := store.Delete(env.consume, ResetCode, req.email);
      var _ := store.Delete(env.clear, ResetAttempts, req.email);
      return None;
    }
  }
}
