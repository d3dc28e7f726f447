/** The key builders of the token store, and the proof that its one flat map is nine maps. */
module Keyspace {
  import opened Common
  import opened Redis

  datatype Family =
    | TokenVersion
    | RefreshClaim
    | RegisterCode
    | RegisterAttempts
    | RegisterCooldown
    | RegisterVerified
    | ResetCode
    | ResetAttempts
    | ResetCooldown

  function Prefix(f: Family): string {
    match f
    case TokenVersion => "auth:user:"
    case RefreshClaim => "claim:"
    case RegisterCode | RegisterAttempts | RegisterCooldown | RegisterVerified => "auth:otp:register:"
    case ResetCode | ResetAttempts | ResetCooldown => "auth:otp:password_reset:"
  }

  function Suffix(f: Family): string {
    match f
    case TokenVersion => ":version"
    case RefreshClaim | RegisterCode | ResetCode => ""
    case RegisterAttempts | ResetAttempts => ":attempts"
    case RegisterCooldown | ResetCooldown => ":cooldown"
    case RegisterVerified => ":verified"
  }

  function Key(f: Family, id: string): string {
    Prefix(f) + id + Suffix(f)
  }

  predicate Plain(id: string) {
    ':' !in id
  }

  /** The only way two builders meet: a code key whose identifier already ends in a suffix. */
  predicate Shadows(f: Family, a: string, g: Family, b: string) {
    Suffix(f) == "" && Suffix(g) != "" && Prefix(f) == Prefix(g) && a == b + Suffix(g)
  }

  /** Prefixes are told apart by their characters at positions 0, 5 and 9. */
  lemma PrefixesTell(f: Family, g: Family)
    ensures |Prefix(f)| > 5 && (Prefix(f)[0] == 'a' ==> |Prefix(f)| > 9)
    ensures Prefix(f)[0] == Prefix(g)[0] && (Prefix(f)[0] == 'a' ==> Prefix(f)[5] == Prefix(g)[5] && Prefix(f)[9] == Prefix(g)[9])
        ==> Prefix(f) == Prefix(g)
  {
  }

  /** Non-empty suffixes are told apart by their last character. */
  lemma SuffixesTell(f: Family, g: Family)
    requires Prefix(f) == Prefix(g) && Suffix(f) != "" && Suffix(g) != ""
    requires Suffix(f)[|Suffix(f)| - 1] == Suffix(g)[|Suffix(g)| - 1]
    ensures Suffix(f) == Suffix(g)
  {
  }

  lemma AppendAt(p: string, x: string, i: nat)
    requires i < |p|
    ensures (p + x)[i] == p[i]
  {
  }

  lemma LastOf(a: string, s: string)
    requires s != ""
    ensures (a + s)[|a + s| - 1] == s[|s| - 1]
  {
  }

  lemma PrefixCancels(p: string, x: string, y: string)
    requires p + x == p + y
    ensures x == y
  {
    assert (p + x)[|p|..] == x && (p + y)[|p|..] == y;
  }

  lemma SuffixCancels(a: string, b: string, s: string)
    requires a + s == b + s
    ensures a == b
  {
    assert |a| == |b|;
    assert (a + s)[..|a|] == a && (b + s)[..|b|] == b;
  }

  lemma KeyParts(f: Family, id: string)
    ensures Key(f, id) == Prefix(f) + (id + Suffix(f))
  {
  }

  lemma SamePrefix(f: Family, a: string, g: Family, b: string)
    requires Key(f, a) == Key(g, b)
    ensures Prefix(f) == Prefix(g)
    ensures a + Suffix(f) == b + Suffix(g)
  {
    var p, q, x, y := Prefix(f), Prefix(g), a + Suffix(f), b + Suffix(g);
    KeyParts(f, a);
    KeyParts(g, b);
    PrefixesTell(f, g);
    PrefixesTell(g, f);
    AppendAt(p, x, 0);
    AppendAt(q, y, 0);
    if p[0] == 'a' {
      AppendAt(p, x, 5);
      AppendAt(q, y, 5);
      AppendAt(p, x, 9);
      AppendAt(q, y, 9);
    }
    PrefixCancels(p, x, y);
  }

  lemma SameSuffix(f: Family, a: string, g: Family, b: string)
    requires a + Suffix(f) == b + Suffix(g) && Prefix(f) == Prefix(g)
    requires Suffix(f) != "" && Suffix(g) != ""
    ensures Suffix(f) == Suffix(g) && a == b
  {
    LastOf(a, Suffix(f));
    LastOf(b, Suffix(g));
    SuffixesTell(f, g);
    SuffixCancels(a, b, Suffix(f));
  }

  lemma ShadowMeets(f: Family, a: string, g: Family, b: string)
    requires Shadows(f, a, g, b)
    ensures Key(f, a) == Key(g, b)
    ensures ':' in a
  {
  }

  /** Exactly when two key builders produce the same string, for all identifiers. */
  lemma KeysCollide(f: Family, a: string, g: Family, b: string)
    ensures Key(f, a) == Key(g, b) <==> (f == g && a == b) || Shadows(f, a, g, b) || Shadows(g, b, f, a)
  {
    if Key(f, a) == Key(g, b) {
      SamePrefix(f, a, g, b);
      if Suffix(f) != "" && Suffix(g) != "" {
        SameSuffix(f, a, g, b);
      } else {
        assert Suffix(f) == "" ==> a + Suffix(f) == a;
        assert Suffix(g) == "" ==> b + Suffix(g) == b;
      }
    } else {
      if Shadows(f, a, g, b) { ShadowMeets(f, a, g, b); }
      if Shadows(g, b, f, a) { ShadowMeets(g, b, f, a); }
    }
  }

  /** For identifiers without a colon the builders are injective and pairwise disjoint. */
  lemma KeysDistinct(f: Family, a: string, g: Family, b: string)
    requires Plain(a) && Plain(b)
    ensures Key(f, a) == Key(g, b) <==> f == g && a == b
  {
    KeysCollide(f, a, g, b);
    if Shadows(f, a, g, b) { ShadowMeets(f, a, g, b); }
    if Shadows(g, b, f, a) { ShadowMeets(g, b, f, a); }
  }

  /** What is left of each key without prefix and suffix; every identifier of the family is among them. */
  function Stripped(kv: map<string, Entry>, f: Family): set<string> {
    set k | k in kv && |k| >= |Prefix(f)| + |Suffix(f)| :: k[|Prefix(f)|..|k| - |Suffix(f)|]
  }

  /** The abstract map of one family. */
  function Project(kv: map<string, Entry>, f: Family): map<string, Entry> {
    map id | id in Stripped(kv, f) && Plain(id) && Key(f, id) in kv :: kv[Key(f, id)]
  }

  lemma ProjectHas(kv: map<string, Entry>, f: Family, id: string)
    ensures id in Project(kv, f) <==> Plain(id) && Key(f, id) in kv
    ensures id in Project(kv, f) ==> Project(kv, f)[id] == kv[Key(f, id)]
  {
    var k := Key(f, id);
    assert k[|Prefix(f)|..|k| - |Suffix(f)|] == id;
  }

  /** Where a change of one string key shows in the projections. */
  lemma KeySeenFrom(k: string, f: Family, id: string, g: Family)
    requires Plain(id) && k == Key(f, id)
    ensures forall b :: Plain(b) ==> (Key(g, b) == k <==> f == g && b == id)
  {
    forall b | Plain(b) ensures Key(g, b) == k <==> f == g && b == id {
      KeysDistinct(f, id, g, b);
    }
  }

  lemma WriteProjected(kv: map<string, Entry>, k: string, e: Entry, g: Family, id: string, hit: bool)
    requires forall b :: Plain(b) ==> (Key(g, b) == k <==> hit && b == id)
    requires Plain(id)
    ensures Project(kv[k := e], g) == if hit then Project(kv, g)[id := e] else Project(kv, g)
  {
    hide Project, Key;
    var left, right := Project(kv[k := e], g), if hit then Project(kv, g)[id := e] else Project(kv, g);
    forall b ensures b in left <==> b in right
      ensures b in left && b in right ==> left[b] == right[b]
    {
      ProjectHas(kv, g, b);
      ProjectHas(kv[k := e], g, b);
    }
  }

  lemma EraseProjected(kv: map<string, Entry>, k: string, g: Family, id: string, hit: bool)
    requires forall b :: Plain(b) ==> (Key(g, b) == k <==> hit && b == id)
    requires Plain(id)
    ensures Project(kv - {k}, g) == if hit then Project(kv, g) - {id} else Project(kv, g)
  {
    hide Project, Key;
    var left, right := Project(kv - {k}, g), if hit then Project(kv, g) - {id} else Project(kv, g);
    forall b ensures b in left <==> b in right
      ensures b in left && b in right ==> left[b] == right[b]
    {
      ProjectHas(kv, g, b);
      ProjectHas(kv - {k}, g, b);
    }
  }

  /** Writing one key changes one family at one identifier, and nothing else. */
  lemma WriteIsLocal(kv: map<string, Entry>, f: Family, id: string, e: Entry, g: Family)
    requires Plain(id)
    ensures Project(kv[Key(f, id) := e], g) == if f == g then Project(kv, g)[id := e] else Project(kv, g)
  {
    KeySeenFrom(Key(f, id), f, id, g);
    WriteProjected(kv, Key(f, id), e, g, id, f == g);
  }

  /** Deleting one key removes one identifier of one family, and nothing else. */
  lemma EraseIsLocal(kv: map<string, Entry>, f: Family, id: string, g: Family)
    requires Plain(id)
    ensures Project(kv - {Key(f, id)}, g) == if f == g then Project(kv, g) - {id} else Project(kv, g)
  {
    KeySeenFrom(Key(f, id), f, id, g);
    EraseProjected(kv, Key(f, id), g, id, f == g);
  }

  function LivePart(kv: map<string, Entry>, now: int): map<string, Entry> {
    map k | k in kv && LiveAt(kv[k], now) :: kv[k]
  }

  /** Dropping expired keys and projecting to a family commute. */
  lemma ExpiryCommutes(kv: map<string, Entry>, now: int, f: Family)
    ensures Project(LivePart(kv, now), f) == LivePart(Project(kv, f), now)
  {
    hide Project, Key;
    var left, right := Project(LivePart(kv, now), f), LivePart(Project(kv, f), now);
    forall b ensures b in left <==> b in right
      ensures b in left && b in right ==> left[b] == right[b]
    {
      ProjectHas(kv, f, b);
      ProjectHas(LivePart(kv, now), f, b);
    }
  }

  // ---- Every command acts on one of nine independent stores ----

  /** The store of one family, keyed by identifiers. */
  function View(s: Store, f: Family): Store {
    Store(Project(s.kv, f), s.now)
  }

  /** The stores of the other families are as they were. */
  ghost predicate OthersKept(s: Store, s': Store, f: Family) {
    forall g | g != f :: Project(s'.kv, g) == Project(s.kv, g)
  }

  lemma LookupRefines(s: Store, f: Family, id: string)
    requires Plain(id)
    ensures Lookup(View(s, f), id) == Lookup(s, Key(f, id))
  {
    ProjectHas(s.kv, f, id);
  }

  lemma PutRefines(s: Store, f: Family, id: string, e: Entry)
    requires Plain(id)
    ensures var s' := s.(kv := s.kv[Key(f, id) := e]);
            View(s', f) == View(s, f).(kv := View(s, f).kv[id := e]) && OthersKept(s, s', f)
  {
    hide Project;
    forall g ensures Project(s.kv[Key(f, id) := e], g) == if f == g then Project(s.kv, g)[id := e] else Project(s.kv, g) {
      WriteIsLocal(s.kv, f, id, e, g);
    }
  }

  lemma DropRefines(s: Store, f: Family, id: string)
    requires Plain(id)
    ensures var s' := s.(kv := s.kv - {Key(f, id)});
            View(s', f) == View(s, f).(kv := View(s, f).kv - {id}) && OthersKept(s, s', f)
  {
    hide Project;
    forall g ensures Project(s.kv - {Key(f, id)}, g) == if f == g then Project(s.kv, g) - {id} else Project(s.kv, g) {
      EraseIsLocal(s.kv, f, id, g);
    }
  }

  /** SET acts on its own family as SET, with the same answer, and on no other, whatever becomes of the command. */
  lemma SetRefines(s: Store, io: Io, f: Family, id: string, v: Value, ttl: int)
    requires Plain(id)
    ensures var (s', ok) := Set(s, io, Key(f, id), v, ttl);
            Set(View(s, f), io, id, v, ttl) == (View(s', f), ok) && OthersKept(s, s', f)
  {
    hide Project, Key;
    var a := Arrive(s, io);
    PutRefines(a, f, id, Entry(v, ExpiryAfter(a.now, ttl)));
  }

  lemma DelRefines(s: Store, io: Io, f: Family, id: string)
    requires Plain(id)
    ensures var (s', ok) := Del(s, io, Key(f, id));
            Del(View(s, f), io, id) == (View(s', f), ok) && OthersKept(s, s', f)
  {
    hide Project, Key;
    DropRefines(Arrive(s, io), f, id);
  }

  lemma GetRefines(s: Store, io: Io, f: Family, id: string)
    requires Plain(id)
    ensures var (s', r) := Get(s, io, Key(f, id));
            Get(View(s, f), io, id) == (View(s', f), r) && OthersKept(s, s', f)
  {
    hide Project, Key;
    LookupRefines(Arrive(s, io), f, id);
  }

  lemma IncrRefines(s: Store, io: Io, f: Family, id: string)
    requires Plain(id)
    ensures var (s', r) := Incr(s, io, Key(f, id));
            Incr(View(s, f), io, id) == (View(s', f), r) && OthersKept(s, s', f)
  {
    hide Project, Key, Lookup;
    var a := Arrive(s, io);
    LookupRefines(a, f, id);
    match Lookup(a, Key(f, id))
    case Some(Entry(Count(n), x)) => PutRefines(a, f, id, Entry(Count(n + 1), x));
    case None => PutRefines(a, f, id, Entry(Count(1), None));
    case _ =>
  }

  lemma ExpireRefines(s: Store, io: Io, f: Family, id: string, ttl: int)
    requires Plain(id)
    ensures var (s', ok) := Redis.Expire(s, io, Key(f, id), ttl);
            Redis.Expire(View(s, f), io, id, ttl) == (View(s', f), ok) && OthersKept(s, s', f)
  {
    hide Project, Key;
    var a := Arrive(s, io);
    LookupRefines(a, f, id);
    ProjectHas(a.kv, f, id);
    DropRefines(a, f, id);
    if Lookup(a, Key(f, id)).Some? {
      PutRefines(a, f, id, a.kv[Key(f, id)].(expiry := Some(a.now + ttl)));
    }
  }

  lemma SetNXRefines(s: Store, io: Io, f: Family, id: string, v: Value, ttl: int)
    requires Plain(id)
    ensures var (s', r) := SetNX(s, io, Key(f, id), v, ttl);
            SetNX(View(s, f), io, id, v, ttl) == (View(s', f), r) && OthersKept(s, s', f)
  {
    hide Project, Key, Lookup;
    var a := Arrive(s, io);
    LookupRefines(a, f, id);
    PutRefines(a, f, id, Entry(v, ExpiryAfter(a.now, ttl)));
  }

  lemma TtlRefines(s: Store, io: Io, f: Family, id: string)
    requires Plain(id)
    ensures var (s', r) := Ttl(s, io, Key(f, id));
            Ttl(View(s, f), io, id) == (View(s', f), r) && OthersKept(s, s', f)
  {
    hide Project, Key, Lookup;
    LookupRefines(Arrive(s, io), f, id);
  }

  lemma GetDelRefines(s: Store, io: Io, f: Family, id: string)
    requires Plain(id)
    ensures var (s', r) := GetDel(s, io, Key(f, id));
            GetDel(View(s, f), io, id) == (View(s', f), r) && OthersKept(s, s', f)
  {
    hide Project, Key, Lookup;
    var a := Arrive(s, io);
    LookupRefines(a, f, id);
    DropRefines(a, f, id);
  }
}
