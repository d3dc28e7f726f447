/** Exactly when the order of a payload's keys shows: placeholders that values bring into the text. */
module RenderOrder {
  import opened Common
  import opened Render

  // ---- Text inside text ----

  predicate At(s: string, p: string, i: int) {
    0 <= i && i + |p| <= |s| && s[i..i + |p|] == p
  }

  ghost predicate Contains(s: string, p: string) {
    exists i :: At(s, p, i)
  }

  lemma AtTail(s: string, p: string, i: int)
    requires s != "" && i >= 0
    ensures At(s[1..], p, i) <==> At(s, p, i + 1)
  {
    if i + 1 + |p| <= |s| {
      assert s[i + 1..i + 1 + |p|] == s[1..][i..i + |p|];
    }
  }

  lemma ContainsTail(s: string, p: string)
    requires s != "" && p != ""
    ensures Contains(s, p) <==> At(s, p, 0) || Contains(s[1..], p)
  {
    if i :| At(s, p, i) && i > 0 {
      AtTail(s, p, i - 1);
    }
    if i :| At(s[1..], p, i) {
      AtTail(s, p, i);
    }
  }

  lemma {:induction false} ReplaceLength(s: string, old_: string, new_: string)
    requires old_ != ""
    ensures var r := ReplaceAll(s, old_, new_);
            && (|new_| >= |old_| ==> |r| >= |s|) && (|new_| <= |old_| ==> |r| <= |s|)
    decreases |s|
  {
    if |s| < |old_| {
    } else if s[..|old_|] == old_ {
      ReplaceLength(s[|old_|..], old_, new_);
    } else {
      ReplaceLength(s[1..], old_, new_);
    }
  }

  /** Replacing changes a text exactly when there is something to replace and by something else. */
  lemma {:induction false} ReplaceChangesIff(s: string, old_: string, new_: string)
    requires old_ != ""
    ensures ReplaceAll(s, old_, new_) != s <==> Contains(s, old_) && new_ != old_
    decreases |s|
  {
    var r := ReplaceAll(s, old_, new_);
    if |s| < |old_| {
    } else if s[..|old_|] == old_ {
      var rest := s[|old_|..];
      assert s == old_ + rest && At(s, old_, 0);
      ReplaceLength(rest, old_, new_);
      if new_ == old_ {
        ReplaceChangesIff(rest, old_, new_);
      } else if |new_| == |old_| {
        assert r[..|old_|] == new_;
      }
    } else {
      assert s == [s[0]] + s[1..];
      ReplaceChangesIff(s[1..], old_, new_);
      ContainsTail(s, old_);
      assert r[1..] == ReplaceAll(s[1..], old_, new_);
      assert !At(s, old_, 0);
    }
  }

  // ---- Placeholders that values bring along ----

  /** One value ends in the beginning of the placeholder of x, another begins with an end of it, and words may stand
      between. */
  predicate Straddle(u: string, v: string, x: string, i: nat, j: nat) {
    i + j <= |x| && |u| > i && |v| > j
    && u[|u| - i - 1..] == "{" + x[..i] && v[..j + 1] == x[|x| - j..] + "}"
  }

  ghost predicate Straddles(u: string, v: string, x: string) {
    exists i, j :: Straddle(u, v, x, i, j)
  }

  /** The placeholder of a key comes about in the values of two other keys among names, or in one. */
  ghost predicate Forms(values: map<string, string>, names: set<string>, x: string, a: string, b: string) {
    && x in values && a in values && b in values && a in names && b in names && a != x && b != x
    && values[x] != Placeholder(x)
    && (Contains(values[a], Placeholder(x)) || Straddles(values[a], values[b], x))
  }

  ghost predicate Exposed(values: map<string, string>, names: set<string>) {
    exists x, a, b :: Forms(values, names, x, a, b)
  }

  /** No placeholder of x but a hole stands in this text, whatever words meet. */
  ghost predicate Inert(ts: seq<Token>, x: string) {
    && (forall t | t in ts :: if t.Words? then !Contains(t.text, Placeholder(x)) else Braceless(t.name))
    && (forall t, u | t in ts && u in ts && t.Words? && u.Words? :: !Straddles(t.text, u.text, x))
  }

  lemma {:induction false} PassesWhere(t: string, rest: string, p: string, v: string)
    requires p != "" && forall i | 0 <= i < |t| :: !At(t + rest, p, i)
    ensures ReplaceAll(t + rest, p, v) == t + ReplaceAll(rest, p, v)
  {
    var s := t + rest;
    if t == "" {
      assert s == rest;
    } else {
      assert !At(s, p, 0);
      assert s[0] == t[0] && s[1..] == t[1..] + rest;
      forall i | 0 <= i < |t[1..]| ensures !At(t[1..] + rest, p, i) {
        AtTail(s, p, i);
        assert !At(s, p, i + 1);
      }
      PassesWhere(t[1..], rest, p, v);
      if |s| < |p| {
        ShortStays(rest, p, v);
        ShortStays(s, p, v);
      } else {
        assert s[..|p|] == s[0..0 + |p|];
        assert t == [t[0]] + t[1..];
      }
    }
  }

  lemma PrefixSplit(t: string, rest: string, s: string)
    requires s <= t + rest
    ensures if |s| <= |t| then t[..|s|] == s else s[..|t|] == t && s[|t|..] <= rest
  {
    assert s == (t + rest)[..|s|];
    if |s| > |t| {
      assert (t + rest)[|t|..] == rest;
      assert s[|t|..] == rest[..|s| - |t|];
    }
  }

  /** A closing brace that follows nothing but text without braces belongs to some words. */
  lemma {:induction false} ClosesInWords(ts: seq<Token>, y: string) returns (u: Token, j: nat)
    requires Braceless(y) && y + "}" <= Flatten(ts)
    ensures u in ts && u.Words? && j <= |y| && |u.text| > j && u.text[..j + 1] == y[|y| - j..] + "}"
  {
    hide Flatten, Braceless;
    var s := y + "}";
    WordsFirst(ts, y);
    var head, rest := ts[0].text, Flatten(ts[1..]);
    PrefixSplit(head, rest, s);
    if |head| > |y| {
      u, j := ts[0], |y|;
    } else {
      assert s[|head|..] == y[|head|..] + "}";
      BracelessPart(y, |head|, |y|);
      assert y[|head|..|y|] == y[|head|..];
      u, j := ClosesInWords(ts[1..], y[|head|..]);
      assert y[|head|..][|y| - |head| - j..] == y[|y| - j..];
    }
  }

  lemma BracelessPart(x: string, i: nat, j: nat)
    requires Braceless(x) && i <= j <= |x|
    ensures Braceless(x[i..j])
  {
  }

  /** Such text does not begin with a hole. */
  lemma WordsFirst(ts: seq<Token>, y: string)
    requires Braceless(y) && y + "}" <= Flatten(ts)
    ensures ts != [] && ts[0].Words? && Flatten(ts) == ts[0].text + Flatten(ts[1..])
  {
    var s := y + "}";
    assert s[0] != '{' && Flatten(ts)[0] == s[0];
  }

  lemma TakesOver(t: string, rest: string, p: string, i: int)
    requires 0 <= i < |t| < i + |p| && At(t + rest, p, i)
    ensures var k := |t| - i; t[i..] == p[..k] && p[k..] <= rest
  {
    var s := t + rest;
    assert s[i..] == t[i..] + rest;
    assert p <= s[i..];
    PrefixSplit(t[i..], rest, p);
  }

  /** A placeholder that starts inside words lies within them, or ends in words that come later. */
  lemma StartsInWords(t: string, ts: seq<Token>, x: string, i: nat)
    requires Braceless(x) && i < |t| && At(t + Flatten(ts), Placeholder(x), i)
    ensures Contains(t, Placeholder(x)) || exists u :: u in ts && u.Words? && Straddles(t, u.text, x)
  {
    hide Flatten;
    var p := Placeholder(x);
    if i + |p| <= |t| {
      assert t[i..i + |p|] == (t + Flatten(ts))[i..i + |p|];
      assert At(t, p, i);
    } else {
      var k := |t| - i - 1;
      TakesOver(t, Flatten(ts), p, i);
      assert p[..k + 1] == "{" + x[..k];
      assert p[k + 1..] == x[k..] + "}";
      var u, j := ClosesInWords(ts, x[k..]);
      assert x[k..][|x| - k - j..] == x[|x| - j..];
      assert Straddle(t, u.text, x, k, j);
    }
  }

  /** In such a text no placeholder of x starts inside words. */
  lemma NoStart(t: string, ts: seq<Token>, x: string, i: nat)
    requires Braceless(x) && Inert([Words(t)] + ts, x) && i < |t|
    ensures !At(t + Flatten(ts), Placeholder(x), i)
  {
    hide At, Contains, Straddles, Flatten;
    assert Words(t) in [Words(t)] + ts;
    assert forall u | u in ts :: u in [Words(t)] + ts;
    if At(t + Flatten(ts), Placeholder(x), i) {
      StartsInWords(t, ts, x, i);
    }
  }

  lemma PassesInert(t: string, ts: seq<Token>, x: string, v: string)
    requires Braceless(x) && Inert([Words(t)] + ts, x)
    ensures ReplaceAll(t + Flatten(ts), Placeholder(x), v) == t + ReplaceAll(Flatten(ts), Placeholder(x), v)
  {
    hide ReplaceAll, At, Inert, Flatten;
    forall i | 0 <= i < |t| ensures !At(t + Flatten(ts), Placeholder(x), i) {
      NoStart(t, ts, x, i);
    }
    PassesWhere(t, Flatten(ts), Placeholder(x), v);
  }

  lemma InertTail(ts: seq<Token>, x: string)
    requires Inert(ts, x) && ts != []
    ensures Inert(ts[1..], x) && (ts[0].Hole? ==> Braceless(ts[0].name)) && ts == [ts[0]] + ts[1..]
  {
    hide Contains, Straddles;
    assert forall t | t in ts[1..] :: t in ts;
  }

  /** So replacing x fills exactly its holes. */
  lemma {:induction false} ReplaceInert(ts: seq<Token>, x: string, v: string)
    requires Braceless(x) && Inert(ts, x)
    ensures ReplaceAll(Flatten(ts), Placeholder(x), v) == Flatten(Simultaneous(ts, map[x := v]))
  {
    hide ReplaceAll, Inert;
    if ts == [] {
      ShortStays("", Placeholder(x), v);
    } else {
      var rest := Flatten(ts[1..]);
      InertTail(ts, x);
      ReplaceInert(ts[1..], x, v);
      assert Simultaneous(ts, map[x := v])[1..] == Simultaneous(ts[1..], map[x := v]);
      match ts[0]
      case Words(t) => PassesInert(t, ts[1..], x, v);
      case Hole(n) =>
        if n == x {
          ReplacesHead(x, rest, v);
        } else {
          PassesOther(n, rest, x, v);
        }
    }
  }

  // ---- Without such placeholders the order does not show ----

  predicate HolesIn(ts: seq<Token>, names: set<string>) {
    forall t | t in ts && t.Hole? :: t.name in names
  }

  predicate BracelessKeys(values: map<string, string>) {
    forall k | k in values :: Braceless(k)
  }

  lemma OccurrenceHasBrace(t: string, x: string, i: int)
    requires At(t, Placeholder(x), i)
    ensures '{' in t
  {
    assert t[i..i + |Placeholder(x)|][0] == t[i];
  }

  lemma StraddleHasBraces(u: string, v: string, x: string, i: nat, j: nat)
    requires Straddle(u, v, x, i, j)
    ensures '{' in u && '}' in v
  {
    assert u[|u| - i - 1..][0] == u[|u| - i - 1];
    assert v[..j + 1][j] == v[j] && (x[|x| - j..] + "}")[j] == '}';
  }

  lemma WordsHoldNone(t: string, u: string, x: string)
    requires Braceless(t)
    ensures !Contains(t, Placeholder(x)) && !Straddles(t, u, x) && !Straddles(u, t, x)
  {
    hide Straddle, At;
    if i :| At(t, Placeholder(x), i) {
      OccurrenceHasBrace(t, x, i);
    }
    if i: nat, j: nat :| Straddle(t, u, x, i, j) {
      StraddleHasBraces(t, u, x, i, j);
    }
    if i: nat, j: nat :| Straddle(u, t, x, i, j) {
      StraddleHasBraces(u, t, x, i, j);
    }
  }

  /** What the holes filled so far bring into the text does not matter to a key that is not exposed. */
  lemma FilledIsInert(ts: seq<Token>, values: map<string, string>, done: map<string, string>, names: set<string>, x: string)
    requires Clean(ts) && HolesIn(ts, names) && BracelessKeys(values) && !Exposed(values, names)
    requires x in values && x !in done && values[x] != Placeholder(x)
    requires forall k | k in done :: k in values && done[k] == values[k]
    ensures Inert(Simultaneous(ts, done), x)
  {
    hide Contains, Straddles, Braceless;
    var rs := Simultaneous(ts, done);
    forall t | t in rs
      ensures if t.Words? then Braceless(t.text) || (exists a :: a in names && a in done && a != x && t.text == values[a])
              else Braceless(t.name)
    {
      var i :| 0 <= i < |rs| && rs[i] == t;
      assert ts[i] in ts && rs[i] == Filled(ts[i], done);
    }
    forall t, u | t in rs && u in rs && t.Words? && u.Words?
      ensures !Contains(t.text, Placeholder(x)) && !Straddles(t.text, u.text, x)
    {
      if Braceless(t.text) {
        WordsHoldNone(t.text, u.text, x);
      } else if Braceless(u.text) {
        WordsHoldNone(u.text, t.text, x);
        var a :| a in names && a in done && a != x && t.text == values[a];
        assert !Forms(values, names, x, a, a);
      } else {
        var a :| a in names && a in done && a != x && t.text == values[a];
        var b :| b in names && b in done && b != x && u.text == values[b];
        assert !Forms(values, names, x, a, b);
      }
    }
  }

  lemma {:induction false} FillSelf(ts: seq<Token>, x: string)
    ensures Flatten(Simultaneous(ts, map[x := Placeholder(x)])) == Flatten(ts)
  {
    if ts != [] {
      FillSelf(ts[1..], x);
      assert Simultaneous(ts, map[x := Placeholder(x)])[1..] == Simultaneous(ts[1..], map[x := Placeholder(x)]);
    }
  }

  lemma {:induction false} UnexposedFills(ts: seq<Token>, keys: seq<string>, values: map<string, string>, names: set<string>)
    requires Clean(ts) && HolesIn(ts, names) && BracelessKeys(values) && !Exposed(values, names)
    requires (forall k | k in keys :: k in values) && forall i, j | 0 <= i < j < |keys| :: keys[i] != keys[j]
    ensures RenderIn(Flatten(ts), keys, values) == Flatten(Simultaneous(ts, Only(values, keys)))
  {
    hide ReplaceAll, Flatten, Filled, Exposed, Inert, Clean, HolesIn;
    if keys == [] {
      assert Only(values, keys) == map[];
      FillNothing(ts);
    } else {
      var init, x := keys[..|keys| - 1], keys[|keys| - 1];
      var done := Only(values, init);
      assert x !in init;
      assert keys == init + [x];
      UnexposedFills(ts, init, values, names);
      assert Only(values, keys) == done[x := values[x]];
      FillOneMore(ts, done, x, values[x]);
      if values[x] == Placeholder(x) {
        ReplaceChangesIff(Flatten(Simultaneous(ts, done)), Placeholder(x), values[x]);
        FillSelf(Simultaneous(ts, done), x);
      } else {
        FilledIsInert(ts, values, done, names, x);
        ReplaceInert(Simultaneous(ts, done), x, values[x]);
      }
    }
  }

  /** As long as no placeholder of a key forms in the values of others, every order of the keys gives the one-pass
      substitution, braces or not. */
  lemma UnexposedOrder(ts: seq<Token>, keys: seq<string>, values: map<string, string>, names: set<string>)
    requires Clean(ts) && HolesIn(ts, names) && BracelessKeys(values) && !Exposed(values, names) && Walks(keys, values.Keys)
    ensures RenderIn(Flatten(ts), keys, values) == Flatten(Simultaneous(ts, values))
  {
    UnexposedFills(ts, keys, values, names);
    assert Only(values, keys) == values;
  }

  // ---- With such a placeholder it does ----

  lemma {:induction false} UntouchedBy(ts: seq<Token>, keys: seq<string>, values: map<string, string>)
    requires Clean(ts) && BracelessKeys(values) && forall k | k in keys :: k in values && Hole(k) !in ts
    ensures RenderIn(Flatten(ts), keys, values) == Flatten(ts)
  {
    hide ReplaceAll, Flatten, Clean;
    if keys != [] {
      var init, x := keys[..|keys| - 1], keys[|keys| - 1];
      UntouchedBy(ts, init, values);
      ReplaceOne(ts, x, values[x]);
      assert Simultaneous(ts, map[x := values[x]]) == ts;
    }
  }

  lemma RenderSnoc(s: string, keys: seq<string>, x: string, values: map<string, string>)
    requires (forall k | k in keys :: k in values) && x in values
    ensures RenderIn(s, keys + [x], values) == ReplaceAll(RenderIn(s, keys, values), Placeholder(x), values[x])
  {
    assert (keys + [x])[..|keys|] == keys;
  }

  /** The other keys, in some order. */
  lemma {:induction false} Enumerate(domain: set<string>) returns (keys: seq<string>)
    ensures Walks(keys, domain)
    decreases |domain|
  {
    if domain == {} {
      keys := [];
    } else {
      var k :| k in domain;
      keys := Enumerate(domain - {k});
      keys := keys + [k];
    }
  }

  lemma ContainsInside(before: string, p: string, after: string)
    ensures Contains(before + p + after, p)
  {
    var s := before + p + after;
    assert s[|before|..|before| + |p|] == p;
    assert At(s, p, |before|);
  }

  lemma {:induction false} RenderConcat(s: string, keys: seq<string>, more: seq<string>, values: map<string, string>)
    requires forall k | k in keys + more :: k in values
    ensures (forall k | k in keys :: k in values) && (forall k | k in more :: k in values)
    ensures RenderIn(s, keys + more, values) == RenderIn(RenderIn(s, keys, values), more, values)
  {
    assert (forall k | k in keys :: k in keys + more) && forall k | k in more :: k in keys + more;
    if more == [] {
      assert keys + more == keys;
    } else {
      var init, x := more[..|more| - 1], more[|more| - 1];
      assert keys + more == keys + init + [x] && (keys + more)[..|keys + more| - 1] == keys + init;
      RenderConcat(s, keys, init, values);
    }
  }

  /** Two walks over the payload that give different texts. */
  ghost predicate Differ(ts: seq<Token>, values: map<string, string>, keys: seq<string>, keys': seq<string>) {
    Walks(keys, values.Keys) && Walks(keys', values.Keys)
    && RenderIn(Flatten(ts), keys, values) != RenderIn(Flatten(ts), keys', values)
  }

  /** When filling all the holes brings the placeholder of another key into the text, it matters whether that key comes
      before or after. */
  lemma BeforeOrAfter(ts: seq<Token>, filling: seq<string>, x: string, values: map<string, string>)
    returns (keys: seq<string>, keys': seq<string>)
    requires Clean(ts) && BracelessKeys(values) && x in values && x !in filling && values[x] != Placeholder(x)
    requires (forall k | k in filling :: k in values) && forall i, j | 0 <= i < j < |filling| :: filling[i] != filling[j]
    requires forall t | t in ts && t.Hole? :: t.name in filling
    requires Contains(RenderIn(Flatten(ts), filling, values), Placeholder(x))
    ensures Differ(ts, values, keys, keys')
  {
    hide ReplaceAll, Flatten, Clean, Contains;
    var filled := set k | k in filling;
    var rest := Enumerate(values.Keys - filled - {x});
    keys, keys' := rest + [x] + filling, rest + filling + [x];
    var r := RenderIn(Flatten(ts), filling, values);
    UntouchedBy(ts, rest + [x], values);
    RenderConcat(Flatten(ts), rest + [x], filling, values);
    UntouchedBy(ts, rest, values);
    RenderConcat(Flatten(ts), rest, filling, values);
    RenderSnoc(Flatten(ts), rest + filling, x, values);
    ReplaceChangesIff(r, Placeholder(x), values[x]);
    TwoWalks(rest, filling, x, values.Keys);
  }

  lemma WalksJoin(a: seq<string>, left: set<string>, b: seq<string>, right: set<string>)
    requires Walks(a, left) && Walks(b, right) && left !! right
    ensures Walks(a + b, left + right)
  {
    forall i, j | 0 <= i < j < |a + b| ensures (a + b)[i] != (a + b)[j] {
      if i < |a| <= j {
        assert a[i] in left && b[j - |a|] in right;
      }
    }
  }

  lemma TwoWalks(rest: seq<string>, filling: seq<string>, x: string, domain: set<string>)
    requires Walks(rest, domain - (set k | k in filling) - {x}) && x in domain && x !in filling
    requires (forall k | k in filling :: k in domain) && forall i, j | 0 <= i < j < |filling| :: filling[i] != filling[j]
    ensures Walks(rest + [x] + filling, domain) && Walks(rest + filling + [x], domain)
  {
    hide Walks;
    var filled := set k | k in filling;
    var others := domain - filled - {x};
    assert Walks(filling, filled) && Walks([x], {x}) by { WalksItself(filling, x); }
    WalksJoin(rest, others, [x], {x});
    WalksJoin(rest + [x], others + {x}, filling, filled);
    WalksJoin(rest, others, filling, filled);
    WalksJoin(rest + filling, others + filled, [x], {x});
    assert others + {x} + filled == domain && others + filled + {x} == domain;
  }

  lemma WalksItself(keys: seq<string>, x: string)
    requires forall i, j | 0 <= i < j < |keys| :: keys[i] != keys[j]
    ensures Walks(keys, set k | k in keys) && Walks([x], {x})
  {
  }

  lemma FillOne(ts: seq<Token>, a: string, values: map<string, string>)
    requires Clean(ts) && BracelessKeys(values) && a in values
    ensures RenderIn(Flatten(ts), [a], values) == Flatten(Simultaneous(ts, map[a := values[a]]))
  {
    ReplaceOne(ts, a, values[a]);
    assert [a][..0] == [];
    assert RenderIn(Flatten(ts), [], values) == Flatten(ts);
  }

  lemma Join(t: Token, u: Token, v: Token)
    ensures Flatten([t, u, v]) == Written(t) + Written(u) + Written(v)
  {
    assert [t, u, v][1..] == [u, v] && [u, v][1..] == [v] && [v][1..] == [];
    assert Flatten([v]) == Written(v);
    assert Flatten([u, v]) == Written(u) + Written(v);
  }

  lemma Meets(u: string, v: string, x: string, i: nat, j: nat, z: string)
    requires Straddle(u, v, x, i, j)
    ensures Contains(u + x[i..|x| - j] + (v[..j + 1] + z), Placeholder(x))
  {
    var before := u[..|u| - i - 1];
    assert u == before + ("{" + x[..i]);
    assert x == x[..i] + x[i..|x| - j] + x[|x| - j..];
    assert u + x[i..|x| - j] + (v[..j + 1] + z) == before + Placeholder(x) + z;
    ContainsInside(before, Placeholder(x), z);
  }

  /** The template that shows it: the holes of the two keys, with the words between that complete the placeholder. */
  function Between(a: string, b: string, x: string, i: nat, j: nat): seq<Token>
    requires i + j <= |x|
  {
    [Hole(a), Words(x[i..|x| - j]), Hole(b)]
  }

  lemma MeetsWhole(u: string, v: string, x: string, i: nat, j: nat)
    requires Straddle(u, v, x, i, j)
    ensures Contains(u + x[i..|x| - j] + v, Placeholder(x))
  {
    hide Contains;
    Meets(u, v, x, i, j, v[j + 1..]);
    assert v[..j + 1] + v[j + 1..] == v;
  }

  lemma SameKeyMeets(values: map<string, string>, x: string, a: string, i: nat, j: nat)
    requires BracelessKeys(values) && x in values && a in values && Straddle(values[a], values[a], x, i, j)
    ensures Contains(RenderIn(Flatten(Between(a, a, x, i, j)), [a], values), Placeholder(x))
  {
    hide ReplaceAll, Contains, Flatten, RenderIn;
    var ts, v, mid := Between(a, a, x, i, j), values[a], x[i..|x| - j];
    BracelessPart(x, i, |x| - j);
    FillOne(ts, a, values);
    assert Simultaneous(ts, map[a := v]) == [Words(v), Words(mid), Words(v)];
    Join(Words(v), Words(mid), Words(v));
    MeetsWhole(v, v, x, i, j);
  }

  /** Filling a after b leaves what b brought, up to its first closing brace. */
  lemma FillsBefore(u: string, mid: string, v: string, x: string, a: string, i: nat, j: nat)
    requires Braceless(x) && Straddle(u, v, x, i, j) && mid == x[i..|x| - j]
    ensures Contains(ReplaceAll(Placeholder(a) + mid + v, Placeholder(a), u), Placeholder(x))
  {
    hide ReplaceAll, Contains;
    var open, z := v[..j + 1], v[j + 1..];
    assert Placeholder(a) + mid + v == Placeholder(a) + ((mid + open) + z);
    ReplacesHead(a, (mid + open) + z, u);
    NoOpening(mid, v, x, i, j);
    PassesText(mid + open, z, a, u);
    var z' := ReplaceAll(z, Placeholder(a), u);
    Meets(u, v, x, i, j, z');
    assert u + ((mid + open) + z') == u + mid + (open + z');
  }

  lemma TwoKeysMeet(values: map<string, string>, x: string, a: string, b: string, i: nat, j: nat)
    requires BracelessKeys(values) && x in values && a in values && b in values && a != b
    requires Straddle(values[a], values[b], x, i, j)
    ensures Contains(RenderIn(Flatten(Between(a, b, x, i, j)), [b, a], values), Placeholder(x))
  {
    hide ReplaceAll, Contains, Flatten, RenderIn;
    var ts, u, v, mid := Between(a, b, x, i, j), values[a], values[b], x[i..|x| - j];
    BracelessPart(x, i, |x| - j);
    FillOne(ts, b, values);
    assert Simultaneous(ts, map[b := v]) == [Hole(a), Words(mid), Words(v)];
    Join(Hole(a), Words(mid), Words(v));
    RenderSnoc(Flatten(ts), [b], a, values);
    assert [b] + [a] == [b, a];
    FillsBefore(u, mid, v, x, a, i, j);
  }

  lemma NoOpening(mid: string, v: string, x: string, i: nat, j: nat)
    requires Braceless(x) && i + j <= |x| && |v| > j && mid == x[i..|x| - j] && v[..j + 1] == x[|x| - j..] + "}"
    ensures '{' !in mid + v[..j + 1]
  {
  }

  /** An exposed key shows in some clean template with holes for names only. */
  lemma ExposedShows(values: map<string, string>, names: set<string>, x: string, a: string, b: string)
    returns (ts: seq<Token>, keys: seq<string>, keys': seq<string>)
    requires BracelessKeys(values) && Forms(values, names, x, a, b)
    ensures Clean(ts) && HolesIn(ts, names) && Differ(ts, values, keys, keys')
  {
    hide ReplaceAll, Contains, Flatten, Straddle, Differ;
    if Contains(values[a], Placeholder(x)) {
      ts := [Hole(a)];
      FillOne(ts, a, values);
      JustOne(a, values[a]);
      keys, keys' := BeforeOrAfter(ts, [a], x, values);
    } else {
      var i: nat, j: nat :| Straddle(values[a], values[b], x, i, j);
      ts := Meeting(values, x, a, b, i, j);
      if a == b {
        SameKeyMeets(values, x, a, i, j);
        keys, keys' := BeforeOrAfter(ts, [a], x, values);
      } else {
        TwoKeysMeet(values, x, a, b, i, j);
        keys, keys' := BeforeOrAfter(ts, [b, a], x, values);
      }
    }
  }

  lemma Meeting(values: map<string, string>, x: string, a: string, b: string, i: nat, j: nat) returns (ts: seq<Token>)
    requires BracelessKeys(values) && x in values && a in values && b in values && Straddle(values[a], values[b], x, i, j)
    ensures i + j <= |x| && ts == Between(a, b, x, i, j) && Clean(ts)
  {
    ts := Between(a, b, x, i, j);
    BracelessPart(x, i, |x| - j);
  }

  lemma JustOne(a: string, v: string)
    ensures Flatten(Simultaneous([Hole(a)], map[a := v])) == v
  {
    assert Simultaneous([Hole(a)], map[a := v]) == [Words(v)];
    assert Flatten([Words(v)]) == v + Flatten([Words(v)][1..]);
  }

  /** Every clean template with holes for names only comes out the same whichever way the payload is walked. */
  ghost predicate OrderHidden(values: map<string, string>, names: set<string>) {
    forall ts, keys, keys' | Clean(ts) && HolesIn(ts, names) :: !Differ(ts, values, keys, keys')
  }

  /** For any payload whose keys have no braces, whatever is in its values, and templates with holes for any names: the
      order in which the payload is walked never shows if and only if no placeholder of a key, other than one that stands
      for itself, forms in the values of other keys among the names, within one or where one meets another. */
  lemma OrderHiddenIff(values: map<string, string>, names: set<string>)
    requires BracelessKeys(values)
    ensures OrderHidden(values, names) <==> !Exposed(values, names)
  {
    hide Forms, Clean, HolesIn, RenderIn, Flatten, Walks;
    if x, a, b :| Forms(values, names, x, a, b) {
      var ts, keys, keys' := ExposedShows(values, names, x, a, b);
      assert !OrderHidden(values, names);
    } else {
      forall ts, keys, keys' | Clean(ts) && HolesIn(ts, names) ensures !Differ(ts, values, keys, keys') {
        if Walks(keys, values.Keys) && Walks(keys', values.Keys) {
          UnexposedOrder(ts, keys, values, names);
          UnexposedOrder(ts, keys', values, names);
        }
      }
    }
  }

  /** Whatever braces a payload has in its values, each event has one title and one body for it, unless the placeholder
      of a key forms in the values of the keys that messages show. */
  lemma CopyUnexposed(event: EventType, payload: map<string, Scalar>, r: string)
    requires BracelessKeys(Formatted(payload)) && !Exposed(Formatted(payload), PRIVATE_KEYS)
    ensures var values, copy := Formatted(payload), TemplateFor(event);
            && (Renders(Flatten(copy.title), payload, r) ==> r == Flatten(Simultaneous(copy.title, values)))
            && (Renders(Flatten(copy.body), payload, r) ==> r == Flatten(Simultaneous(copy.body, values)))
  {
    hide Flatten, TemplateFor, FmtAny, RenderIn, Clean, Simultaneous, Exposed;
    var values, copy := Formatted(payload), TemplateFor(event);
    TitlesAreClean(event);
    BodiesAreClean(event);
    forall t | t in copy.title + copy.body && t.Hole? ensures t.name in PRIVATE_KEYS {
      assert t == Hole(t.name);
      PlaceholdersArePrivate(event, t.name);
    }
    assert HolesIn(copy.title, PRIVATE_KEYS) && HolesIn(copy.body, PRIVATE_KEYS) by {
      assert forall t | t in copy.title || t in copy.body :: t in copy.title + copy.body;
    }
    forall keys | Walks(keys, payload.Keys)
      ensures RenderIn(Flatten(copy.title), keys, values) == Flatten(Simultaneous(copy.title, values))
      ensures RenderIn(Flatten(copy.body), keys, values) == Flatten(Simultaneous(copy.body, values))
    {
      UnexposedOrder(copy.title, keys, values, PRIVATE_KEYS);
      UnexposedOrder(copy.body, keys, values, PRIVATE_KEYS);
    }
  }

  /** A template that is one placeholder, and a payload of two keys: the order shows exactly when the first value contains
      the placeholder of the second key and that key does not stand for itself. */
  lemma OrderShowsIff(k1: string, v1: string, k2: string, v2: string)
    requires Braceless(k1) && Braceless(k2) && k1 != k2
    ensures var values := map[k1 := v1, k2 := v2];
            RenderIn(Placeholder(k1), [k1, k2], values) != RenderIn(Placeholder(k1), [k2, k1], values)
            <==> Contains(v1, Placeholder(k2)) && v2 != Placeholder(k2)
  {
    hide ReplaceAll, Contains;
    var values := map[k1 := v1, k2 := v2];
    var p := Placeholder(k1);
    assert p + "" == p && v1 + "" == v1;
    PassesOther(k1, "", k2, v2);
    ReplacesHead(k1, "", v1);
    ShortStays("", p, v1);
    ShortStays("", Placeholder(k2), v2);
    ReplaceChangesIff(v1, Placeholder(k2), v2);
    assert [k1, k2][..1] == [k1] && [k2, k1][..1] == [k2] && [k1][..0] == [] && [k2][..0] == [];
    assert RenderIn(p, [k1], values) == v1 by { assert RenderIn(p, [], values) == p; }
    assert RenderIn(p, [k2], values) == p by { assert RenderIn(p, [], values) == p; }
  }

  /** A friend called "{amount}" who adds a debt of 500: the message names either the placeholder or the sum. */
  lemma OrderCanShow()
    ensures var values := map["name" := "{amount}", "amount" := "500"];
            RenderIn("{name}", ["name", "amount"], values) != RenderIn("{name}", ["amount", "name"], values)
  {
  }
}
