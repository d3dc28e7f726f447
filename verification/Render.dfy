/** The message copy of notifications: templates whose placeholders are filled from a payload map,
    one key at a time, in whatever order the map is walked. */
module Render {
  import opened Common
  import opened Strings

  /** strings.ReplaceAll for a pattern that is not empty. */
  function ReplaceAll(s: string, old_: string, new_: string): string
    requires old_ != ""
    decreases |s|
  {
    if |s| < |old_| then s
    else if s[..|old_|] == old_ then new_ + ReplaceAll(s[|old_|..], old_, new_)
    else [s[0]] + ReplaceAll(s[1..], old_, new_)
  }

  // ---- Payload values ----

  /** A payload value: nil, or anything else by the text fmt.Sprint gives it. */
  datatype Scalar = Nil | Shown(text: string)

  function FmtAny(v: Scalar): string {
    match v
    case Nil => ""
    case Shown(t) => TrimSpace(ReplaceAll(ReplaceAll(t, " ", ""), "\n", ""))
  }

  predicate Braceless(s: string) {
    forall i | 0 <= i < |s| :: s[i] != '{' && s[i] != '}'
  }

  /** Dropping one character everywhere leaves the others, in their order. */
  lemma {:induction false} DropKeeps(s: string, c: char, d: char)
    ensures (d in ReplaceAll(s, [c], "")) <==> d in s && d != c
  {
    if s != "" {
      DropKeeps(s[1..], c, d);
      assert s == [s[0]] + s[1..];
      if s[0] == c {
        assert s[..1] == [c];
      } else {
        assert s[..1] != [c];
      }
    }
  }

  lemma {:induction false} TrimLeftKeeps(s: string, d: char)
    requires !IsSpace(d)
    ensures d in TrimLeft(s) <==> d in s
  {
    if s != "" && IsSpace(s[0]) {
      TrimLeftKeeps(s[1..], d);
      assert s == [s[0]] + s[1..];
    }
  }

  lemma {:induction false} TrimRightKeeps(s: string, d: char)
    requires !IsSpace(d)
    ensures d in TrimRight(s) <==> d in s
  {
    if s != "" && IsSpace(s[|s| - 1]) {
      TrimRightKeeps(s[..|s| - 1], d);
      assert s == s[..|s| - 1] + [s[|s| - 1]];
    }
  }

  /** Formatting loses spaces and nothing else: a formatted value has exactly the other characters of its text. */
  lemma FmtAnyKeeps(t: string, d: char)
    ensures d == ' ' || d == '\n' ==> d !in FmtAny(Shown(t))
    ensures !IsSpace(d) ==> (d in FmtAny(Shown(t)) <==> d in t)
  {
    hide ReplaceAll;
    var once := ReplaceAll(t, " ", "");
    var twice := ReplaceAll(once, "\n", "");
    assert [' '] == " " && ['\n'] == "\n";
    DropKeeps(t, ' ', d);
    DropKeeps(once, '\n', d);
    TrimSubset(twice, d);
    if !IsSpace(d) {
      TrimLeftKeeps(twice, d);
      TrimRightKeeps(TrimLeft(twice), d);
    }
  }

  /** A text without one character. */
  function Without(s: string, c: char): string {
    if s == "" then "" else if s[0] == c then Without(s[1..], c) else [s[0]] + Without(s[1..], c)
  }

  lemma {:induction false} DropIs(s: string, c: char)
    ensures ReplaceAll(s, [c], "") == Without(s, c)
  {
    if s != "" {
      DropIs(s[1..], c);
      assert s[..1] == [s[0]];
    }
  }

  lemma {:induction false} WithoutConcat(a: string, b: string, c: char)
    ensures Without(a + b, c) == Without(a, c) + Without(b, c)
  {
    if a == "" {
      assert a + b == b;
    } else {
      WithoutConcat(a[1..], b, c);
      assert (a + b)[1..] == a[1..] + b;
    }
  }

  lemma {:induction false} WithoutNone(s: string, c: char)
    requires c !in s
    ensures Without(s, c) == s
  {
    if s != "" {
      WithoutNone(s[1..], c);
      assert s == [s[0]] + s[1..];
    }
  }

  /** A value is shown as its characters other than blanks and line feeds, each as often as it stands there and in the
      same order, without the other white space at either end. */
  lemma FmtAnyIs(t: string) returns (i: nat, j: nat)
    ensures var kept := Without(Without(t, ' '), '\n');
            && i <= j <= |kept| && FmtAny(Shown(t)) == kept[i..j]
            && (forall k | 0 <= k < i || j <= k < |kept| :: IsSpace(kept[k]))
            && (i < j ==> !IsSpace(kept[i]) && !IsSpace(kept[j - 1]))
  {
    assert [' '] == " " && ['\n'] == "\n";
    DropIs(t, ' ');
    DropIs(Without(t, ' '), '\n');
    i, j := TrimIs(Without(Without(t, ' '), '\n'));
  }

  lemma FmtAnyOf(t: string)
    ensures FmtAny(Shown(t)) == TrimSpace(Without(Without(t, ' '), '\n'))
  {
    assert [' '] == " " && ['\n'] == "\n";
    DropIs(t, ' ');
    DropIs(Without(t, ' '), '\n');
  }

  lemma InsertOne(a: string, c: char, b: string, d: char)
    ensures Without(a + [c] + b, d) == if c == d then Without(a + b, d) else Without(a, d) + [c] + Without(b, d)
    ensures Without(a + b, d) == Without(a, d) + Without(b, d)
  {
    WithoutConcat(a + [c], b, d);
    WithoutConcat(a, [c], d);
    WithoutConcat(a, b, d);
    assert Without([c], d) == if c == d then "" else [c];
  }

  /** Blanks and line feeds make no difference, wherever they stand. */
  lemma FmtIgnores(a: string, c: char, b: string)
    requires c == ' ' || c == '\n'
    ensures FmtAny(Shown(a + [c] + b)) == FmtAny(Shown(a + b))
  {
    hide FmtAny, Without, TrimSpace;
    FmtAnyOf(a + [c] + b);
    FmtAnyOf(a + b);
    InsertOne(a, c, b, ' ');
    InsertOne(Without(a, ' '), '\n', Without(b, ' '), '\n');
  }

  /** Text without white space is shown as it is, and no value as no text. */
  lemma FmtPlain(t: string)
    requires forall i | 0 <= i < |t| :: !IsSpace(t[i])
    ensures FmtAny(Shown(t)) == t && FmtAny(Nil) == ""
  {
    FmtAnyOf(t);
    assert IsSpace(' ') && IsSpace('\n');
    WithoutNone(t, ' ');
    WithoutNone(t, '\n');
    TrimKeeps(t);
  }

  lemma TrimSubset(s: string, d: char)
    ensures d in TrimSpace(s) ==> d in s
  {
    TrimLeftSubset(s, d);
    var left := TrimLeft(s);
    assert TrimRight(left) <= left;
  }

  lemma {:induction false} TrimLeftSubset(s: string, d: char)
    ensures d in TrimLeft(s) ==> d in s
  {
    if s != "" && IsSpace(s[0]) {
      TrimLeftSubset(s[1..], d);
    }
  }

  function Formatted(payload: map<string, Scalar>): map<string, string> {
    map k | k in payload :: FmtAny(payload[k])
  }

  // ---- Templates ----

  datatype Token = Words(text: string) | Hole(name: string)

  function Written(t: Token): string {
    match t
    case Words(s) => s
    case Hole(n) => "{" + n + "}"
  }

  function Flatten(ts: seq<Token>): string {
    if ts == [] then "" else Written(ts[0]) + Flatten(ts[1..])
  }

  /** Text without braces interleaved with placeholders whose names have none. */
  predicate Clean(ts: seq<Token>) {
    forall t | t in ts :: Braceless(if t.Words? then t.text else t.name)
  }

  predicate Safe(values: map<string, string>) {
    forall k | k in values :: Braceless(k) && Braceless(values[k])
  }

  /** One-pass substitution: every placeholder with a value at once. */
  function Simultaneous(ts: seq<Token>, values: map<string, string>): (rs: seq<Token>)
    ensures |rs| == |ts|
    ensures forall i | 0 <= i < |ts| :: rs[i] == Filled(ts[i], values)
  {
    if ts == [] then [] else [Filled(ts[0], values)] + Simultaneous(ts[1..], values)
  }

  function Filled(t: Token, values: map<string, string>): Token {
    if t.Hole? && t.name in values then Words(values[t.name]) else t
  }

  // ---- One key ----

  function Placeholder(k: string): (p: string)
    ensures p != "" && p[0] == '{'
  {
    "{" + k + "}"
  }

  /** Replacement passes over text in which no placeholder can start. */
  lemma {:induction false} PassesText(t: string, rest: string, k: string, v: string)
    requires '{' !in t
    ensures ReplaceAll(t + rest, Placeholder(k), v) == t + ReplaceAll(rest, Placeholder(k), v)
  {
    if t == "" {
      assert t + rest == rest;
    } else {
      var s := t + rest;
      assert s[0] == t[0] && s[1..] == t[1..] + rest;
      PassesText(t[1..], rest, k, v);
      if |s| < |Placeholder(k)| {
        ShortStays(rest, Placeholder(k), v);
      } else {
        assert s[..|Placeholder(k)|][0] != '{';
      }
    }
  }

  lemma ShortStays(s: string, old_: string, new_: string)
    requires |s| < |old_|
    ensures ReplaceAll(s, old_, new_) == s
  {
  }

  lemma ReplacesHead(k: string, rest: string, v: string)
    ensures ReplaceAll(Placeholder(k) + rest, Placeholder(k), v) == v + ReplaceAll(rest, Placeholder(k), v)
  {
  }

  /** Placeholders are self-delimiting: a string starts with at most one of them. */
  lemma SamePlaceholder(name: string, k: string, rest: string)
    requires Braceless(name) && Braceless(k) && Placeholder(k) <= Placeholder(name) + rest
    ensures k == name
  {
    var s := Placeholder(name) + rest;
    assert s[|k| + 1] == '}' && s[|name| + 1] == '}';
    assert forall i | 0 <= i < |name| :: s[i + 1] == name[i];
    assert forall i | 0 <= i < |k| :: s[i + 1] == k[i];
  }

  lemma SkipsOne(s: string, old_: string, new_: string)
    requires s != "" && old_ != "" && !(old_ <= s)
    ensures ReplaceAll(s, old_, new_) == [s[0]] + ReplaceAll(s[1..], old_, new_)
  {
    if |s| < |old_| {
      ShortStays(s[1..], old_, new_);
    } else {
      assert s[..|old_|] != old_;
    }
  }

  lemma PassesOther(name: string, rest: string, k: string, v: string)
    requires Braceless(name) && Braceless(k) && name != k
    ensures ReplaceAll(Placeholder(name) + rest, Placeholder(k), v) == Placeholder(name) + ReplaceAll(rest, Placeholder(k), v)
  {
    hide ReplaceAll;
    var s := Placeholder(name) + rest;
    var tail := name + "}";
    assert s[0] == '{' && s[1..] == tail + rest && Placeholder(name) == "{" + tail;
    if Placeholder(k) <= s {
      SamePlaceholder(name, k, rest);
    }
    SkipsOne(s, Placeholder(k), v);
    PassesText(tail, rest, k, v);
    assert [s[0]] + (tail + ReplaceAll(rest, Placeholder(k), v)) == Placeholder(name) + ReplaceAll(rest, Placeholder(k), v);
  }

  /** Replacing one placeholder in the text of a clean template fills exactly its holes of that name. */
  lemma {:induction false} ReplaceOne(ts: seq<Token>, k: string, v: string)
    requires Clean(ts) && Braceless(k)
    ensures ReplaceAll(Flatten(ts), Placeholder(k), v) == Flatten(Simultaneous(ts, map[k := v]))
  {
    hide ReplaceAll;
    if ts == [] {
      ShortStays("", Placeholder(k), v);
    } else {
      var rest := Flatten(ts[1..]);
      ReplaceOne(ts[1..], k, v);
      assert Simultaneous(ts, map[k := v])[1..] == Simultaneous(ts[1..], map[k := v]);
      match ts[0]
      case Words(t) => PassesText(t, rest, k, v);
      case Hole(n) =>
        if n == k {
          ReplacesHead(k, rest, v);
        } else {
          PassesOther(n, rest, k, v);
        }
    }
  }

  // ---- A whole payload, in any order ----

  /** The walk over the map: each key once, in the order given. */
  function RenderIn(s: string, keys: seq<string>, values: map<string, string>): string
    requires forall k | k in keys :: k in values
  {
    if keys == [] then s
    else
      var last := keys[|keys| - 1];
      ReplaceAll(RenderIn(s, keys[..|keys| - 1], values), Placeholder(last), values[last])
  }

  ghost predicate Walks(keys: seq<string>, domain: set<string>) {
    && (forall k :: k in keys <==> k in domain)
    && (forall i, j | 0 <= i < j < |keys| :: keys[i] != keys[j])
  }

  function Only(values: map<string, string>, keys: seq<string>): map<string, string> {
    map k | k in values && k in keys :: values[k]
  }

  lemma CleanAfter(ts: seq<Token>, values: map<string, string>)
    requires Clean(ts) && Safe(values)
    ensures Clean(Simultaneous(ts, values))
  {
  }

  /** Filling one more key after others fills both at once. */
  lemma FillOneMore(ts: seq<Token>, values: map<string, string>, k: string, v: string)
    requires k !in values
    ensures Simultaneous(Simultaneous(ts, values), map[k := v]) == Simultaneous(ts, values[k := v])
  {
  }

  lemma FillNothing(ts: seq<Token>)
    ensures Simultaneous(ts, map[]) == ts
  {
  }

  lemma {:induction false} RenderInFills(ts: seq<Token>, keys: seq<string>, values: map<string, string>)
    requires Clean(ts) && Safe(values) && (forall k | k in keys :: k in values)
    requires forall i, j | 0 <= i < j < |keys| :: keys[i] != keys[j]
    ensures RenderIn(Flatten(ts), keys, values) == Flatten(Simultaneous(ts, Only(values, keys)))
  {
    hide ReplaceAll, Flatten, Filled;
    if keys == [] {
      assert Only(values, keys) == map[];
      FillNothing(ts);
    } else {
      var init, last := keys[..|keys| - 1], keys[|keys| - 1];
      RenderInFills(ts, init, values);
      CleanAfter(ts, Only(values, init));
      ReplaceOne(Simultaneous(ts, Only(values, init)), last, values[last]);
      assert last !in init;
      assert keys == init + [last];
      assert Only(values, keys) == Only(values, init)[last := values[last]];
      FillOneMore(ts, Only(values, init), last, values[last]);
    }
  }

  /** Every order of the payload's keys gives the same text: the one-pass substitution. */
  lemma OrderDoesNotMatter(ts: seq<Token>, keys: seq<string>, values: map<string, string>)
    requires Clean(ts) && Safe(values) && Walks(keys, values.Keys)
    ensures RenderIn(Flatten(ts), keys, values) == Flatten(Simultaneous(ts, values))
  {
    RenderInFills(ts, keys, values);
    assert Only(values, keys) == values;
  }

  /** The text after some walk over the payload. */
  ghost predicate Renders(s: string, payload: map<string, Scalar>, r: string) {
    exists keys :: Walks(keys, payload.Keys) && r == RenderIn(s, keys, Formatted(payload))
  }

  method Render(s: string, payload: map<string, Scalar>) returns (r: string)
    ensures Renders(s, payload, r)
  {
    hide ReplaceAll, FmtAny;
    r := s;
    ghost var keys := [];
    var left := payload.Keys;
    while left != {}
      invariant left <= payload.Keys
      invariant Walks(keys, payload.Keys - left)
      invariant r == RenderIn(s, keys, Formatted(payload))
      decreases |left|
    {
      var k :| k in left;
      r := ReplaceAll(r, "{" + k + "}", FmtAny(payload[k]));
      assert (keys + [k])[..|keys|] == keys;
      keys := keys + [k];
      left := left - {k};
    }
  }

  // ---- The copy of each event ----

  datatype EventType =
    | BillsDue | DebtCreated | DebtConfirmed | TransferCompleted | TopupCompleted
    | MerchantPaid | CommissionCredited | MerchantVerified | CampaignCreated | OfferRedeemed

  /** The types that have a template; any other event is skipped. */
  function EventOf(name: string): Option<EventType> {
    match name
    case "moneymate.bills.due" => Some(BillsDue)
    case "moneymate.debt.created" => Some(DebtCreated)
    case "moneymate.debt.confirmed" => Some(DebtConfirmed)
    case "moneymate.wallet.transfer.completed" => Some(TransferCompleted)
    case "moneymate.wallet.topup.completed" => Some(TopupCompleted)
    case "moneymate.payment.merchant.completed" => Some(MerchantPaid)
    case "moneymate.merchant.commission.credited" => Some(CommissionCredited)
    case "moneymate.merchant.verified" => Some(MerchantVerified)
    case "moneymate.campaign.created" => Some(CampaignCreated)
    case "moneymate.offer.redeemed" => Some(OfferRedeemed)
    case _ => None
  }

  /** Title and body templates, as words and placeholders, and the data of the push: a screen and, for some events,
      an identifier from the payload. */
  datatype Copy = Copy(category: string, title: seq<Token>, body: seq<Token>, screen: string, idKey: Option<string>)

  function TemplateFor(event: EventType): Copy {
    var rupee, amount, name := Words("\U{20B9}"), Hole("amount"), Hole("name");
    match event
    case BillsDue =>
      Copy("bill_due", [Hole("bill_name"), Words(" bill due")], [rupee, amount, Words(" due "), Hole("due_date")], "recurring", None)
    case DebtCreated =>
      Copy("debt", [name, Words(" added a debt")], [Words("Confirm "), rupee, amount, Words(" from "), name], "debt", Some("debt_id"))
    case DebtConfirmed =>
      Copy("debt", [Words("Debt confirmed")], [name, Words(" confirmed "), rupee, amount], "debt", Some("debt_id"))
    case TransferCompleted =>
      Copy("transfer", [Words("Received "), rupee, amount], [Words("from @"), Hole("handle")], "transaction", Some("tx_id"))
    case TopupCompleted =>
      Copy("transfer", [Words("Wallet credited "), rupee, amount], [Words("Your wallet balance has been updated")], "wallet", None)
    case MerchantPaid =>
      Copy("merchant", [Words("Payment received")], [rupee, amount, Words(" via QR")], "dashboard", None)
    case CommissionCredited =>
      Copy("merchant", [Words("Commission credited "), rupee, amount], [Words("Your payout balance was updated")], "earnings", None)
    case MerchantVerified =>
      Copy("merchant", [Words("Business verified!")], [Words("Your QR code is now live")], "qr", None)
    case CampaignCreated =>
      Copy("campaign", [Words("Campaign is live")], [Hole("campaign_title")], "campaigns", Some("campaign_id"))
    case OfferRedeemed =>
      Copy("offer", [Words("Offer redeemed")], [Hole("code"), Words(" was used by a customer")], "campaigns", Some("campaign_id"))
  }

  lemma TitlePhrases()
    ensures Braceless(" bill due") && Braceless(" added a debt") && Braceless("Debt confirmed") && Braceless("Received ")
    ensures Braceless("Wallet credited ") && Braceless("Payment received") && Braceless("Commission credited ")
    ensures Braceless("Business verified!") && Braceless("Campaign is live") && Braceless("Offer redeemed")
  {
  }

  lemma BodyPhrases()
    ensures Braceless(" due ") && Braceless("Confirm ") && Braceless(" from ") && Braceless(" confirmed ") && Braceless("from @")
    ensures Braceless("Your wallet balance has been updated") && Braceless(" via QR") && Braceless("Your payout balance was updated")
    ensures Braceless("Your QR code is now live") && Braceless(" was used by a customer") && Braceless("\U{20B9}")
  {
  }

  lemma PlaceholderNames()
    ensures Braceless("amount") && Braceless("due_date") && Braceless("name") && Braceless("handle")
    ensures Braceless("bill_name") && Braceless("campaign_title") && Braceless("code") && Braceless("\U{20B9}")
  {
  }

  /** Every template is clean: words without braces, and well-formed placeholders. */
  lemma TitlesAreClean(event: EventType)
    ensures Clean(TemplateFor(event).title)
  {
    hide Braceless;
    TitlePhrases();
    PlaceholderNames();
  }

  lemma BodiesAreClean(event: EventType)
    ensures Clean(TemplateFor(event).body)
  {
    hide Braceless;
    BodyPhrases();
    PlaceholderNames();
  }

  /** A payload without braces, in its keys and in the text of its values, gives each event one title and one body,
      whichever way the map is walked. */
  lemma CopyIsDetermined(event: EventType, payload: map<string, Scalar>, r: string)
    requires forall k | k in payload :: Braceless(k) && (payload[k].Shown? ==> Braceless(payload[k].text))
    ensures Renders(Flatten(TemplateFor(event).title), payload, r) ==>
      r == Flatten(Simultaneous(TemplateFor(event).title, Formatted(payload)))
    ensures Renders(Flatten(TemplateFor(event).body), payload, r) ==>
      r == Flatten(Simultaneous(TemplateFor(event).body, Formatted(payload)))
  {
    hide Flatten, TemplateFor, FmtAny, RenderIn, Clean, Simultaneous;
    forall k | k in payload ensures Braceless(FmtAny(payload[k])) {
      FmtBraceless(payload[k]);
    }
    TitlesAreClean(event);
    BodiesAreClean(event);
    forall keys | Walks(keys, payload.Keys)
      ensures RenderIn(Flatten(TemplateFor(event).title), keys, Formatted(payload))
           == Flatten(Simultaneous(TemplateFor(event).title, Formatted(payload)))
      ensures RenderIn(Flatten(TemplateFor(event).body), keys, Formatted(payload))
           == Flatten(Simultaneous(TemplateFor(event).body, Formatted(payload)))
    {
      OrderDoesNotMatter(TemplateFor(event).title, keys, Formatted(payload));
      OrderDoesNotMatter(TemplateFor(event).body, keys, Formatted(payload));
    }
  }

  lemma FmtBraceless(v: Scalar)
    ensures Braceless(FmtAny(v)) <==> (v.Shown? ==> Braceless(v.text))
  {
    if v.Shown? {
      FmtAnyKeeps(v.text, '{');
      FmtAnyKeeps(v.text, '}');
    }
  }

  // ---- Data kept with the notification ----

  const PRIVATE_KEYS := {"amount", "due_date", "name", "handle", "bill_name", "campaign_title", "code"}

  /** The inbox data: the payload without the keys that the copy shows. */
  method DataFor(payload: map<string, Scalar>) returns (data: map<string, Scalar>)
    ensures data == map k | k in payload && k !in PRIVATE_KEYS :: payload[k]
  {
    data := map[];
    var left := payload.Keys;
    while left != {}
      invariant left <= payload.Keys
      invariant data == map k | k in payload && k !in left && k !in PRIVATE_KEYS :: payload[k]
      decreases |left|
    {
      var k :| k in left;
      if k !in PRIVATE_KEYS {
        data := data[k := payload[k]];
      }
      left := left - {k};
    }
  }

  /** Every placeholder of every template is one of the keys kept out of the data. */
  lemma PlaceholdersArePrivate(event: EventType, name: string)
    requires Hole(name) in TemplateFor(event).title + TemplateFor(event).body
    ensures name in PRIVATE_KEYS
  {
  }
}
