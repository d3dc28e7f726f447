/** The copy of each event, spelled as the service spells it. */
module Copies {
  import opened Common
  import opened Strings
  import opened Render

  /** The titles as the templates spell them. */
  function TitleText(event: EventType): string {
    match event
    case BillsDue => "{bill_name} bill due"
    case DebtCreated => "{name} added a debt"
    case DebtConfirmed => "Debt confirmed"
    case TransferCompleted => "Received \U{20B9}{amount}"
    case TopupCompleted => "Wallet credited \U{20B9}{amount}"
    case MerchantPaid => "Payment received"
    case CommissionCredited => "Commission credited \U{20B9}{amount}"
    case MerchantVerified => "Business verified!"
    case CampaignCreated => "Campaign is live"
    case OfferRedeemed => "Offer redeemed"
  }

  function BodyText(event: EventType): string {
    match event
    case BillsDue => "\U{20B9}{amount} due {due_date}"
    case DebtCreated => "Confirm \U{20B9}{amount} from {name}"
    case DebtConfirmed => "{name} confirmed \U{20B9}{amount}"
    case TransferCompleted => "from @{handle}"
    case TopupCompleted => "Your wallet balance has been updated"
    case MerchantPaid => "\U{20B9}{amount} via QR"
    case CommissionCredited => "Your payout balance was updated"
    case MerchantVerified => "Your QR code is now live"
    case CampaignCreated => "{campaign_title}"
    case OfferRedeemed => "{code} was used by a customer"
  }

  /** The name of each event on the wire. */
  function NameOf(event: EventType): string {
    match event
    case BillsDue => "moneymate.bills.due"
    case DebtCreated => "moneymate.debt.created"
    case DebtConfirmed => "moneymate.debt.confirmed"
    case TransferCompleted => "moneymate.wallet.transfer.completed"
    case TopupCompleted => "moneymate.wallet.topup.completed"
    case MerchantPaid => "moneymate.payment.merchant.completed"
    case CommissionCredited => "moneymate.merchant.commission.credited"
    case MerchantVerified => "moneymate.merchant.verified"
    case CampaignCreated => "moneymate.campaign.created"
    case OfferRedeemed => "moneymate.offer.redeemed"
  }

  /** What a tap opens: a screen and, for some, the payload key of an identifier. The category decides whether the
      recipient wants the message. */
  function Opened(event: EventType): (string, string, Option<string>) {
    match event
    case BillsDue => ("bill_due", "recurring", None)
    case DebtCreated => ("debt", "debt", Some("debt_id"))
    case DebtConfirmed => ("debt", "debt", Some("debt_id"))
    case TransferCompleted => ("transfer", "transaction", Some("tx_id"))
    case TopupCompleted => ("transfer", "wallet", None)
    case MerchantPaid => ("merchant", "dashboard", None)
    case CommissionCredited => ("merchant", "earnings", None)
    case MerchantVerified => ("merchant", "qr", None)
    case CampaignCreated => ("campaign", "campaigns", Some("campaign_id"))
    case OfferRedeemed => ("offer", "campaigns", Some("campaign_id"))
  }

  /** A name that is found is the event's own. */
  lemma FoundByName(name: string)
    ensures EventOf(name).Some? ==> name == NameOf(EventOf(name).value)
  {
  }

  lemma NameLengths(event: EventType)
    ensures |NameOf(event)| == match event
            case BillsDue => 19
            case DebtCreated => 22
            case DebtConfirmed => 24
            case TransferCompleted => 35
            case TopupCompleted => 32
            case MerchantPaid => 36
            case CommissionCredited => 38
            case MerchantVerified => 27
            case CampaignCreated => 26
            case OfferRedeemed => 24
  {
  }

  lemma NamesDiffer(event: EventType, other: EventType)
    requires NameOf(event) == NameOf(other)
    ensures event == other
  {
    assert NameOf(DebtConfirmed)[10] != NameOf(OfferRedeemed)[10];
    hide NameOf;
    NameLengths(event);
    NameLengths(other);
  }

  lemma EveryNameIsFound(event: EventType)
    ensures EventOf(NameOf(event)).Some?
  {
  }

  /** An event is found by its own name and by no other. */
  lemma EventNamed(name: string, event: EventType)
    ensures EventOf(name) == Some(event) <==> name == NameOf(event)
  {
    hide EventOf, NameOf;
    FoundByName(name);
    EveryNameIsFound(event);
    if name == NameOf(event) {
      NamesDiffer(event, EventOf(name).value);
    }
  }

  lemma CopyOpens(event: EventType)
    ensures var copy := TemplateFor(event); (copy.category, copy.screen, copy.idKey) == Opened(event)
  {
    hide Flatten;
  }

  lemma FlattenMore(t: Token, tokens: seq<Token>)
    ensures Flatten([t] + tokens) == Written(t) + Flatten(tokens)
  {
    assert ([t] + tokens)[1..] == tokens;
  }

  lemma FlattenOne(t: Token)
    ensures Flatten([t]) == Written(t)
  {
    assert [t][1..] == [];
  }

  lemma FlattenTwo(t: Token, u: Token)
    ensures Flatten([t, u]) == Written(t) + Written(u)
  {
    hide Flatten, Written;
    FlattenOne(u);
    FlattenMore(t, [u]);
    assert [t] + [u] == [t, u];
  }

  lemma FlattenThree(t: Token, u: Token, v: Token)
    ensures Flatten([t, u, v]) == Written(t) + Written(u) + Written(v)
  {
    hide Flatten, Written;
    FlattenTwo(u, v);
    FlattenMore(t, [u, v]);
    assert [t] + [u, v] == [t, u, v];
  }

  lemma FlattenFour(t: Token, u: Token, v: Token, w: Token)
    ensures Flatten([t, u, v, w]) == Written(t) + Written(u) + Written(v) + Written(w)
  {
    hide Flatten, Written;
    FlattenThree(u, v, w);
    FlattenMore(t, [u, v, w]);
    assert [t] + [u, v, w] == [t, u, v, w];
  }

  lemma FlattenFive(t: Token, u: Token, v: Token, w: Token, x: Token)
    ensures Flatten([t, u, v, w, x]) == Written(t) + Written(u) + Written(v) + Written(w) + Written(x)
  {
    hide Flatten, Written;
    FlattenFour(u, v, w, x);
    FlattenMore(t, [u, v, w, x]);
    assert [t] + [u, v, w, x] == [t, u, v, w, x];
  }

  // The longer texts, put together from their pieces.

  lemma BillText()
    ensures "{" + "bill_name" + "}" + " bill due" == "{bill_name} bill due"
  {
  }

  lemma DebtText()
    ensures "{" + "name" + "}" + " added a debt" == "{name} added a debt"
  {
  }

  lemma OfferText()
    ensures "{" + "code" + "}" + " was used by a customer" == "{code} was used by a customer"
  {
  }

  lemma DueText()
    ensures "\U{20B9}" + ("{" + "amount" + "}") + " due " + ("{" + "due_date" + "}") == "\U{20B9}{amount} due {due_date}"
  {
  }

  lemma ConfirmText()
    ensures "Confirm " + "\U{20B9}" + ("{" + "amount" + "}") + " from " + ("{" + "name" + "}") == "Confirm \U{20B9}{amount} from {name}"
  {
  }

  lemma ConfirmedText()
    ensures ("{" + "name" + "}") + " confirmed " + "\U{20B9}" + ("{" + "amount" + "}") == "{name} confirmed \U{20B9}{amount}"
  {
  }

  ghost predicate Spelled(event: EventType) {
    Flatten(TemplateFor(event).title) == TitleText(event) && Flatten(TemplateFor(event).body) == BodyText(event)
  }

  lemma BillsDueSpelled()
    ensures Spelled(BillsDue)
  {
    hide Flatten;
    BillText();
    DueText();
    FlattenTwo(Hole("bill_name"), Words(" bill due"));
    FlattenFour(Words("\U{20B9}"), Hole("amount"), Words(" due "), Hole("due_date"));
  }

  lemma DebtCreatedSpelled()
    ensures Spelled(DebtCreated)
  {
    hide Flatten;
    DebtText();
    ConfirmText();
    FlattenTwo(Hole("name"), Words(" added a debt"));
    FlattenFive(Words("Confirm "), Words("\U{20B9}"), Hole("amount"), Words(" from "), Hole("name"));
  }

  lemma DebtConfirmedSpelled()
    ensures Spelled(DebtConfirmed)
  {
    hide Flatten;
    ConfirmedText();
    FlattenOne(Words("Debt confirmed"));
    FlattenFour(Hole("name"), Words(" confirmed "), Words("\U{20B9}"), Hole("amount"));
  }

  lemma TransferCompletedSpelled()
    ensures Spelled(TransferCompleted)
  {
    hide Flatten;
    FlattenThree(Words("Received "), Words("\U{20B9}"), Hole("amount"));
    FlattenTwo(Words("from @"), Hole("handle"));
  }

  lemma TopupCompletedSpelled()
    ensures Spelled(TopupCompleted)
  {
    hide Flatten;
    FlattenThree(Words("Wallet credited "), Words("\U{20B9}"), Hole("amount"));
    FlattenOne(Words("Your wallet balance has been updated"));
  }

  lemma MerchantPaidSpelled()
    ensures Spelled(MerchantPaid)
  {
    hide Flatten;
    FlattenOne(Words("Payment received"));
    FlattenThree(Words("\U{20B9}"), Hole("amount"), Words(" via QR"));
  }

  lemma CommissionCreditedSpelled()
    ensures Spelled(CommissionCredited)
  {
    hide Flatten;
    FlattenThree(Words("Commission credited "), Words("\U{20B9}"), Hole("amount"));
    FlattenOne(Words("Your payout balance was updated"));
  }

  lemma MerchantVerifiedSpelled()
    ensures Spelled(MerchantVerified)
  {
    hide Flatten;
    FlattenOne(Words("Business verified!"));
    FlattenOne(Words("Your QR code is now live"));
  }

  lemma CampaignCreatedSpelled()
    ensures Spelled(CampaignCreated)
  {
    hide Flatten;
    FlattenOne(Words("Campaign is live"));
    FlattenOne(Hole("campaign_title"));
  }

  lemma OfferRedeemedSpelled()
    ensures Spelled(OfferRedeemed)
  {
    hide Flatten;
    OfferText();
    FlattenOne(Words("Offer redeemed"));
    FlattenTwo(Hole("code"), Words(" was used by a customer"));
  }

  /** Title and body of every event, with its placeholders, read as the service's texts. */
  lemma CopySpelled(event: EventType)
    ensures Flatten(TemplateFor(event).title) == TitleText(event) && Flatten(TemplateFor(event).body) == BodyText(event)
  {
    hide Flatten, TemplateFor, TitleText, BodyText;
    match event
    case BillsDue => BillsDueSpelled();
    case DebtCreated => DebtCreatedSpelled();
    case DebtConfirmed => DebtConfirmedSpelled();
    case TransferCompleted => TransferCompletedSpelled();
    case TopupCompleted => TopupCompletedSpelled();
    case MerchantPaid => MerchantPaidSpelled();
    case CommissionCredited => CommissionCreditedSpelled();
    case MerchantVerified => MerchantVerifiedSpelled();
    case CampaignCreated => CampaignCreatedSpelled();
    case OfferRedeemed => OfferRedeemedSpelled();
  }

  /** A transfer of an amount written without white space or braces is announced by just that amount and its sender's
      handle, whatever else the payload holds and however it is walked. */
  lemma TransferReads(payload: map<string, Scalar>, amount: string, handle: string, title: string, body: string)
    requires forall k | k in payload :: Braceless(k) && (payload[k].Shown? ==> Braceless(payload[k].text))
    requires "amount" in payload && payload["amount"] == Shown(amount) && forall i | 0 <= i < |amount| :: !IsSpace(amount[i])
    requires "handle" in payload && payload["handle"] == Shown(handle) && forall i | 0 <= i < |handle| :: !IsSpace(handle[i])
    requires Renders(TitleText(TransferCompleted), payload, title) && Renders(BodyText(TransferCompleted), payload, body)
    ensures title == "Received \U{20B9}" + amount && body == "from @" + handle
  {
    hide Flatten, FmtAny, Renders, Braceless, TitleText, BodyText;
    CopySpelled(TransferCompleted);
    CopyIsDetermined(TransferCompleted, payload, title);
    CopyIsDetermined(TransferCompleted, payload, body);
    FmtPlain(amount);
    FmtPlain(handle);
    TransferFills(Formatted(payload));
  }

  lemma TransferFills(values: map<string, string>)
    requires "amount" in values && "handle" in values
    ensures Flatten(Simultaneous(TemplateFor(TransferCompleted).title, values)) == "Received \U{20B9}" + values["amount"]
    ensures Flatten(Simultaneous(TemplateFor(TransferCompleted).body, values)) == "from @" + values["handle"]
  {
    hide Flatten;
    FlattenThree(Words("Received "), Words("\U{20B9}"), Words(values["amount"]));
    FlattenTwo(Words("from @"), Words(values["handle"]));
    assert Simultaneous(TemplateFor(TransferCompleted).title, values) == [Words("Received "), Words("\U{20B9}"), Words(values["amount"])];
    assert Simultaneous(TemplateFor(TransferCompleted).body, values) == [Words("from @"), Words(values["handle"])];
    assert "Received " + "\U{20B9}" == "Received \U{20B9}";
  }
}
