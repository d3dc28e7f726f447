/** What one uninterrupted delivery does: the inbox row it leaves, one push for each active device, and the devices it
    switches off. */
module Deliveries {
  import opened Common
  import opened Notification
  import opened Tokens

  /** Dead for good, and the write that says so took effect. */
  predicate Killed(t: Target, fx: Effects) {
    fx.outcome(t.device).Permanent? && !fx.disable(t.device).Dropped?
  }

  /** What the pushes to these targets add to the history: one push each, in this order, and behind a fatal one the token
      switched off. */
  function Notes(row: int, targets: seq<Target>, fx: Effects): seq<Note> {
    if targets == [] then []
    else
      var t := targets[|targets| - 1];
      Notes(row, targets[..|targets| - 1], fx) + [Push(row, t, fx.outcome(t.device), fx.recorded(t.device))]
      + if Killed(t, fx) then [Off(t.token)] else []
  }

  ghost predicate Kills(targets: seq<Target>, fx: Effects, device: int) {
    exists t :: t in targets && t.device == device && Killed(t, fx)
  }

  /** The devices killed are off, and every device is otherwise as it was. */
  ghost predicate SwitchedOff(before: map<int, Device>, after: map<int, Device>, targets: seq<Target>, fx: Effects) {
    && after.Keys == before.Keys
    && forall d | d in before :: after[d] == if Kills(targets, fx, d) then before[d].(active := false) else before[d]
  }

  /** One target of a delivery. */
  lemma DispatchedOne(w: World, row: int, target: Target, fx: Effects)
    requires row in w.deliveries && w.deliveries[row].phase.Sending? && w.deliveries[row].phase.todo != []
    requires w.deliveries[row].phase.todo[0] == target
    requires target.device in w.db.devices && w.db.devices[target.device].token == target.token
    ensures var w', rest := DispatchOne(w, row, target, fx), w.deliveries[row].phase.todo[1..];
            && w'.history == w.history + [Push(row, target, fx.outcome(target.device), fx.recorded(target.device))]
                             + (if Killed(target, fx) then [Off(target.token)] else [])
            && w'.deliveries == w.deliveries[row := w.deliveries[row].(phase := Sending(rest))]
            && w'.db == if Killed(target, fx) then Deactivate(w.db, target.device) else w.db
  {
    var send := Send(row, fx.outcome(target.device), fx.recorded(target.device));
    var sent := Act(w, send);
    var rest := w.deliveries[row].phase.todo[1..];
    var d := w.deliveries[row];
    assert w.deliveries[row := d.(phase := Disabling(target.device, rest))][row := d.(phase := Sending(rest))]
        == w.deliveries[row := d.(phase := Sending(rest))];
  }

  lemma KillsMore(targets: seq<Target>, k: nat, fx: Effects, device: int)
    requires k < |targets|
    ensures Kills(targets[..k + 1], fx, device)
       <==> Kills(targets[..k], fx, device) || (targets[k].device == device && Killed(targets[k], fx))
  {
    assert targets[..k + 1] == targets[..k] + [targets[k]];
  }

  lemma SwitchedMore(before: map<int, Device>, mid: map<int, Device>, targets: seq<Target>, k: nat, fx: Effects)
    requires k < |targets| && SwitchedOff(before, mid, targets[..k], fx) && targets[k].device in before
    ensures var device := targets[k].device;
            SwitchedOff(before, if Killed(targets[k], fx) then mid[device := mid[device].(active := false)] else mid, targets[..k + 1], fx)
  {
    hide Kills, Killed;
    forall d ensures Kills(targets[..k + 1], fx, d) <==> Kills(targets[..k], fx, d) || (targets[k].device == d && Killed(targets[k], fx)) {
      KillsMore(targets, k, fx, d);
    }
  }

  lemma {:induction false} DispatchedAll(w: World, row: int, targets: seq<Target>, k: nat, fx: Effects)
    requires k <= |targets| && row in w.deliveries && w.deliveries[row].phase == Sending(targets)
    requires forall t | t in targets :: t.device in w.db.devices && w.db.devices[t.device].token == t.token
    ensures var w' := DispatchAll(w, row, targets[..k], fx);
            && w'.history == w.history + Notes(row, targets[..k], fx)
            && w'.deliveries == w.deliveries[row := w.deliveries[row].(phase := Sending(targets[k..]))]
            && w'.db == w.db.(devices := w'.db.devices) && SwitchedOff(w.db.devices, w'.db.devices, targets[..k], fx)
  {
    hide DispatchOne, Kills, Killed, SwitchedOff;
    if k == 0 {
      assert targets[..0] == [] && targets[0..] == targets && w.deliveries[row := w.deliveries[row]] == w.deliveries;
      NoneSwitched(w.db.devices, fx);
    } else {
      DispatchedAll(w, row, targets, k - 1, fx);
      var before, t := DispatchAll(w, row, targets[..k - 1], fx), targets[k - 1];
      assert targets[..k][..k - 1] == targets[..k - 1] && targets[..k][k - 1] == t && t in targets;
      assert targets[k - 1..][0] == t && targets[k - 1..][1..] == targets[k..];
      SameKeys(w.db.devices, before.db.devices, targets[..k - 1], fx);
      DispatchedOne(before, row, t, fx);
      SwitchedMore(w.db.devices, before.db.devices, targets, k - 1, fx);
      NotesMore(w.history, row, targets, k, fx);
    }
  }

  lemma NoneSwitched(devices: map<int, Device>, fx: Effects)
    ensures SwitchedOff(devices, devices, [], fx)
  {
  }

  lemma SameKeys(before: map<int, Device>, after: map<int, Device>, targets: seq<Target>, fx: Effects)
    requires SwitchedOff(before, after, targets, fx)
    ensures after.Keys == before.Keys && forall d | d in before :: after[d].token == before[d].token
  {
    hide Kills;
  }

  lemma NotesMore(h: seq<Note>, row: int, targets: seq<Target>, k: nat, fx: Effects)
    requires 0 < k <= |targets|
    ensures var t := targets[k - 1];
            h + Notes(row, targets[..k], fx)
            == h + Notes(row, targets[..k - 1], fx) + [Push(row, t, fx.outcome(t.device), fx.recorded(t.device))]
               + if Killed(t, fx) then [Off(t.token)] else []
  {
    assert targets[..k][..k - 1] == targets[..k - 1];
  }

  /** A first delivery of an event to a recipient, with a fresh row. */
  ghost predicate First(w: World, event: string, owner: Recipient, fx: Effects) {
    (event, owner) !in w.db.inbox && fx.row !in w.db.rows && fx.insert.Answered?
  }

  /** The recipient has not switched the category off. */
  predicate Wants(db: Db, owner: Recipient, category: string) {
    (owner, category) in db.preferences ==> db.preferences[(owner, category)]
  }

  /** Whose preference allows it, and whose devices are these. */
  ghost predicate Wanted(w: World, owner: Recipient, content: Content, targets: seq<Target>, fx: Effects) {
    fx.preference && Wants(w.db, owner, content.category) && fx.list && Lists(w.db, owner, targets)
  }

  lemma Opens(w: World, event: string, owner: Recipient, content: Content, targets: seq<Target>, fx: Effects)
    requires First(w, event, owner, fx) && Wanted(w, owner, content, targets, fx)
    ensures var w3 := Act(Act(Act(w, Receive(event, owner, fx.row, content, fx.insert)), Ask(fx.row, fx.preference)),
                          ListDevices(fx.row, targets, fx.list));
            && w3.deliveries == w.deliveries[fx.row := Delivery(event, owner, content.category, Sending(targets))]
            && w3.history == w.history + [Listing(fx.row)]
            && w3.db == w.db.(inbox := w.db.inbox[(event, owner) := InboxRow(fx.row, content, false)],
                              rows := w.db.rows + {fx.row})
  {
    hide Lists;
    var w1 := Act(w, Receive(event, owner, fx.row, content, fx.insert));
    var d := Delivery(event, owner, content.category, Inserted);
    assert w1.deliveries == w.deliveries[fx.row := d];
    SameDevices(w.db, w1.db, owner, targets);
    assert w.deliveries[fx.row := d][fx.row := d.(phase := Enabled)] == w.deliveries[fx.row := d.(phase := Enabled)];
    assert w.deliveries[fx.row := d.(phase := Enabled)][fx.row := d.(phase := Sending(targets))]
        == w.deliveries[fx.row := d.(phase := Sending(targets))];
  }

  lemma SameDevices(db: Db, db': Db, owner: Recipient, targets: seq<Target>)
    requires Lists(db, owner, targets) && db'.devices == db.devices
    ensures Lists(db', owner, targets)
  {
  }

  lemma ListedHave(db: Db, owner: Recipient, targets: seq<Target>)
    requires Lists(db, owner, targets)
    ensures forall t | t in targets :: t.device in db.devices && db.devices[t.device].token == t.token
  {
  }

  lemma Closes(w: World, row: int, fate: Fate, d: Delivery, content: Content)
    requires row in w.deliveries && w.deliveries[row] == d && d.phase == Sending([])
    requires (d.event, d.owner) in w.db.inbox && w.db.inbox[(d.event, d.owner)] == InboxRow(row, content, false)
    ensures var w' := Act(w, Close(row, fate));
            && w'.history == w.history && w'.deliveries == w.deliveries[row := d.(phase := Over)]
            && w'.db == w.db.(inbox := w.db.inbox[(d.event, d.owner) := InboxRow(row, content, !fate.Dropped?)])
  {
    assert w.db.inbox[(d.event, d.owner) := w.db.inbox[(d.event, d.owner)]] == w.db.inbox;
  }

  /** An uninterrupted delivery that is wanted: each active device of the recipient is pushed to exactly once, in the order
      listed, the dead ones are switched off, the inbox holds the message, marked sent unless that write was lost, and the
      delivery is over. Nothing else changes. */
  lemma Delivered(w: World, event: string, owner: Recipient, content: Content, targets: seq<Target>, fx: Effects)
    requires First(w, event, owner, fx) && Wanted(w, owner, content, targets, fx)
    ensures var (w', e) := Handle(w, event, owner, content, targets, fx);
            && w'.history == w.history + [Listing(fx.row)] + Notes(fx.row, targets, fx)
            && SwitchedOff(w.db.devices, w'.db.devices, targets, fx)
            && w'.db.inbox == w.db.inbox[(event, owner) := InboxRow(fx.row, content, !fx.close.Dropped?)]
            && w'.db.rows == w.db.rows + {fx.row} && w'.db.preferences == w.db.preferences
            && w'.deliveries == w.deliveries[fx.row := Delivery(event, owner, content.category, Over)]
            && (e == None <==> fx.close.Answered?)
  {
    hide Lists, Act, DispatchAll, SwitchedOff, Notes;
    Opens(w, event, owner, content, targets, fx);
    var w3 := Act(Act(Act(w, Receive(event, owner, fx.row, content, fx.insert)), Ask(fx.row, fx.preference)),
                  ListDevices(fx.row, targets, fx.list));
    ListedHave(w.db, owner, targets);
    DispatchedAll(w3, fx.row, targets, |targets|, fx);
    assert targets[..|targets|] == targets && targets[|targets|..] == [];
    var w4 := DispatchAll(w3, fx.row, targets, fx);
    var d := Delivery(event, owner, content.category, Sending([]));
    assert w4.deliveries == w.deliveries[fx.row := d];
    Closes(w4, fx.row, fx.close, d, content);
    var unsent, last := InboxRow(fx.row, content, false), InboxRow(fx.row, content, !fx.close.Dropped?);
    assert w.db.inbox[(event, owner) := unsent][(event, owner) := last] == w.db.inbox[(event, owner) := last];
    assert w.deliveries[fx.row := d][fx.row := d.(phase := Over)] == w.deliveries[fx.row := d.(phase := Over)];
  }

  /** A recipient who does not want this category gets the inbox row and no push. */
  lemma Muted(w: World, event: string, owner: Recipient, content: Content, targets: seq<Target>, fx: Effects)
    requires First(w, event, owner, fx) && fx.preference && !Wants(w.db, owner, content.category)
    ensures var (w', e) := Handle(w, event, owner, content, targets, fx);
            && w'.history == w.history && w'.db.devices == w.db.devices
            && w'.db.inbox == w.db.inbox[(event, owner) := InboxRow(fx.row, content, !fx.close.Dropped?)]
            && (e == None <==> fx.close.Answered?)
  {
    var w1 := Act(w, Receive(event, owner, fx.row, content, fx.insert));
    var d := Delivery(event, owner, content.category, Inserted);
    assert w1.deliveries == w.deliveries[fx.row := d];
    var w2 := Act(w1, Ask(fx.row, fx.preference));
    assert w2.deliveries == w.deliveries[fx.row := d.(phase := Sending([]))];
    hide Act;
    Closes(w2, fx.row, fx.close, d.(phase := Sending([])), content);
  }

  lemma {:induction false} NotedAt(row: int, targets: seq<Target>, fx: Effects, i: nat) returns (j: nat)
    requires i < |targets|
    ensures var t, notes := targets[i], Notes(row, targets, fx);
            j < |notes| && notes[j] == Push(row, t, fx.outcome(t.device), fx.recorded(t.device))
  {
    var n := |targets| - 1;
    if i < n {
      j := NotedAt(row, targets[..n], fx, i);
    } else {
      j := |Notes(row, targets[..n], fx)|;
    }
  }

  /** So every active device of the recipient is pushed to. */
  lemma EveryDeviceIsPushed(w: World, event: string, owner: Recipient, content: Content, targets: seq<Target>, fx: Effects,
                            device: int)
    returns (j: nat)
    requires First(w, event, owner, fx) && Wanted(w, owner, content, targets, fx)
    requires device in w.db.devices && w.db.devices[device].owner == owner && w.db.devices[device].active
    ensures var h := Handle(w, event, owner, content, targets, fx).0.history;
            var t := Target(device, w.db.devices[device].token);
            |w.history| <= j < |h| && h[j] == Push(fx.row, t, fx.outcome(device), fx.recorded(device))
  {
    hide Handle, Notes, SwitchedOff;
    Delivered(w, event, owner, content, targets, fx);
    var t := Target(device, w.db.devices[device].token);
    assert t in targets;
    var i :| 0 <= i < |targets| && targets[i] == t;
    j := NotedAt(fx.row, targets, fx, i);
    var notes := Notes(fx.row, targets, fx);
    assert (w.history + [Listing(fx.row)] + notes)[|w.history| + 1 + j] == notes[j];
    j := |w.history| + 1 + j;
  }

  /** Switching a category on or off counts for that recipient and category from then on, and for no other. */
  lemma PreferredLeaves(w: World, owner: Recipient, category: string, enabled: bool, other: Recipient, name: string)
    ensures var w' := Act(w, Prefer(owner, category, enabled));
            && (Wants(w'.db, other, name) <==> if other == owner && name == category then enabled else Wants(w.db, other, name))
            && w'.db.inbox == w.db.inbox && w'.db.devices == w.db.devices && w'.deliveries == w.deliveries
            && w'.history == w.history
  {
  }
}
