/** What becomes of the push tokens of devices: which are switched off, and which are pushed to, over every run of the
    deliveries of Notification. */
module Tokens {
  import opened Common
  import opened Notification

  // ---- Registering and revoking ----

  /** A registration takes effect exactly for a named device, a token that no other row has and a known platform; then the
      recipient's row for the device, or a new one, holds the token and is active, and no other row changes. */
  lemma RegisteredLeaves(w: World, owner: Recipient, deviceId: string, token: string, platform: string, row: int, fate: Fate)
    requires OwnRow(w.db, owner, deviceId, row)
    ensures var w' := Act(w, Register(owner, deviceId, token, platform, row, fate));
            if deviceId != "" && token != "" && platform in {"ios", "android", "web"} && !fate.Dropped?
               && forall d | d in w.db.devices && d != row :: w.db.devices[d].token != token
            then w'.db == w.db.(devices := w.db.devices[row := Device(owner, deviceId, token, true)])
                 && w'.history == w.history + [On(token)] && w'.deliveries == w.deliveries
            else w' == w
  {
    hide OwnRow;
  }

  /** A revocation switches off the recipient's own row for the device. */
  lemma RevokedLeaves(w: World, owner: Recipient, deviceId: string, row: int, fate: Fate)
    ensures var w' := Act(w, Revoke(owner, deviceId, row, fate));
            if deviceId != "" && !fate.Dropped? && row in w.db.devices && w.db.devices[row].owner == owner
               && w.db.devices[row].deviceId == deviceId
            then w'.db == w.db.(devices := w.db.devices[row := Device(owner, deviceId, w.db.devices[row].token, false)])
                 && w'.history == w.history + [Off(w.db.devices[row].token)] && w'.deliveries == w.deliveries
            else w' == w
  {
  }

  // ---- Tokens switched off by mistake ----

  /** A dead token is switched off by its row, so a device that registers a new token between the failed push and the
      write loses the new one: the write spares the current token exactly when the token has not changed. */
  lemma RotatedTokenIsLost(w: World, row: int, device: int, todo: seq<Target>, pushed: string)
    requires row in w.deliveries && w.deliveries[row].phase == Disabling(device, todo) && device in w.db.devices
    ensures var w' := Act(w, Disable(row, Answered));
            && !w'.db.devices[device].active
            && w'.history == w.history + [Off(w.db.devices[device].token)]
            && (Off(pushed) == w'.history[|w.history|] <==> w.db.devices[device].token == pushed)
  {
  }

  /** The token was registered after the delivery had listed the devices. */
  ghost predicate RegisteredSince(h: seq<Note>, row: int, token: string) {
    exists i, k :: 0 <= i < k < |h| && h[i] == Listing(row) && h[k] == On(token)
  }

  ghost predicate PushedTo(h: seq<Note>, row: int, t: Target) {
    exists j :: 0 <= j < |h| && h[j].Push? && h[j].row == row && h[j].target == t
  }

  /** The device still has the token listed, or one registered since. */
  ghost predicate Followed(w: World, row: int, t: Target) {
    t.device in w.db.devices && w.db.devices[t.device].token != t.token ==>
      RegisteredSince(w.history, row, w.db.devices[t.device].token)
  }

  /** The delivery that is about to switch a device off pushed to it in vain. */
  ghost predicate Rejected(w: World, row: int, device: int) {
    exists j :: 0 <= j < |w.history| && w.history[j].Push? && w.history[j].row == row && w.history[j].target.device == device
                && w.history[j].outcome.Permanent?
  }

  ghost predicate Tracks(w: World) {
    && (forall row, t | Holds(w, row, t) || PushedTo(w.history, row, t) :: Listing(row) in w.history && Followed(w, row, t))
    && (forall row | row in w.deliveries && w.deliveries[row].phase.Disabling? :: Rejected(w, row, w.deliveries[row].phase.device))
  }

  lemma SinceLater(h: seq<Note>, notes: seq<Note>, row: int, token: string)
    requires RegisteredSince(h, row, token)
    ensures RegisteredSince(h + notes, row, token)
  {
    var i, k :| 0 <= i < k < |h| && h[i] == Listing(row) && h[k] == On(token);
    assert (h + notes)[i] == Listing(row) && (h + notes)[k] == On(token);
  }

  lemma SinceNow(h: seq<Note>, row: int, token: string)
    requires Listing(row) in h
    ensures RegisteredSince(h + [On(token)], row, token)
  {
    var i :| 0 <= i < |h| && h[i] == Listing(row);
    assert (h + [On(token)])[i] == Listing(row) && (h + [On(token)])[|h|] == On(token);
  }

  /** What one step adds to the history, and what it can do to tokens and to deliveries. */
  lemma StepNotes(w: World, a: Action) returns (notes: seq<Note>)
    ensures Act(w, a).history == w.history + notes && |notes| <= 1
    ensures forall d | d in Act(w, a).db.devices ::
      (d in w.db.devices && Act(w, a).db.devices[d].token == w.db.devices[d].token) || notes == [On(Act(w, a).db.devices[d].token)]
  {
    hide Lists, OwnRow, TokenFree, Preference;
    notes := Act(w, a).history[|w.history|..];
  }

  lemma StepTakes(w: World, a: Action, row: int, t: Target)
    requires Holds(Act(w, a), row, t)
    ensures Holds(w, row, t)
         || (Act(w, a).history == w.history + [Listing(row)] && t.device in w.db.devices && w.db.devices[t.device].token == t.token)
  {
    hide OwnRow, TokenFree, Preference;
  }

  lemma StepPushes(w: World, a: Action, row: int, t: Target)
    requires PushedTo(Act(w, a).history, row, t)
    ensures PushedTo(w.history, row, t) || Holds(w, row, t)
  {
    hide Lists, OwnRow, TokenFree, Preference;
    var h, h' := w.history, Act(w, a).history;
    var j :| 0 <= j < |h'| && h'[j].Push? && h'[j].row == row && h'[j].target == t;
    assert j < |h| ==> h[j] == h'[j];
  }

  lemma StepFollows(w: World, a: Action, row: int, t: Target)
    requires Tracks(w) && (Holds(Act(w, a), row, t) || PushedTo(Act(w, a).history, row, t))
    ensures Listing(row) in Act(w, a).history && Followed(Act(w, a), row, t)
  {
    hide Act, Holds, PushedTo, RegisteredSince;
    var w' := Act(w, a);
    var notes := StepNotes(w, a);
    if PushedTo(w'.history, row, t) {
      StepPushes(w, a, row, t);
    } else {
      StepTakes(w, a, row, t);
    }
    if Holds(w, row, t) || PushedTo(w.history, row, t) {
      if t.device in w'.db.devices && w'.db.devices[t.device].token != t.token {
        var token := w'.db.devices[t.device].token;
        if t.device in w.db.devices && w.db.devices[t.device].token == token {
          SinceLater(w.history, notes, row, token);
        } else {
          SinceNow(w.history, row, token);
        }
      }
    } else {
      assert notes == w'.history[|w.history|..] == [Listing(row)];
    }
  }

  lemma StepRejects(w: World, a: Action, row: int)
    requires Tracks(w) && row in Act(w, a).deliveries && Act(w, a).deliveries[row].phase.Disabling?
    ensures Rejected(Act(w, a), row, Act(w, a).deliveries[row].phase.device)
  {
    hide Lists, OwnRow, TokenFree, Preference, Holds, PushedTo, Followed;
    var w' := Act(w, a);
    if row in w.deliveries && w.deliveries[row].phase == w'.deliveries[row].phase {
      var j :| 0 <= j < |w.history| && w.history[j].Push? && w.history[j].row == row
               && w.history[j].target.device == w.deliveries[row].phase.device && w.history[j].outcome.Permanent?;
      assert w'.history[j] == w.history[j];
    } else {
      assert a.Send?;
      var n := w'.history[|w.history|];
      assert n.Push? && n.row == row && n.outcome.Permanent?;
    }
  }

  lemma {:induction false} RunTracks(w: World, acts: seq<Action>)
    requires Initial(w)
    ensures Tracks(Run(w, acts))
  {
    if acts == [] {
      NothingTracked(w);
    } else {
      hide Act, Initial, Tracks, Holds, PushedTo, Followed;
      var before, last := acts[..|acts| - 1], acts[|acts| - 1];
      RunTracks(w, before);
      TracksStep(Run(w, before), last);
    }
  }

  lemma NothingTracked(w: World)
    requires Initial(w)
    ensures Tracks(w)
  {
  }

  lemma TracksStep(w: World, a: Action)
    requires Tracks(w)
    ensures Tracks(Act(w, a))
  {
    hide Act, Holds, PushedTo, Followed;
    forall row, t | Holds(Act(w, a), row, t) || PushedTo(Act(w, a).history, row, t)
      ensures Listing(row) in Act(w, a).history && Followed(Act(w, a), row, t)
    {
      StepFollows(w, a, row, t);
    }
    forall row | row in Act(w, a).deliveries && Act(w, a).deliveries[row].phase.Disabling?
      ensures Rejected(Act(w, a), row, Act(w, a).deliveries[row].phase.device)
    {
      StepRejects(w, a, row);
    }
  }

  /** Over every interleaving: a delivery switches off the token it pushed to in vain, or one that was registered on the
      device after the delivery had listed the devices; never another. */
  lemma OnlyRotatedTokensAreLost(w: World, acts: seq<Action>, row: int)
    returns (j: nat)
    requires Initial(w)
    requires var end := Run(w, acts);
             row in end.deliveries && end.deliveries[row].phase.Disabling? && end.deliveries[row].phase.device in end.db.devices
    ensures var end := Run(w, acts);
            var h, device := end.history, end.deliveries[row].phase.device;
            var token := end.db.devices[device].token;
            && j < |h| && h[j].Push? && h[j].row == row && h[j].target.device == device && h[j].outcome.Permanent?
            && Act(end, Disable(row, Answered)).history == h + [Off(token)]
            && (token == h[j].target.token || RegisteredSince(h, row, token))
  {
    hide Run, Initial, RegisteredSince;
    RunTracks(w, acts);
    var end := Run(w, acts);
    assert Rejected(end, row, end.deliveries[row].phase.device);
    j :| 0 <= j < |end.history| && end.history[j].Push? && end.history[j].row == row
         && end.history[j].target.device == end.deliveries[row].phase.device && end.history[j].outcome.Permanent?;
    assert PushedTo(end.history, row, end.history[j].target);
  }

  // ---- A token lost ----

  /** A device whose old token is rejected while it registers a new one. */
  function Rotation(event: string, owner: Recipient, row: int, content: Content, device: int, deviceId: string, old_: string,
                    new_: string): seq<Action> {
    [] + [Receive(event, owner, row, content, Answered), Ask(row, true)]
       + [ListDevices(row, [Target(device, old_)], true), Send(row, Permanent, true)]
       + [Register(owner, deviceId, new_, "ios", device, Answered), Disable(row, Answered)]
  }

  lemma RunPair(w: World, acts: seq<Action>, a: Action, b: Action)
    ensures Run(w, acts + [a, b]) == Act(Act(Run(w, acts), a), b)
  {
    hide Act;
    assert (acts + [a, b])[..|acts| + 1] == acts + [a];
    assert (acts + [a])[..|acts|] == acts;
  }

  lemma RunOfNone(w: World)
    ensures Run(w, []) == w
  {
  }

  lemma Begins(w: World, event: string, owner: Recipient, row: int, content: Content)
    requires Initial(w) && Preference(w.db, owner, content.category)
    ensures var w' := Act(Act(w, Receive(event, owner, row, content, Answered)), Ask(row, true));
            && w'.db.devices == w.db.devices && w'.history == []
            && w'.deliveries == map[row := Delivery(event, owner, content.category, Enabled)]
  {
    var w1 := Act(w, Receive(event, owner, row, content, Answered));
    assert w1.deliveries == map[row := Delivery(event, owner, content.category, Inserted)];
    assert w1.deliveries[row := Delivery(event, owner, content.category, Enabled)]
        == map[row := Delivery(event, owner, content.category, Enabled)];
  }

  lemma PushesInVain(w: World, d: Delivery, row: int, t: Target)
    requires w.deliveries == map[row := d] && d.phase.Enabled? && w.history == [] && Lists(w.db, d.owner, [t])
    ensures Act(Act(w, ListDevices(row, [t], true)), Send(row, Permanent, true))
         == World(w.db, map[row := d.(phase := Disabling(t.device, []))], [Listing(row), Push(row, t, Permanent, true)])
  {
    hide Lists;
    var w1 := Act(w, ListDevices(row, [t], true));
    assert w1 == World(w.db, map[row := d.(phase := Sending([t]))], [Listing(row)]);
    assert [t][1..] == [];
    assert map[row := d.(phase := Sending([t]))][row := d.(phase := Disabling(t.device, []))]
        == map[row := d.(phase := Disabling(t.device, []))];
    assert [Listing(row)] + [Push(row, t, Permanent, true)] == [Listing(row), Push(row, t, Permanent, true)];
  }

  lemma Rotates(w: World, d: Delivery, row: int, device: int, deviceId: string, new_: string)
    requires w.deliveries == map[row := d] && d.phase == Disabling(device, []) && device in w.db.devices
    requires w.db.devices[device].owner == d.owner && w.db.devices[device].deviceId == deviceId
    requires deviceId != "" && new_ != "" && TokenFree(w.db, new_, device)
    ensures var w' := Act(Act(w, Register(d.owner, deviceId, new_, "ios", device, Answered)), Disable(row, Answered));
            && w'.db.devices == w.db.devices[device := Device(d.owner, deviceId, new_, false)]
            && w'.history == w.history + [On(new_), Off(new_)]
  {
    hide TokenFree;
    assert OwnRow(w.db, d.owner, deviceId, device);
    var w1 := Act(w, Register(d.owner, deviceId, new_, "ios", device, Answered));
    assert w1.db.devices == w.db.devices[device := Device(d.owner, deviceId, new_, true)] && w1.history == w.history + [On(new_)];
    assert w1.db.devices[device := Device(d.owner, deviceId, new_, false)] == w.db.devices[device := Device(d.owner, deviceId, new_, false)];
  }

  /** For any recipient with one active device, there is a run that registers a new token on the device and switches it
      off, although nothing was ever pushed to it. */
  lemma RotationIsReached(w: World, event: string, owner: Recipient, row: int, content: Content, device: int, deviceId: string,
                          old_: string, new_: string)
    requires Initial(w) && Preference(w.db, owner, content.category) && Lists(w.db, owner, [Target(device, old_)])
    requires device in w.db.devices && w.db.devices[device].deviceId == deviceId && deviceId != ""
    requires new_ != "" && old_ != new_ && TokenFree(w.db, new_, device)
    ensures var end := Run(w, Rotation(event, owner, row, content, device, deviceId, old_, new_));
            && end.db.devices == w.db.devices[device := Device(owner, deviceId, new_, false)]
            && end.history == [Listing(row), Push(row, Target(device, old_), Permanent, true), On(new_), Off(new_)]
  {
    hide Run, Act, Lists, TokenFree, Initial, Preference;
    var t := Target(device, old_);
    var first := [] + [Receive(event, owner, row, content, Answered), Ask(row, true)];
    var second := first + [ListDevices(row, [t], true), Send(row, Permanent, true)];
    RunPair(w, [], Receive(event, owner, row, content, Answered), Ask(row, true));
    RunPair(w, first, ListDevices(row, [t], true), Send(row, Permanent, true));
    RunPair(w, second, Register(owner, deviceId, new_, "ios", device, Answered), Disable(row, Answered));
    RunOfNone(w);
    Begins(w, event, owner, row, content);
    var d := Delivery(event, owner, content.category, Enabled);
    SameLists(w.db, Run(w, first).db, owner, t);
    PushesInVain(Run(w, first), d, row, t);
    SameFree(w.db, Run(w, second).db, new_, device);
    Rotates(Run(w, second), d.(phase := Disabling(device, [])), row, device, deviceId, new_);
    assert [Listing(row), Push(row, t, Permanent, true)] + [On(new_), Off(new_)]
        == [Listing(row), Push(row, t, Permanent, true), On(new_), Off(new_)];
  }

  lemma SameLists(db: Db, db': Db, owner: Recipient, t: Target)
    requires Lists(db, owner, [t]) && db'.devices == db.devices
    ensures Lists(db', owner, [t]) && t.device in db.devices && db.devices[t.device].owner == owner
  {
    assert [t][0] == t;
  }

  lemma SameFree(db: Db, db': Db, token: string, device: int)
    requires TokenFree(db, token, device) && db'.devices == db.devices
    ensures TokenFree(db', token, device)
  {
  }

  // ---- Handlers that nothing interrupts ----

  /** No token is pushed to after it was switched off, unless it was registered in between. */
  ghost predicate NoDeadPush(h: seq<Note>) {
    forall i: nat, j: nat | i < j < |h| && h[j].Push? :: !Barred(h[..j], h[j].target.token, i)
  }

  ghost predicate Live(db: Db, targets: seq<Target>) {
    forall t | t in targets :: t.device in db.devices && db.devices[t.device].active && db.devices[t.device].token == t.token
  }

  lemma QuietKeeps(h: seq<Note>, h': seq<Note>)
    requires NoDeadPush(h) && h <= h' && forall j | |h| <= j < |h'| :: !h'[j].Push?
    ensures NoDeadPush(h')
  {
    hide Barred;
    forall i: nat, j: nat | i < j < |h'| && h'[j].Push? ensures !Barred(h'[..j], h'[j].target.token, i) {
      assert h'[..j] == h[..j];
    }
  }

  lemma PushKeeps(w: World, n: Note)
    requires NoDeadPush(w.history) && Unbarred(w) && n.Push? && Active(w.db, n.target.token)
    ensures NoDeadPush(w.history + [n])
  {
    hide Barred, Active;
    var h, h' := w.history, w.history + [n];
    forall i: nat, j: nat | i < j < |h'| && h'[j].Push? ensures !Barred(h'[..j], h'[j].target.token, i) {
      assert h'[..j] == h[..j];
      if j == |h| {
        assert h[..j] == h;
      }
    }
  }

  /** The next target of the delivery is live, so the push is, and the others stay so. */
  lemma DispatchOneLive(w: World, row: int, target: Target, fx: Effects)
    requires Sound(w) && NoDeadPush(w.history)
    requires row in w.deliveries && w.deliveries[row].phase.Sending? && w.deliveries[row].phase.todo != []
    requires w.deliveries[row].phase.todo[0] == target && Live(w.db, w.deliveries[row].phase.todo)
    ensures var w', rest := DispatchOne(w, row, target, fx), w.deliveries[row].phase.todo[1..];
            && Sound(w') && NoDeadPush(w'.history) && row in w'.deliveries
            && w'.deliveries[row].phase == Sending(rest) && Live(w'.db, rest)
  {
    hide Sound, NoDeadPush, Live, Act;
    var todo := w.deliveries[row].phase.todo;
    var send := Send(row, fx.outcome(target.device), fx.recorded(target.device));
    var n := Push(row, target, fx.outcome(target.device), fx.recorded(target.device));
    var sent := Act(w, send);
    ActSound(w, send);
    Sends(w, row, n);
    LiveHead(w, todo, row);
    PushKeeps(w, n);
    if n.outcome.Permanent? {
      ActSound(sent, Disable(row, fx.disable(target.device)));
      Disables(sent, row, fx.disable(target.device), target.device, todo[1..]);
      QuietKeeps(sent.history, Act(sent, Disable(row, fx.disable(target.device))).history);
    }
  }

  lemma Sends(w: World, row: int, n: Note)
    requires n.Push? && n.row == row && row in w.deliveries && w.deliveries[row].phase.Sending? && w.deliveries[row].phase.todo != []
    requires n.target == w.deliveries[row].phase.todo[0]
    ensures var w', rest := Act(w, Send(row, n.outcome, n.recorded)), w.deliveries[row].phase.todo[1..];
            && w'.db == w.db && w'.history == w.history + [n] && row in w'.deliveries
            && w'.deliveries[row].phase == if n.outcome.Permanent? then Disabling(n.target.device, rest) else Sending(rest)
  {
  }

  lemma LiveHead(w: World, todo: seq<Target>, row: int)
    requires Sound(w) && row in w.deliveries && w.deliveries[row].phase == Sending(todo) && todo != [] && Live(w.db, todo)
    ensures Unbarred(w) && Active(w.db, todo[0].token) && Live(w.db, todo[1..])
    ensures forall t | t in todo[1..] :: t.device != todo[0].device
  {
    hide OnlyStalePushes, Traced, OncePerRow, RowsUnique;
    assert todo[0] in todo;
    assert Ahead(w.history, row, w.deliveries[row]) && Todo(w.deliveries[row].phase) == todo;
    forall t | t in todo[1..] ensures t in todo && t.device != todo[0].device {
      var i :| 0 <= i < |todo| - 1 && todo[1..][i] == t;
      assert todo[i + 1] == t;
    }
  }

  lemma Disables(w: World, row: int, fate: Fate, device: int, rest: seq<Target>)
    requires row in w.deliveries && w.deliveries[row].phase == Disabling(device, rest) && Live(w.db, rest)
    requires forall t | t in rest :: t.device != device
    ensures var w' := Act(w, Disable(row, fate));
            && row in w'.deliveries && w'.deliveries[row].phase == Sending(rest) && Live(w'.db, rest)
            && w.history <= w'.history && forall j | |w.history| <= j < |w'.history| :: !w'.history[j].Push?
  {
  }

  lemma {:induction false} DispatchAllLive(w: World, row: int, targets: seq<Target>, k: nat, fx: Effects)
    requires Sound(w) && NoDeadPush(w.history) && k <= |targets|
    requires row in w.deliveries && w.deliveries[row].phase == Sending(targets) && Live(w.db, targets)
    ensures var w' := DispatchAll(w, row, targets[..k], fx);
            && Sound(w') && NoDeadPush(w'.history) && row in w'.deliveries
            && w'.deliveries[row].phase == Sending(targets[k..]) && Live(w'.db, targets[k..])
  {
    hide Sound, NoDeadPush, Live, DispatchOne;
    if k == 0 {
      assert targets[..0] == [] && targets[0..] == targets;
    } else {
      DispatchAllLive(w, row, targets, k - 1, fx);
      assert targets[..k][..k - 1] == targets[..k - 1] && targets[k - 1..][1..] == targets[k..];
      DispatchOneLive(DispatchAll(w, row, targets[..k - 1], fx), row, targets[k - 1], fx);
    }
  }

  /** A delivery that did not get a list pushes nothing. */
  lemma {:induction false} DispatchNothing(w: World, row: int, targets: seq<Target>, fx: Effects)
    requires row in w.deliveries && w.deliveries[row].phase.Enabled?
    ensures DispatchAll(w, row, targets, fx) == w
  {
    if targets != [] {
      DispatchNothing(w, row, targets[..|targets| - 1], fx);
    }
  }

  lemma QuietStep(w: World, a: Action)
    requires NoDeadPush(w.history) && !a.Send?
    ensures NoDeadPush(Act(w, a).history)
  {
    hide NoDeadPush, Lists, OwnRow, TokenFree, Preference;
    QuietKeeps(w.history, Act(w, a).history);
  }

  lemma ListsLive(w: World, row: int, targets: seq<Target>)
    requires row in w.deliveries && w.deliveries[row].phase.Enabled?
    ensures var w' := Act(w, ListDevices(row, targets, true));
            || w' == w
            || (row in w'.deliveries && w'.deliveries[row].phase == Sending(targets) && Live(w'.db, targets))
  {
  }

  lemma Asked(w: World, event: string, owner: Recipient, content: Content, fx: Effects)
    requires var r := InsertInbox(w.db, event, owner, fx.row, content, fx.insert).1; r.Ok? && r.value.Some?
    requires Preference(w.db, owner, content.category) && fx.preference
    ensures var w2 := Act(Act(w, Receive(event, owner, fx.row, content, fx.insert)), Ask(fx.row, fx.preference));
            fx.row in w2.deliveries && w2.deliveries[fx.row].phase.Enabled?
  {
  }

  lemma HandleLive(w: World, event: string, owner: Recipient, content: Content, targets: seq<Target>, fx: Effects)
    requires Sound(w) && NoDeadPush(w.history)
    ensures NoDeadPush(Handle(w, event, owner, content, targets, fx).0.history)
  {
    hide Sound, NoDeadPush, Act, InsertInbox, DispatchAll, Preference, Live;
    var w1 := Act(w, Receive(event, owner, fx.row, content, fx.insert));
    QuietStep(w, Receive(event, owner, fx.row, content, fx.insert));
    ActSound(w, Receive(event, owner, fx.row, content, fx.insert));
    var w2 := Act(w1, Ask(fx.row, fx.preference));
    QuietStep(w1, Ask(fx.row, fx.preference));
    ActSound(w1, Ask(fx.row, fx.preference));
    QuietStep(w2, Close(fx.row, fx.close));
    var w3 := Act(w2, ListDevices(fx.row, targets, fx.list));
    QuietStep(w2, ListDevices(fx.row, targets, fx.list));
    ActSound(w2, ListDevices(fx.row, targets, fx.list));
    var inserted := InsertInbox(w.db, event, owner, fx.row, content, fx.insert).1;
    if inserted.Ok? && inserted.value.Some? && fx.preference && fx.list && Preference(w.db, owner, content.category) {
      Asked(w, event, owner, content, fx);
      ListsLive(w2, fx.row, targets);
      if w3 == w2 {
        DispatchNothing(w3, fx.row, targets, fx);
      } else {
        DispatchAllLive(w3, fx.row, targets, |targets|, fx);
        assert targets[..|targets|] == targets;
      }
      QuietStep(DispatchAll(w3, fx.row, targets, fx), Close(fx.row, fx.close));
    }
  }

  /** One handler at a time, and device and preference requests in between. */
  datatype Job =
    | Message(event: string, owner: Recipient, content: Content, targets: seq<Target>, fx: Effects)
    | Request(action: Action)

  ghost function Done(w: World, job: Job): World {
    match job
    case Message(event, owner, content, targets, fx) => Handle(w, event, owner, content, targets, fx).0
    case Request(a) => if a.Register? || a.Revoke? || a.Prefer? then Act(w, a) else w
  }

  ghost function Worked(w: World, jobs: seq<Job>): World {
    if jobs == [] then w else Done(Worked(w, jobs[..|jobs| - 1]), jobs[|jobs| - 1])
  }

  lemma {:induction false} WorkedLive(w: World, jobs: seq<Job>)
    requires Initial(w)
    ensures Sound(Worked(w, jobs)) && NoDeadPush(Worked(w, jobs).history)
  {
    if jobs == [] {
      InitialIsSound(w);
    } else {
      hide Sound, Initial, Act, Handle, NoDeadPush;
      var before := Worked(w, jobs[..|jobs| - 1]);
      WorkedLive(w, jobs[..|jobs| - 1]);
      match jobs[|jobs| - 1]
      case Message(event, owner, content, targets, fx) =>
        HandleSound(before, event, owner, content, targets, fx);
        HandleLive(before, event, owner, content, targets, fx);
      case Request(a) =>
        ActSound(before, a);
        if !a.Send? {
          QuietStep(before, a);
        }
    }
  }

  /** When no handler is interrupted, a token that was switched off is never pushed to again until it is registered anew. */
  lemma DeadUntilRegistered(w: World, jobs: seq<Job>, i: nat, j: nat)
    requires Initial(w)
    requires var h := Worked(w, jobs).history; i < j < |h| && h[j].Push? && h[i] == Off(h[j].target.token)
    ensures var h := Worked(w, jobs).history; On(h[j].target.token) in h[i + 1..j]
  {
    hide Worked, Initial, Sound;
    WorkedLive(w, jobs);
    var h := Worked(w, jobs).history;
    assert !Barred(h[..j], h[j].target.token, i);
    assert h[..j][i + 1..] == h[i + 1..j];
  }
}
