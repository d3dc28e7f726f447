/** Notification fan-out: one inbox row per event and recipient, then one push per active device, with deliveries,
    registrations and revocations interleaved access by access. */
module Notification {
  import opened Common
  import Render
  import RenderOrder

  datatype Recipient = Recipient(kind: string, id: int)

  datatype Device = Device(owner: Recipient, deviceId: string, token: string, active: bool)

  datatype Content = Content(category: string, title: string, body: string, data: map<string, Render.Scalar>)
  datatype InboxRow = InboxRow(id: int, content: Content, sent: bool)

  /** The inbox is keyed by its conflict target; rows are its identifiers. */
  datatype Db = Db(
    inbox: map<(string, Recipient), InboxRow>,
    rows: set<int>,
    preferences: map<(Recipient, string), bool>,
    devices: map<int, Device>)

  datatype Target = Target(device: int, token: string)

  datatype Outcome = Delivered | Transient | Permanent

  /** What happened, in order; recorded says whether the attempt reached the delivery log. */
  datatype Note =
    | Listing(row: int)
    | Push(row: int, target: Target, outcome: Outcome, recorded: bool)
    | Off(token: string)
    | On(token: string)

  /** Where one delivery stands between two accesses. */
  datatype Phase =
    | Inserted
    | Enabled
    | Sending(todo: seq<Target>)
    | Disabling(device: int, todo: seq<Target>)
    | Over

  datatype Delivery = Delivery(event: string, owner: Recipient, category: string, phase: Phase)

  datatype World = World(db: Db, deliveries: map<int, Delivery>, history: seq<Note>)

  // ---- The repositories ----

  /** INSERT ... ON CONFLICT DO NOTHING: the new row's identifier, or None for a duplicate. */
  function InsertInbox(db: Db, event: string, owner: Recipient, row: int, content: Content, fate: Fate): (r: (Db, Result<Option<int>>))
  {
    if fate.Dropped? then (db, Err(Failure))
    else if (event, owner) in db.inbox then (db, if fate.Answered? then Ok(None) else Err(Failure))
    else if row in db.rows then (db, Err(Failure))
    else (db.(inbox := db.inbox[(event, owner) := InboxRow(row, content, false)], rows := db.rows + {row}),
          if fate.Answered? then Ok(Some(row)) else Err(Failure))
  }

  function Preference(db: Db, owner: Recipient, category: string): bool {
    if (owner, category) in db.preferences then db.preferences[(owner, category)] else true
  }

  /** The active devices of a recipient, each once, in some order. */
  ghost predicate Lists(db: Db, owner: Recipient, targets: seq<Target>) {
    && (forall i | 0 <= i < |targets| ::
          && targets[i].device in db.devices
          && db.devices[targets[i].device] == Device(owner, db.devices[targets[i].device].deviceId, targets[i].token, true))
    && (forall i, j | 0 <= i < j < |targets| :: targets[i].device != targets[j].device)
    && (forall d | d in db.devices && db.devices[d].owner == owner && db.devices[d].active ::
          Target(d, db.devices[d].token) in targets)
  }

  function Deactivate(db: Db, device: int): Db {
    if device in db.devices then db.(devices := db.devices[device := db.devices[device].(active := false)]) else db
  }

  function OffNote(db: Db, device: int): seq<Note> {
    if device in db.devices then [Off(db.devices[device].token)] else []
  }

  function MarkSent(db: Db, event: string, owner: Recipient): Db {
    if (event, owner) in db.inbox then db.(inbox := db.inbox[(event, owner) := db.inbox[(event, owner)].(sent := true)]) else db
  }

  predicate TokenFree(db: Db, token: string, device: int) {
    forall d | d in db.devices && db.devices[d].token == token :: d == device
  }

  /** The row an upsert writes: the recipient's row for this device, or a new one. */
  predicate OwnRow(db: Db, owner: Recipient, deviceId: string, row: int) {
    if exists d | d in db.devices :: db.devices[d].owner == owner && db.devices[d].deviceId == deviceId
    then row in db.devices && db.devices[row].owner == owner && db.devices[row].deviceId == deviceId
    else row !in db.devices
  }

  const PLATFORMS := {"ios", "android", "web"}

  // ---- Steps ----

  datatype Action =
    | Receive(event: string, owner: Recipient, row: int, content: Content, fate: Fate)
    | Ask(delivery: int, ok: bool)
    | ListDevices(delivery: int, targets: seq<Target>, ok: bool)
    | Send(delivery: int, outcome: Outcome, recorded: bool)
    | Disable(delivery: int, fate: Fate)
    | Close(delivery: int, fate: Fate)
    | Register(owner: Recipient, deviceId: string, token: string, platform: string, row: int, fate: Fate)
    | Revoke(owner: Recipient, deviceId: string, row: int, fate: Fate)
    | Prefer(owner: Recipient, category: string, enabled: bool)

  function Moved(w: World, row: int, phase: Phase): map<int, Delivery>
    requires row in w.deliveries
  {
    w.deliveries[row := w.deliveries[row].(phase := phase)]
  }

  /** One access. Steps that do not fit the state change nothing. */
  ghost function Act(w: World, a: Action): World {
    match a
    case Receive(event, owner, row, content, fate) =>
      var (db, r) := InsertInbox(w.db, event, owner, row, content, fate);
      World(db,
            if r.Ok? && r.value.Some? then w.deliveries[row := Delivery(event, owner, content.category, Inserted)] else w.deliveries,
            w.history)
    case Ask(d, ok) =>
      if d !in w.deliveries || !w.deliveries[d].phase.Inserted? then w
      else
        w.(deliveries := Moved(w, d,
             if !ok then Over
             else if Preference(w.db, w.deliveries[d].owner, w.deliveries[d].category) then Enabled
             else Sending([])))
    case ListDevices(d, targets, ok) =>
      if d !in w.deliveries || !w.deliveries[d].phase.Enabled? then w
      else if !ok then w.(deliveries := Moved(w, d, Over))
      else if !Lists(w.db, w.deliveries[d].owner, targets) then w
      else w.(deliveries := Moved(w, d, Sending(targets)), history := w.history + [Listing(d)])
    case Send(d, outcome, recorded) =>
      if d !in w.deliveries || !w.deliveries[d].phase.Sending? || w.deliveries[d].phase.todo == [] then w
      else
        var target, rest := w.deliveries[d].phase.todo[0], w.deliveries[d].phase.todo[1..];
        w.(deliveries := Moved(w, d, if outcome.Permanent? then Disabling(target.device, rest) else Sending(rest)),
           history := w.history + [Push(d, target, outcome, recorded)])
    case Disable(d, fate) =>
      if d !in w.deliveries || !w.deliveries[d].phase.Disabling? then w
      else
        var device := w.deliveries[d].phase.device;
        World(if fate.Dropped? then w.db else Deactivate(w.db, device),
              Moved(w, d, Sending(w.deliveries[d].phase.todo)),
              w.history + if fate.Dropped? then [] else OffNote(w.db, device))
    case Close(d, fate) =>
      if d !in w.deliveries || !w.deliveries[d].phase.Sending? || w.deliveries[d].phase.todo != [] then w
      else
        World(if fate.Dropped? then w.db else MarkSent(w.db, w.deliveries[d].event, w.deliveries[d].owner),
              Moved(w, d, Over), w.history)
    case Register(owner, deviceId, token, platform, row, fate) =>
      if deviceId == "" || token == "" || platform !in PLATFORMS || fate.Dropped? then w
      else if !OwnRow(w.db, owner, deviceId, row) || !TokenFree(w.db, token, row) then w
      else w.(db := w.db.(devices := w.db.devices[row := Device(owner, deviceId, token, true)]), history := w.history + [On(token)])
    case Revoke(owner, deviceId, row, fate) =>
      if deviceId == "" || fate.Dropped? || row !in w.db.devices then w
      else if w.db.devices[row].owner != owner || w.db.devices[row].deviceId != deviceId then w
      else w.(db := Deactivate(w.db, row), history := w.history + OffNote(w.db, row))
    case Prefer(owner, category, enabled) => w.(db := w.db.(preferences := w.db.preferences[(owner, category) := enabled]))
  }

  ghost function Run(w: World, acts: seq<Action>): World {
    if acts == [] then w else Act(Run(w, acts[..|acts| - 1]), acts[|acts| - 1])
  }

  ghost predicate Initial(w: World) {
    w.deliveries == map[] && w.history == [] && w.db.inbox == map[] && w.db.rows == {} && TokensUnique(w.db)
  }

  // ---- Invariants ----

  /** device_tokens.token is UNIQUE. */
  ghost predicate TokensUnique(db: Db) {
    forall c, d | c in db.devices && d in db.devices && db.devices[c].token == db.devices[d].token :: c == d
  }

  /** Inbox rows have distinct identifiers. */
  ghost predicate RowsUnique(db: Db) {
    && (forall k | k in db.inbox :: db.inbox[k].id in db.rows)
    && (forall k, l | k in db.inbox && l in db.inbox && db.inbox[k].id == db.inbox[l].id :: k == l)
  }

  function Todo(p: Phase): seq<Target> {
    match p
    case Sending(todo) => todo
    case Disabling(_, todo) => todo
    case _ => []
  }

  ghost predicate Distinct(targets: seq<Target>) {
    forall i, j | 0 <= i < j < |targets| :: targets[i].device != targets[j].device && targets[i].token != targets[j].token
  }

  /** What a delivery still has to do it has not done: no device or token left was pushed for its row, and before
      the devices are listed nothing was. */
  ghost predicate Ahead(history: seq<Note>, row: int, d: Delivery) {
    && Distinct(Todo(d.phase))
    && (forall i | 0 <= i < |history| && history[i].Push? && history[i].row == row ::
          && !d.phase.Inserted? && !d.phase.Enabled?
          && (forall t | t in Todo(d.phase) :: t.device != history[i].target.device && t.token != history[i].target.token))
  }

  ghost predicate OncePerRow(history: seq<Note>) {
    forall i, j | 0 <= i < j < |history| && history[i].Push? && history[j].Push? && history[i].row == history[j].row ::
      history[i].target.device != history[j].target.device && history[i].target.token != history[j].target.token
  }

  ghost predicate Careful(w: World) {
    && TokensUnique(w.db)
    && RowsUnique(w.db)
    && w.deliveries.Keys <= w.db.rows
    && (forall i | 0 <= i < |w.history| && w.history[i].Push? :: w.history[i].row in w.deliveries)
    && (forall row | row in w.deliveries :: Ahead(w.history, row, w.deliveries[row]))
    && OncePerRow(w.history)
  }

  /** The token was switched off at i and not registered since. */
  ghost predicate Barred(history: seq<Note>, token: string, i: nat) {
    i < |history| && history[i] == Off(token) && On(token) !in history[i + 1..]
  }

  ghost predicate ListedBefore(history: seq<Note>, row: int, i: nat) {
    i <= |history| && Listing(row) in history[..i]
  }

  /** Every push to a token that had been switched off, and not registered since, is by a delivery that had listed
      the devices before that. */
  ghost predicate OnlyStalePushes(history: seq<Note>) {
    forall i: nat, j: nat | i < j < |history| && history[j].Push? && Barred(history[..j], history[j].target.token, i) ::
      ListedBefore(history, history[j].row, i)
  }

  lemma AheadStays(history: seq<Note>, notes: seq<Note>, row: int, d: Delivery)
    requires Ahead(history, row, d) && forall n | n in notes :: n.Push? ==> n.row != row
    ensures Ahead(history + notes, row, d)
  {
  }

  /** Steps that push nothing: the database may change, notes may be added, and deliveries may move on. */
  lemma QuietStep(w: World, db: Db, deliveries: map<int, Delivery>, notes: seq<Note>)
    requires Careful(w) && TokensUnique(db) && RowsUnique(db) && w.db.rows <= db.rows
    requires forall n | n in notes :: !n.Push?
    requires deliveries.Keys <= db.rows && w.deliveries.Keys <= deliveries.Keys
    requires forall row | row in deliveries :: Ahead(w.history, row, deliveries[row])
    ensures Careful(World(db, deliveries, w.history + notes))
  {
  }

  lemma ListedAreDistinct(db: Db, owner: Recipient, targets: seq<Target>)
    requires TokensUnique(db) && Lists(db, owner, targets)
    ensures Distinct(targets)
  {
  }

  lemma ReceiveCareful(w: World, event: string, owner: Recipient, row: int, content: Content, fate: Fate)
    requires Careful(w)
    ensures Careful(Act(w, Receive(event, owner, row, content, fate)))
  {
  }

  /** The steps of one delivery that push nothing. */
  lemma MoveCareful(w: World, a: Action)
    requires Careful(w) && (a.Ask? || a.ListDevices? || a.Disable? || a.Close?)
    ensures Careful(Act(w, a))
  {
    hide Lists, OncePerRow, Preference, Distinct;
    var w', d := Act(w, a), a.delivery;
    var notes := if |w'.history| == |w.history| then [] else [w'.history[|w.history|]];
    assert w.history + notes == w'.history;
    if d in w.deliveries {
      assert Ahead(w.history, d, w.deliveries[d]);
      if a.ListDevices? && Lists(w.db, w.deliveries[d].owner, a.targets) {
        ListedAreDistinct(w.db, w.deliveries[d].owner, a.targets);
      }
      assert Distinct([]) by { EmptyIsDistinct(); }
      assert Ahead(w.history, d, w'.deliveries[d]);
    }
    QuietStep(w, w'.db, w'.deliveries, notes);
  }

  lemma EmptyIsDistinct()
    ensures Distinct([])
  {
  }

  lemma DeviceCareful(w: World, a: Action)
    requires Careful(w) && (a.Register? || a.Revoke? || a.Prefer?)
    ensures Careful(Act(w, a))
  {
    hide OwnRow, OncePerRow, Ahead;
    var w' := Act(w, a);
    var notes := if |w'.history| == |w.history| then [] else [w'.history[|w.history|]];
    assert w.history + notes == w'.history;
    QuietStep(w, w'.db, w'.deliveries, notes);
  }

  /** A push to a device and token that the row has not had yet. */
  lemma PushOnce(h: seq<Note>, n: Note)
    requires OncePerRow(h) && n.Push?
    requires forall i | 0 <= i < |h| && h[i].Push? && h[i].row == n.row ::
               h[i].target.device != n.target.device && h[i].target.token != n.target.token
    ensures OncePerRow(h + [n])
  {
  }

  /** The delivery that pushed to its first target is done with it. */
  lemma PushAhead(h: seq<Note>, n: Note, d: Delivery, phase: Phase)
    requires n.Push? && Ahead(h, n.row, d) && d.phase.Sending? && d.phase.todo != [] && n.target == d.phase.todo[0]
    requires !phase.Inserted? && !phase.Enabled? && Todo(phase) == d.phase.todo[1..]
    ensures Ahead(h + [n], n.row, d.(phase := phase))
  {
  }

  lemma SendCareful(w: World, row: int, outcome: Outcome, recorded: bool)
    requires Careful(w)
    ensures Careful(Act(w, Send(row, outcome, recorded)))
  {
    hide OncePerRow, Distinct;
    if row in w.deliveries && w.deliveries[row].phase.Sending? && w.deliveries[row].phase.todo != [] {
      var todo := w.deliveries[row].phase.todo;
      var n := Push(row, todo[0], outcome, recorded);
      var w' := Act(w, Send(row, outcome, recorded));
      assert Ahead(w.history, row, w.deliveries[row]) && todo[0] in Todo(w.deliveries[row].phase);
      PushOnce(w.history, n);
      PushAhead(w.history, n, w.deliveries[row], w'.deliveries[row].phase);
      forall r | r in w'.deliveries && r != row ensures Ahead(w'.history, r, w'.deliveries[r]) {
        AheadStays(w.history, [n], r, w.deliveries[r]);
      }
    }
  }

  lemma ActCareful(w: World, a: Action)
    requires Careful(w)
    ensures Careful(Act(w, a))
  {
    hide Careful, Act;
    match a
    case Receive(event, owner, row, content, fate) => ReceiveCareful(w, event, owner, row, content, fate);
    case Send(row, outcome, recorded) => SendCareful(w, row, outcome, recorded);
    case Register(_, _, _, _, _, _) => DeviceCareful(w, a);
    case Revoke(_, _, _, _) => DeviceCareful(w, a);
    case Prefer(_, _, _) => DeviceCareful(w, a);
    case _ => MoveCareful(w, a);
  }

  // ---- Tokens switched off ----

  lemma BarredAppend(h: seq<Note>, n: Note, token: string, i: nat)
    requires Barred(h + [n], token, i)
    ensures n != On(token)
    ensures if i == |h| then n == Off(token) else Barred(h, token, i)
  {
    var h' := h + [n];
    if i < |h| {
      assert h'[i + 1..] == h[i + 1..] + [n];
      assert n in h'[i + 1..];
    }
  }

  lemma ListedAppend(h: seq<Note>, n: Note, row: int, i: nat)
    requires ListedBefore(h, row, i)
    ensures ListedBefore(h + [n], row, i) && ListedBefore(h + [n], row, |h| + 1)
  {
    assert (h + [n])[..i] == h[..i];
    assert (h + [n])[..|h| + 1] == h + [n];
    var k :| 0 <= k < i && h[..i][k] == Listing(row);
    assert (h + [n])[k] == Listing(row);
  }

  ghost predicate Active(db: Db, token: string) {
    exists d | d in db.devices :: db.devices[d].active && db.devices[d].token == token
  }

  ghost predicate Holds(w: World, row: int, t: Target) {
    row in w.deliveries && t in Todo(w.deliveries[row].phase)
  }

  ghost predicate Unbarred(w: World) {
    forall i: nat, token | Active(w.db, token) :: !Barred(w.history, token, i)
  }

  ghost predicate HoldersListed(w: World) {
    forall row, t | Holds(w, row, t) :: ListedBefore(w.history, row, |w.history|)
  }

  ghost predicate HoldersStale(w: World) {
    forall i: nat, row, t | Holds(w, row, t) && Barred(w.history, t.token, i) :: ListedBefore(w.history, row, i)
  }

  /** A barred token is on no active device, and only deliveries that listed it earlier still hold it. */
  ghost predicate Fenced(w: World) {
    Unbarred(w) && HoldersListed(w) && HoldersStale(w)
  }

  /** A step without a note: no token becomes active and no delivery takes on a device. */
  lemma FenceSame(w: World, w': World)
    requires Fenced(w) && w'.history == w.history
    requires forall token | Active(w'.db, token) :: Active(w.db, token)
    requires forall row, t | Holds(w', row, t) :: Holds(w, row, t)
    ensures Fenced(w')
  {
  }

  /** A step with a note: tokens become active only by registration, and devices are taken on only when listed. */
  lemma FenceNote(w: World, w': World, n: Note)
    requires Fenced(w) && w'.history == w.history + [n]
    requires forall token | Active(w'.db, token) :: n == On(token) || (n != Off(token) && Active(w.db, token))
    requires forall row, t | Holds(w', row, t) :: Holds(w, row, t) || (n == Listing(row) && Active(w.db, t.token))
    ensures Fenced(w')
  {
    hide Barred, ListedBefore, Active, Holds;
    var h := w.history;
    forall i: nat, token | Active(w'.db, token) ensures !Barred(w'.history, token, i) {
      if Barred(w'.history, token, i) {
        BarredAppend(h, n, token, i);
      }
    }
    forall row, t | Holds(w', row, t) ensures ListedBefore(w'.history, row, |w'.history|)
      ensures forall i: nat | Barred(w'.history, t.token, i) :: ListedBefore(w'.history, row, i)
    {
      ListingLists(h, n, row);
      if Holds(w, row, t) {
        ListedAppend(h, n, row, |h|);
      }
      forall i: nat | Barred(w'.history, t.token, i) ensures ListedBefore(w'.history, row, i) {
        BarredAppend(h, n, t.token, i);
        if Holds(w, row, t) {
          ListedAppend(h, n, row, if i == |h| then |h| else i);
        }
      }
    }
  }

  lemma ListingLists(h: seq<Note>, n: Note, row: int)
    ensures n == Listing(row) ==> ListedBefore(h + [n], row, |h + [n]|)
  {
    assert (h + [n])[..|h| + 1] == h + [n];
    assert n in h + [n];
  }

  lemma OffNotesFence(w: World, device: int, deliveries: map<int, Delivery>)
    requires Fenced(w) && TokensUnique(w.db)
    requires forall row, t | Holds(w.(deliveries := deliveries), row, t) :: Holds(w, row, t)
    ensures Fenced(World(Deactivate(w.db, device), deliveries, w.history + OffNote(w.db, device)))
  {
    var w' := World(Deactivate(w.db, device), deliveries, w.history + OffNote(w.db, device));
    if device in w.db.devices {
      var off := w.db.devices[device].token;
      forall token | Active(w'.db, token) ensures token != off && Active(w.db, token) {
      }
      forall row, t | Holds(w', row, t) ensures Holds(w, row, t) {
        assert Holds(w.(deliveries := deliveries), row, t);
      }
      FenceNote(w, w', Off(off));
    } else {
      assert w'.history == w.history;
      forall row, t | Holds(w', row, t) ensures Holds(w, row, t) {
        assert Holds(w.(deliveries := deliveries), row, t);
      }
      FenceSame(w, w');
    }
  }

  lemma ActFenced(w: World, a: Action)
    requires Fenced(w) && TokensUnique(w.db)
    ensures Fenced(Act(w, a))
  {
    hide Fenced, OwnRow, TokenFree, Preference, Lists;
    var w' := Act(w, a);
    match a
    case Receive(_, _, _, _, _) => FenceSame(w, w');
    case Ask(_, _) => FenceSame(w, w');
    case Close(_, _) => FenceSame(w, w');
    case Prefer(_, _, _) => FenceSame(w, w');
    case ListDevices(d, targets, ok) =>
      if w'.history == w.history {
        FenceSame(w, w');
      } else {
        ListedAreActive(w.db, w.deliveries[d].owner, targets);
        FenceNote(w, w', Listing(d));
      }
    case Send(d, outcome, recorded) =>
      if w' != w {
        FenceNote(w, w', Push(d, w.deliveries[d].phase.todo[0], outcome, recorded));
      }
    case Disable(d, fate) =>
      if w' != w {
        if fate.Dropped? {
          assert w'.history == w.history;
          FenceSame(w, w');
        } else {
          OffNotesFence(w, w.deliveries[d].phase.device, w'.deliveries);
        }
      }
    case Revoke(_, _, row, _) =>
      if w' != w {
        OffNotesFence(w, row, w.deliveries);
      }
    case Register(_, _, token, _, row, _) =>
      if w'.history != w.history {
        FenceNote(w, w', On(token));
      }
  }

  lemma ListedAreActive(db: Db, owner: Recipient, targets: seq<Target>)
    requires Lists(db, owner, targets)
    ensures forall t | t in targets :: Active(db, t.token)
  {
  }

  /** One more push is by a delivery that held the token. */
  lemma ActStale(w: World, a: Action)
    requires Fenced(w) && OnlyStalePushes(w.history)
    ensures OnlyStalePushes(Act(w, a).history)
  {
    hide Lists, OwnRow, TokenFree, Barred;
    var h, h' := w.history, Act(w, a).history;
    assert |h'| <= |h| + 1 && h'[..|h|] == h;
    if |h'| == |h| + 1 {
      var n := h'[|h|];
      assert h' == h + [n];
      forall i: nat, j: nat | i < j < |h'| && h'[j].Push? && Barred(h'[..j], h'[j].target.token, i)
        ensures ListedBefore(h', h'[j].row, i)
      {
        assert h'[..j] == h[..j];
        if j < |h| {
          assert h[j] == h'[j];
          assert ListedBefore(h, h[j].row, i);
        } else {
          assert h[..j] == h;
          assert Holds(w, n.row, n.target);
        }
        assert h'[..i] == h[..i];
      }
    } else {
      assert h' == h'[..|h|];
    }
  }

  // ---- One delivery per event and recipient ----

  ghost predicate Traced(w: World) {
    forall row | row in w.deliveries ::
      var d := w.deliveries[row];
      (d.event, d.owner) in w.db.inbox && w.db.inbox[(d.event, d.owner)].id == row
  }

  lemma ActTraced(w: World, a: Action)
    requires Traced(w)
    ensures Traced(Act(w, a))
  {
  }

  ghost predicate Sound(w: World) {
    Careful(w) && Fenced(w) && Traced(w) && OnlyStalePushes(w.history)
  }

  lemma ActSound(w: World, a: Action)
    requires Sound(w)
    ensures Sound(Act(w, a))
  {
    hide Fenced, Traced, OnlyStalePushes, Act, OncePerRow, RowsUnique, Ahead;
    ActCareful(w, a);
    ActFenced(w, a);
    ActStale(w, a);
    ActTraced(w, a);
  }

  lemma InitialIsSound(w: World)
    requires Initial(w)
    ensures Sound(w)
  {
  }

  lemma {:induction false} RunSound(w: World, acts: seq<Action>)
    requires Initial(w)
    ensures Sound(Run(w, acts))
  {
    if acts == [] {
      InitialIsSound(w);
    } else {
      hide Sound, Act, Initial;
      RunSound(w, acts[..|acts| - 1]);
      ActSound(Run(w, acts[..|acts| - 1]), acts[|acts| - 1]);
    }
  }

  /** However often an event is delivered, one recipient gets one inbox row for it and one delivery, and that
      delivery pushes to each device, and to each token, at most once. */
  lemma FannedOutOnce(w: World, acts: seq<Action>, a: int, b: int)
    requires Initial(w)
    requires var end := Run(w, acts);
             a in end.deliveries && b in end.deliveries
             && end.deliveries[a].event == end.deliveries[b].event && end.deliveries[a].owner == end.deliveries[b].owner
    ensures a == b && OncePerRow(Run(w, acts).history) && RowsUnique(Run(w, acts).db)
  {
    hide Run, Initial, OncePerRow, Fenced, OnlyStalePushes;
    RunSound(w, acts);
  }

  /** A redelivered event changes nothing: neither the inbox nor any delivery. */
  lemma DuplicateIsIgnored(w: World, event: string, owner: Recipient, row: int, content: Content, fate: Fate)
    requires (event, owner) in w.db.inbox
    ensures Act(w, Receive(event, owner, row, content, fate)) == w
  {
  }

  lemma StaleOrRenewed(h: seq<Note>, i: nat, j: nat)
    requires OnlyStalePushes(h) && i < j < |h| && h[j].Push? && h[i] == Off(h[j].target.token)
    ensures Listing(h[j].row) in h[..i] || On(h[j].target.token) in h[i + 1..j]
  {
    assert h[..j][i + 1..] == h[i + 1..j];
    assert Barred(h[..j], h[j].target.token, i) || On(h[j].target.token) in h[i + 1..j];
  }

  /** A push to a token that was switched off earlier: either its delivery had listed the devices before that, or
      the token was registered anew in between. */
  lemma DeadTokenStaysSilent(w: World, acts: seq<Action>, i: nat, j: nat)
    requires Initial(w)
    requires var h := Run(w, acts).history; i < j < |h| && h[j].Push? && h[i] == Off(h[j].target.token)
    ensures var h := Run(w, acts).history; Listing(h[j].row) in h[..i] || On(h[j].target.token) in h[i + 1..j]
  {
    hide Run, Initial, OnlyStalePushes, Careful, Fenced, Traced;
    RunSound(w, acts);
    StaleOrRenewed(Run(w, acts).history, i, j);
  }

  // ---- An uninterrupted delivery ----

  /** What the outside world does to one delivery. */
  datatype Effects = Effects(
    insert: Fate, row: int, preference: bool, list: bool,
    outcome: int -> Outcome, disable: int -> Fate, recorded: int -> bool,
    close: Fate)

  ghost function DispatchOne(w: World, row: int, target: Target, fx: Effects): World {
    var sent := Act(w, Send(row, fx.outcome(target.device), fx.recorded(target.device)));
    if fx.outcome(target.device).Permanent? then Act(sent, Disable(row, fx.disable(target.device))) else sent
  }

  ghost function DispatchAll(w: World, row: int, targets: seq<Target>, fx: Effects): World {
    if targets == [] then w
    else DispatchOne(DispatchAll(w, row, targets[..|targets| - 1], fx), row, targets[|targets| - 1], fx)
  }

  function ErrorOf(fate: Fate): Option<Error> {
    if fate.Answered? then None else Some(Failure)
  }

  /** The handler, step by step; targets is the order in which the devices came back. */
  ghost function Handle(w: World, event: string, owner: Recipient, content: Content, targets: seq<Target>, fx: Effects)
    : (World, Option<Error>)
  {
    var inserted := InsertInbox(w.db, event, owner, fx.row, content, fx.insert).1;
    var w1 := Act(w, Receive(event, owner, fx.row, content, fx.insert));
    if inserted.Err? then (w1, Some(Failure))
    else if inserted.value.None? then (w1, None)
    else
      var w2 := Act(w1, Ask(fx.row, fx.preference));
      if !fx.preference then (w2, Some(Failure))
      else if !Preference(w.db, owner, content.category) then (Act(w2, Close(fx.row, fx.close)), ErrorOf(fx.close))
      else
        var w3 := Act(w2, ListDevices(fx.row, targets, fx.list));
        if !fx.list then (w3, Some(Failure))
        else (Act(DispatchAll(w3, fx.row, targets, fx), Close(fx.row, fx.close)), ErrorOf(fx.close))
  }

  lemma {:induction false} DispatchSound(w: World, row: int, targets: seq<Target>, fx: Effects)
    requires Sound(w)
    ensures Sound(DispatchAll(w, row, targets, fx))
  {
    hide Sound, Act;
    if targets != [] {
      var t := targets[|targets| - 1];
      var init := DispatchAll(w, row, targets[..|targets| - 1], fx);
      var send := Send(row, fx.outcome(t.device), fx.recorded(t.device));
      DispatchSound(w, row, targets[..|targets| - 1], fx);
      ActSound(init, send);
      ActSound(Act(init, send), Disable(row, fx.disable(t.device)));
    }
  }

  /** The handler is made of steps, so it keeps what they keep. */
  lemma HandleSound(w: World, event: string, owner: Recipient, content: Content, targets: seq<Target>, fx: Effects)
    requires Sound(w)
    ensures Sound(Handle(w, event, owner, content, targets, fx).0)
  {
    hide Sound, Act, InsertInbox, DispatchAll;
    var w1 := Act(w, Receive(event, owner, fx.row, content, fx.insert));
    ActSound(w, Receive(event, owner, fx.row, content, fx.insert));
    var w2 := Act(w1, Ask(fx.row, fx.preference));
    ActSound(w1, Ask(fx.row, fx.preference));
    ActSound(w2, Close(fx.row, fx.close));
    var w3 := Act(w2, ListDevices(fx.row, targets, fx.list));
    ActSound(w2, ListDevices(fx.row, targets, fx.list));
    DispatchSound(w3, fx.row, targets, fx);
    ActSound(DispatchAll(w3, fx.row, targets, fx), Close(fx.row, fx.close));
  }

  /** The order in which the payload is walked cannot show in a message. */
  ghost predicate Orderless(payload: map<string, Render.Scalar>) {
    var values := Render.Formatted(payload);
    RenderOrder.BracelessKeys(values) && !RenderOrder.Exposed(values, Render.PRIVATE_KEYS)
  }

  /** The content of an event's notification: its category, the payload without private keys, and, unless the order of the
      payload can show, the templates with every placeholder replaced at once. */
  ghost predicate Composed(eventType: string, payload: map<string, Render.Scalar>, content: Content) {
    && Render.EventOf(eventType).Some?
    && var copy := Render.TemplateFor(Render.EventOf(eventType).value);
    && content.category == copy.category
    && content.data == (map k | k in payload && k !in Render.PRIVATE_KEYS :: payload[k])
    && (Orderless(payload) ==>
          content.title == Render.Flatten(Render.Simultaneous(copy.title, Render.Formatted(payload)))
          && content.body == Render.Flatten(Render.Simultaneous(copy.body, Render.Formatted(payload))))
  }

  class NotificationUsecase {
    var inbox: map<(string, Recipient), InboxRow>
    var rows: set<int>
    var preferences: map<(Recipient, string), bool>
    var devices: map<int, Device>
    ghost var deliveries: map<int, Delivery>
    ghost var history: seq<Note>

    function Tables(): Db
      reads this
    {
      Db(inbox, rows, preferences, devices)
    }

    ghost function State(): World
      reads this
    {
      World(Tables(), deliveries, history)
    }

    constructor (db: Db)
      ensures State() == World(db, map[], [])
    {
      inbox, rows, preferences, devices := db.inbox, db.rows, db.preferences, db.devices;
      deliveries, history := map[], [];
    }

    method Insert(event: string, owner: Recipient, row: int, content: Content, fate: Fate) returns (r: Result<Option<int>>)
      modifies this`inbox, this`rows, this`deliveries
      ensures State() == Act(old(State()), Receive(event, owner, row, content, fate))
      ensures r == InsertInbox(old(Tables()), event, owner, row, content, fate).1
      ensures r.Ok? && r.value.Some? ==>
        r.value.value == row && row in deliveries && deliveries[row] == Delivery(event, owner, content.category, Inserted)
    {
      if fate.Dropped? {
        return Err(Failure);
      }
      if (event, owner) in inbox {
        return if fate.Answered? then Ok(None) else Err(Failure);
      }
      if row in rows {
        return Err(Failure);
      }
      inbox := inbox[(event, owner) := InboxRow(row, content, false)];
      rows := rows + {row};
      if !fate.Answered? {
        return Err(Failure);
      }
      deliveries := deliveries[row := Delivery(event, owner, content.category, Inserted)];
      return Ok(Some(row));
    }

    /** The active devices of the recipient, in whatever order the database returns them. */
    method ListActive(owner: Recipient) returns (targets: seq<Target>)
      ensures Lists(Tables(), owner, targets)
    {
      targets := [];
      var left := devices.Keys;
      while left != {}
        invariant left <= devices.Keys
        invariant forall i | 0 <= i < |targets| ::
          && targets[i].device in devices && targets[i].device !in left
          && devices[targets[i].device] == Device(owner, devices[targets[i].device].deviceId, targets[i].token, true)
        invariant forall i, j | 0 <= i < j < |targets| :: targets[i].device != targets[j].device
        invariant forall d | d in devices && d !in left && devices[d].owner == owner && devices[d].active ::
          Target(d, devices[d].token) in targets
        decreases |left|
      {
        SomeMember(left);
        var d :| d in left;
        left := left - {d};
        if devices[d].owner == owner && devices[d].active {
          targets := targets + [Target(d, devices[d].token)];
        }
      }
    }

    method SetSent(event: string, owner: Recipient, ghost row: int, fate: Fate) returns (err: Option<Error>)
      requires row in deliveries && deliveries[row].event == event && deliveries[row].owner == owner
      requires deliveries[row].phase == Sending([])
      modifies this`inbox, this`deliveries
      ensures State() == Act(old(State()), Close(row, fate))
      ensures err == ErrorOf(fate)
    {
      if !fate.Dropped? && (event, owner) in inbox {
        inbox := inbox[(event, owner) := inbox[(event, owner)].(sent := true)];
      }
      deliveries := deliveries[row := deliveries[row].(phase := Over)];
      err := if fate.Answered? then None else Some(Failure);
    }

    /** One push, recorded in the delivery log; a token that is dead for good is deactivated first. */
    method Dispatch(row: int, target: Target, fx: Effects)
      requires row in deliveries && deliveries[row].phase.Sending? && deliveries[row].phase.todo != []
      requires deliveries[row].phase.todo[0] == target
      modifies this`devices, this`deliveries, this`history
      ensures State() == DispatchOne(old(State()), row, target, fx)
      ensures row in deliveries && deliveries[row] == old(deliveries)[row].(phase := Sending(old(deliveries)[row].phase.todo[1..]))
    {
      var outcome := fx.outcome(target.device);
      history := history + [Push(row, target, outcome, fx.recorded(target.device))];
      ghost var rest := deliveries[row].phase.todo[1..];
      if outcome.Permanent? {
        deliveries := deliveries[row := deliveries[row].(phase := Disabling(target.device, rest))];
        if !fx.disable(target.device).Dropped? && target.device in devices {
          history := history + [Off(devices[target.device].token)];
          devices := devices[target.device := devices[target.device].(active := false)];
        }
      }
      deliveries := deliveries[row := deliveries[row].(phase := Sending(rest))];
    }

    method Compose(eventType: string, payload: map<string, Render.Scalar>) returns (content: Option<Content>)
      ensures content.None? <==> Render.EventOf(eventType).None?
      ensures content.Some? ==> Composed(eventType, payload, content.value)
    {
      hide Render.TemplateFor, Render.Flatten, Render.Simultaneous, Render.FmtAny, RenderOrder.Exposed;
      var event := Render.EventOf(eventType);
      if event.None? {
        return None;
      }
      var copy := Render.TemplateFor(event.value);
      var title := Render.Render(Render.Flatten(copy.title), payload);
      var body := Render.Render(Render.Flatten(copy.body), payload);
      if Orderless(payload) {
        RenderOrder.CopyUnexposed(event.value, payload, title);
        RenderOrder.CopyUnexposed(event.value, payload, body);
      }
      var data := Render.DataFor(payload);
      return Some(Content(copy.category, title, body, data));
    }

    /** One push per device, in the order listed. */
    method DispatchTokens(row: int, tokens: seq<Target>, fx: Effects)
      requires row in deliveries && deliveries[row].phase == Sending(tokens)
      modifies this`devices, this`deliveries, this`history
      ensures State() == DispatchAll(old(State()), row, tokens, fx)
      ensures row in deliveries && deliveries[row] == old(deliveries)[row].(phase := Sending([]))
    {
      hide DispatchOne;
      ghost var listed := State();
      for i := 0 to |tokens|
        invariant row in deliveries && deliveries[row] == listed.deliveries[row].(phase := Sending(tokens[i..]))
        invariant State() == DispatchAll(listed, row, tokens[..i], fx)
      {
        assert tokens[..i + 1][..i] == tokens[..i];
        Dispatch(row, tokens[i], fx);
      }
      assert tokens[..|tokens|] == tokens;
    }

    /** The handler from the inbox insert on. */
    method Deliver(event: string, owner: Recipient, content: Content, fx: Effects) returns (err: Option<Error>, ghost targets: seq<Target>)
      modifies this
      ensures (State(), err) == Handle(old(State()), event, owner, content, targets, fx)
    {
      hide Lists, DispatchAll, InsertInbox;
      targets := [];
      var inserted := Insert(event, owner, fx.row, content, fx.insert);
      if inserted.Err? {
        return Some(Failure), targets;
      }
      if inserted.value.None? {
        return None, targets;
      }
      var row := inserted.value.value;
      if !fx.preference {
        deliveries := deliveries[row := deliveries[row].(phase := Over)];
        return Some(Failure), targets;
      }
      if (owner, content.category) in preferences && !preferences[(owner, content.category)] {
        deliveries := deliveries[row := deliveries[row].(phase := Sending([]))];
        err := SetSent(event, owner, row, fx.close);
        return;
      }
      deliveries := deliveries[row := deliveries[row].(phase := Enabled)];
      if !fx.list {
        deliveries := deliveries[row := deliveries[row].(phase := Over)];
        return Some(Failure), targets;
      }
      var tokens := ListActive(owner);
      targets := tokens;
      ghost var enabled := State();
      deliveries := deliveries[row := deliveries[row].(phase := Sending(tokens))];
      history := history + [Listing(row)];
      assert State() == Act(enabled, ListDevices(row, targets, true));
      DispatchTokens(row, tokens, fx);
      err := SetSent(event, owner, row, fx.close);
    }

    /** One message: an event without a template is skipped, and a recipient that is no identifier refused. */
    method HandleEvent(event: string, eventType: string, owner: Option<Recipient>, payload: map<string, Render.Scalar>, fx: Effects)
      returns (err: Option<Error>, ghost content: Option<Content>, ghost targets: seq<Target>)
      modifies this
      ensures owner.None? ==> State() == old(State()) && err == Some(InvalidInput)
      ensures owner.Some? ==> (content.None? <==> Render.EventOf(eventType).None?)
      ensures content.Some? ==> Composed(eventType, payload, content.value)
      ensures owner.Some? && content.None? ==> State() == old(State()) && err == None
      ensures owner.Some? && content.Some? ==> (State(), err) == Handle(old(State()), event, owner.value, content.value, targets, fx)
    {
      hide Handle, Composed, Render.EventOf, Render.TemplateFor;
      targets, content := [], None;
      if owner.None? {
        return Some(InvalidInput), content, targets;
      }
      var composed := Compose(eventType, payload);
      content := composed;
      if composed.None? {
        return None, content, targets;
      }
      err, targets := Deliver(event, owner.value, composed.value, fx);
    }
  }
}
