/** Client sessions of the gateway, the player index over them and the players' epochs. */
module SessionSpec {
  import opened Common

  const SCENE_SERVICE: nat := 8
  const LAST_EPOCH: nat := 0xFFFF_FFFF

  /** Where a session's scene traffic goes; scene 0 means not assigned yet. */
  datatype Binding = Binding(scene: nat, channel: nat, incarnation: nat, name: string)

  const UNBOUND := Binding(0, 0, 0, "")

  datatype Session = Session(epoch: nat, player: nat, service: nat, binding: Binding, authed: bool, declared: bool)

  datatype Table = Table(sessions: map<nat, Session>, index: map<nat, nat>, epochs: map<nat, nat>, nextId: nat)

  function EpochOf(t: Table, player: nat): nat {
    if player in t.epochs then t.epochs[player] else 0
  }

  function Create(t: Table, service: nat): Table {
    t.(sessions := t.sessions[t.nextId := Session(0, 0, service, UNBOUND, false, false)], nextId := t.nextId + 1)
  }

  function FindByPlayer(t: Table, player: nat): Option<nat> {
    if player == 0 || player !in t.index || t.index[player] !in t.sessions then None else Some(t.index[player])
  }

  /** The session a login pushes out, if any. */
  function Kicked(t: Table, id: nat, player: nat): Option<nat> {
    if player in t.index && t.index[player] != id then Some(t.index[player]) else None
  }

  predicate CanBind(t: Table, id: nat, player: nat) {
    player != 0 && id in t.sessions && EpochOf(t, player) < LAST_EPOCH
  }

  function Demoted(sessions: map<nat, Session>, id: nat): map<nat, Session> {
    if id in sessions then sessions[id := sessions[id].(authed := false, player := 0)] else sessions
  }

  /** Authentication: the player moves to this session under the next epoch. */
  function Bind(t: Table, id: nat, player: nat, service: nat): Table
    requires CanBind(t, id, player)
  {
    var kicked := Kicked(t, id, player);
    var sessions := if kicked.Some? then Demoted(t.sessions, kicked.value) else t.sessions;
    var epoch, was := EpochOf(t, player) + 1, sessions[id];
    t.(sessions := sessions[id := Session(epoch, player, service, if was.service != service then UNBOUND else was.binding, true, false)],
       index := t.index[player := id], epochs := t.epochs[player := epoch])
  }

  /** Redirecting a session to another service starts a new epoch of its player. */
  function SetService(t: Table, id: nat, service: nat): (Table, bool) {
    if id !in t.sessions then (t, false)
    else
      var s := t.sessions[id];
      if s.service == service then (t, true)
      else if s.authed && EpochOf(t, s.player) == LAST_EPOCH then (t, false)
      else
        var epoch := if s.authed then EpochOf(t, s.player) + 1 else s.epoch;
        (t.(sessions := t.sessions[id := s.(epoch := epoch, service := service, declared := false, binding := UNBOUND)],
            epochs := if s.authed then t.epochs[s.player := epoch] else t.epochs), true)
  }

  function SetBinding(t: Table, id: nat, b: Binding): (Table, bool) {
    if b.scene == 0 || b.incarnation == 0 || b.name == "" || id !in t.sessions then (t, false)
    else
      var s := t.sessions[id];
      if !s.authed || s.service != SCENE_SERVICE then (t, false)
      else if s.binding.scene != 0 then (t, s.binding == b)
      else (t.(sessions := t.sessions[id := s.(binding := b)]), true)
  }

  /** The session is still exactly the one the submission was prepared for. */
  predicate SameBinding(s: Session, expected: Session) {
    && s.authed && s.player != 0 && s.service == SCENE_SERVICE
    && s.binding.scene != 0 && s.binding.incarnation != 0 && s.binding.name != ""
    && s.player == expected.player && s.epoch == expected.epoch && s.service == expected.service && s.binding == expected.binding
  }

  function Erase(t: Table, id: nat): Table {
    if id !in t.sessions then t
    else
      var p := t.sessions[id].player;
      t.(sessions := t.sessions - {id}, index := if p != 0 && p in t.index && t.index[p] == id then t.index - {p} else t.index)
  }

  // The player index and the authenticated sessions are inverse to each other.

  predicate SessionOk(t: Table, id: nat)
    requires id in t.sessions
  {
    var s := t.sessions[id];
    && 0 < id < t.nextId
    && (if s.authed then s.player != 0 && s.player in t.index && t.index[s.player] == id && s.epoch == EpochOf(t, s.player) else s.player == 0)
  }

  predicate IndexOk(t: Table, player: nat)
    requires player in t.index
  {
    t.index[player] in t.sessions && t.sessions[t.index[player]].authed && t.sessions[t.index[player]].player == player
  }

  ghost predicate Inverse(t: Table) {
    && t.nextId > 0
    && (forall id <- t.sessions :: SessionOk(t, id)) && (forall player <- t.index :: IndexOk(t, player))
  }

  lemma CreateKeeps(t: Table, service: nat)
    requires Inverse(t)
    ensures Inverse(Create(t, service))
  {
    var t' := Create(t, service);
    forall id | id in t'.sessions ensures SessionOk(t', id) {
      if id != t.nextId { assert SessionOk(t, id); }
    }
    forall p | p in t'.index ensures IndexOk(t', p) {
      assert IndexOk(t, p);
      assert SessionOk(t, t.index[p]);
    }
  }

  lemma EraseKeeps(t: Table, id: nat)
    requires Inverse(t)
    ensures Inverse(Erase(t, id))
  {
    var t' := Erase(t, id);
    forall k | k in t'.sessions ensures SessionOk(t', k) { assert SessionOk(t, k); }
    forall p | p in t'.index ensures IndexOk(t', p) { assert IndexOk(t, p); }
  }

  lemma SetServiceKeeps(t: Table, id: nat, service: nat)
    requires Inverse(t)
    ensures Inverse(SetService(t, id, service).0)
  {
    var t' := SetService(t, id, service).0;
    forall k | k in t'.sessions ensures SessionOk(t', k) {
      assert SessionOk(t, k);
      assert id in t.sessions ==> SessionOk(t, id);
    }
    forall p | p in t'.index ensures IndexOk(t', p) { assert IndexOk(t, p); }
  }

  lemma SetBindingKeeps(t: Table, id: nat, b: Binding)
    requires Inverse(t)
    ensures Inverse(SetBinding(t, id, b).0)
  {
    var t' := SetBinding(t, id, b).0;
    forall k | k in t'.sessions ensures SessionOk(t', k) { assert SessionOk(t, k); }
    forall p | p in t'.index ensures IndexOk(t', p) { assert IndexOk(t, p); }
  }

  /** The session belongs to nobody yet, or to this very player. */
  predicate FirstOrSame(t: Table, id: nat, player: nat)
    requires id in t.sessions
  {
    t.sessions[id].player == 0 || t.sessions[id].player == player
  }

  lemma BindKeepsSessions(t: Table, id: nat, player: nat, service: nat, k: nat)
    requires Inverse(t) && CanBind(t, id, player) && FirstOrSame(t, id, player) && k in Bind(t, id, player, service).sessions
    ensures SessionOk(Bind(t, id, player, service), k)
  {
    assert SessionOk(t, k) && SessionOk(t, id);
    if player in t.index { assert IndexOk(t, player); }
  }

  lemma BindKeepsIndex(t: Table, id: nat, player: nat, service: nat, p: nat)
    requires Inverse(t) && CanBind(t, id, player) && FirstOrSame(t, id, player) && p in Bind(t, id, player, service).index
    ensures IndexOk(Bind(t, id, player, service), p)
  {
    if p != player {
      assert IndexOk(t, p);
      assert SessionOk(t, t.index[p]) && SessionOk(t, id);
    }
    if player in t.index { assert IndexOk(t, player); }
  }

  /** Authenticating keeps index and sessions inverse exactly when the session was not another
      player's: the table itself does not check this. */
  lemma BindKeepsInverseIff(t: Table, id: nat, player: nat, service: nat)
    requires Inverse(t) && CanBind(t, id, player)
    ensures Inverse(Bind(t, id, player, service)) <==> FirstOrSame(t, id, player)
    ensures EpochOf(Bind(t, id, player, service), player) == EpochOf(t, player) + 1
    ensures forall q :: q != player ==> EpochOf(Bind(t, id, player, service), q) == EpochOf(t, q)
  {
    var t' := Bind(t, id, player, service);
    if FirstOrSame(t, id, player) {
      forall k | k in t'.sessions ensures SessionOk(t', k) { BindKeepsSessions(t, id, player, service, k); }
      forall p | p in t'.index ensures IndexOk(t', p) { BindKeepsIndex(t, id, player, service, p); }
    } else {
      var q := t.sessions[id].player;
      assert SessionOk(t, id);
      assert q in t'.index && !IndexOk(t', q);
    }
  }

  /** A session of player 1 that logs in again as player 2 is still what player 1's index names. */
  lemma ReauthenticationLeavesStaleIndex()
    ensures var t1 := Create(Table(map[], map[], map[], 1), SCENE_SERVICE);
            && CanBind(t1, 1, 1)
            && var t2 := Bind(t1, 1, 1, SCENE_SERVICE);
               && Inverse(t2) && CanBind(t2, 1, 2)
               && var t3 := Bind(t2, 1, 2, SCENE_SERVICE);
                  !Inverse(t3) && FindByPlayer(t3, 1) == Some(1) && t3.sessions[1].player == 2
  {
    var t1 := Create(Table(map[], map[], map[], 1), SCENE_SERVICE);
    CreateKeeps(Table(map[], map[], map[], 1), SCENE_SERVICE);
    BindKeepsInverseIff(t1, 1, 1, SCENE_SERVICE);
    var t2 := Bind(t1, 1, 1, SCENE_SERVICE);
    BindKeepsInverseIff(t2, 1, 2, SCENE_SERVICE);
  }
}
