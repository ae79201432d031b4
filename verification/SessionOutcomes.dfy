/** What a login, a redirect, a binding and a closed socket leave in the gateway's session table, seen from
    the sessions and from the players. */
module SessionOutcomes {
  import opened Common
  import opened SessionSpec

  /** The player is logged in on the session. */
  predicate On(t: Table, id: nat, player: nat) { id in t.sessions && t.sessions[id].authed && t.sessions[id].player == player }

  /** All other sessions are as they were. */
  ghost predicate OnlySession(t: Table, t': Table, id: nat) {
    t'.sessions.Keys == t.sessions.Keys && forall k <- t.sessions :: k != id ==> t'.sessions[k] == t.sessions[k]
  }

  /** Whatever the index says, a player is only found on an open session. */
  lemma FoundIsOpen(t: Table, player: nat)
    ensures FindByPlayer(t, player).Some? ==> FindByPlayer(t, player).value in t.sessions && player != 0
  {
  }

  /** A player is found exactly on the session he is logged in on. */
  lemma FoundIff(t: Table, player: nat, id: nat)
    requires Inverse(t)
    ensures FindByPlayer(t, player) == Some(id) <==> player != 0 && On(t, id, player)
  {
    if player in t.index { assert IndexOk(t, player); }
    if On(t, id, player) { assert SessionOk(t, id); }
  }

  /**
   * A login to a session that is free, or the player's own, when the player's epochs are not used up: the player is then on this session alone, one epoch on; a session he was
   * on before is logged out; every other session and player is left alone, and the scene binding survives
   * exactly if the service stays.
   */
  lemma LoginOutcome(t: Table, id: nat, player: nat, service: nat, k: nat)
    requires Inverse(t) && player != 0 && id in t.sessions && EpochOf(t, player) < 0xFFFF_FFFF && FirstOrSame(t, id, player) && k in t.sessions
    ensures CanBind(t, id, player)
    ensures var t', s := Bind(t, id, player, service), t.sessions[k];
            && t'.sessions.Keys == t.sessions.Keys && t'.nextId == t.nextId && t'.epochs == t.epochs[player := EpochOf(t, player) + 1]
            && t'.sessions[k] == (if k == id then Session(EpochOf(t, player) + 1, player, service, if service == s.service then s.binding else UNBOUND, true, false)
                                  else if On(t, k, player) then s.(authed := false, player := 0) else s)
    ensures FindByPlayer(Bind(t, id, player, service), player) == Some(id)
    ensures Kicked(t, id, player) == Some(k) <==> k != id && On(t, k, player)
    ensures forall q :: q != player ==> FindByPlayer(Bind(t, id, player, service), q) == FindByPlayer(t, q)
  {
    BindKeepsInverseIff(t, id, player, service);
    var t' := Bind(t, id, player, service);
    FoundIff(t', player, id);
    assert SessionOk(t, k);
    if player in t.index { assert IndexOk(t, player); }
    forall q | q != player ensures FindByPlayer(t', q) == FindByPlayer(t, q) { FoundAsBefore(t, t', q, id, player); }
  }

  lemma FoundAsBefore(t: Table, t': Table, q: nat, id: nat, player: nat)
    requires q != player && t'.sessions.Keys == t.sessions.Keys && t'.index == t.index[player := id]
    ensures FindByPlayer(t', q) == FindByPlayer(t, q)
  {
  }

  /**
   * A redirect to the service a session already has changes nothing. Any other takes effect unless the session is
   * gone or its player's epochs are used up: the session loses its scene and must be declared again, and if a
   * player is on it he starts his next epoch there.
   */
  lemma RedirectOutcome(t: Table, id: nat, service: nat)
    ensures var (t', ok) := SetService(t, id, service);
            if id in t.sessions && t.sessions[id].service == service then t' == t && ok
            else
              && (ok <==> id in t.sessions && !(t.sessions[id].authed && EpochOf(t, t.sessions[id].player) == 0xFFFF_FFFF))
              && (if !ok then t' == t
                  else
                    var s := t.sessions[id];
                    && OnlySession(t, t', id) && t'.index == t.index && t'.nextId == t.nextId
                    && (if s.authed then t'.epochs == t.epochs[s.player := EpochOf(t, s.player) + 1] && t'.sessions[id].epoch == EpochOf(t', s.player)
                        else t'.epochs == t.epochs && t'.sessions[id].epoch == s.epoch)
                    && t'.sessions[id] == s.(epoch := t'.sessions[id].epoch, service := service, declared := false, binding := UNBOUND))
  {
  }

  /** A session is bound to a scene once: exactly when a player is on it, its traffic goes to the scene service and it
      has no scene yet. Asked again for the scene it has, the table agrees; for another it refuses. */
  lemma BindingOutcome(t: Table, id: nat, b: Binding)
    ensures var (t', ok) := SetBinding(t, id, b);
            var proper := b.scene != 0 && b.incarnation != 0 && b.name != "" && id in t.sessions && t.sessions[id].authed && t.sessions[id].service == 8;
            && (ok <==> proper && (t.sessions[id].binding.scene == 0 || t.sessions[id].binding == b))
            && (if ok then OnlySession(t, t', id) && t'.sessions[id] == t.sessions[id].(binding := b) && t' == t.(sessions := t'.sessions) else t' == t)
  {
    var (t', ok) := SetBinding(t, id, b);
    if ok && t.sessions[id].binding.scene != 0 { assert t.sessions[id] == t.sessions[id].(binding := b); }
  }

  /** A closed session is gone; players who were found on it are found nowhere, every other where he was. */
  lemma EraseOutcome(t: Table, id: nat, player: nat)
    ensures var t' := Erase(t, id);
            && t'.sessions == t.sessions - {id} && t'.epochs == t.epochs && t'.nextId == t.nextId
            && FindByPlayer(t', player) == if FindByPlayer(t, player) == Some(id) then None else FindByPlayer(t, player)
  {
    if id !in t.sessions { assert t.sessions - {id} == t.sessions; }
  }

  /** A new session is nobody's, under an id never used. */
  lemma CreateOutcome(t: Table, service: nat, player: nat)
    requires Inverse(t)
    ensures var t' := Create(t, service);
            && t.nextId !in t.sessions && t'.sessions == t.sessions[t.nextId := Session(0, 0, service, UNBOUND, false, false)]
            && t'.epochs == t.epochs && t'.nextId > t.nextId && FindByPlayer(t', player) == FindByPlayer(t, player)
  {
    forall k | k in t.sessions ensures k < t.nextId { assert SessionOk(t, k); }
    if player in t.index { assert IndexOk(t, player); }
  }

  /** Scene traffic prepared for a session as it was goes through exactly while the session has a player on it who is
      bound to a scene, and player, epoch, service and scene are those it was prepared for. */
  lemma SubmitsIff(now: Session, prepared: Session)
    ensures SameBinding(now, prepared) <==>
              && now.authed && now.player != 0 && now.service == 8 && now.binding.scene != 0 && now.binding.incarnation != 0 && now.binding.name != ""
              && now == prepared.(authed := now.authed, declared := now.declared)
  {
  }
}
