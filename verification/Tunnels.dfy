/** The manager of several WireGuard tunnels: which are open, which one is active.
    Its operations run one at a time. */
module Tunnels {
  import opened Basics

  datatype Profile = Profile(id: string, enabled: bool, checked: bool)

  /** An entry of the tunnel map: an open tunnel, or none after a failed connection. */
  datatype Entry = Entry(tunnel: Option<nat>, healthy: bool)

  /** The map and the active ID of the service; `closed` says of every tunnel ever opened how often it was closed. */
  datatype State = State(tunnels: map<string, Entry>, active: string, closed: map<nat, nat>, next: nat)

  // ----- Operations on values -----

  predicate Open(s: State, id: string) {
    id in s.tunnels && s.tunnels[id].tunnel.Some?
  }

  /** A new entry for id, with a new tunnel if connecting worked. */
  function Connect(s: State, id: string, ok: bool): State {
    if ok then
      State(s.tunnels[id := Entry(Some(s.next), true)], s.active, s.closed[s.next := 0], s.next + 1)
    else
      s.(tunnels := s.tunnels[id := Entry(None, false)])
  }

  function CloseCount(s: State, h: nat): nat {
    if h in s.closed then s.closed[h] else 0
  }

  function Disconnect(s: State, id: string): State {
    if id !in s.tunnels then s
    else
      var t := s.tunnels[id].tunnel;
      State(s.tunnels - {id}, if s.active == id then "" else s.active,
            if t.Some? then s.closed[t.value := CloseCount(s, t.value) + 1] else s.closed, s.next)
  }

  function SetHealth(s: State, id: string, healthy: bool): State {
    if id in s.tunnels then s.(tunnels := s.tunnels[id := s.tunnels[id].(healthy := healthy)]) else s
  }

  predicate Eligible(s: State, p: Profile) {
    p.enabled && Open(s, p.id) && s.tunnels[p.id].healthy
  }

  /** The first profile from k on that is enabled, connected and healthy, or the length of the list. */
  function FirstEligible(s: State, ps: seq<Profile>, k: nat): (i: nat)
    requires k <= |ps|
    ensures k <= i <= |ps| && (i < |ps| ==> Eligible(s, ps[i]))
    ensures forall j | k <= j < i :: !Eligible(s, ps[j])
    decreases |ps| - k
  {
    if k == |ps| || Eligible(s, ps[k]) then k else FirstEligible(s, ps, k + 1)
  }

  /** The profile to use: the first eligible one in list order, or none. */
  function Best(s: State, ps: seq<Profile>): string {
    var i := FirstEligible(s, ps, 0);
    if i < |ps| then ps[i].id else ""
  }

  // ----- The invariant -----

  ghost predicate Holds(s: State, id: string, h: nat) {
    id in s.tunnels && s.tunnels[id].tunnel == Some(h)
  }

  ghost predicate ActiveIsOpen(s: State) {
    s.active != "" ==> Open(s, s.active)
  }

  /** Every tunnel ever opened is either held by exactly one entry and never closed, or held by none and closed exactly once. */
  ghost predicate Accounted(s: State) {
    && (forall id, h | Holds(s, id, h) :: h in s.closed && s.closed[h] == 0)
    && (forall id, id', h | Holds(s, id, h) && Holds(s, id', h) :: id == id')
    && (forall h | h in s.closed :: h < s.next && (s.closed[h] == 1 || (s.closed[h] == 0 && exists id :: Holds(s, id, h))))
  }

  ghost predicate Inv(s: State) {
    ActiveIsOpen(s) && Accounted(s)
  }

  lemma ConnectKeeps(s: State, id: string, ok: bool)
    requires Inv(s) && !Open(s, id)
    ensures Inv(Connect(s, id, ok))
  {
    var s' := Connect(s, id, ok);
    forall h | h in s'.closed && s'.closed[h] == 0 ensures exists id :: Holds(s', id, h) {
      if ok && h == s.next {
        assert Holds(s', id, h);
      } else {
        var id0 :| Holds(s, id0, h);
        assert Holds(s', id0, h);
      }
    }
    forall id1, h | Holds(s', id1, h) ensures h in s'.closed && s'.closed[h] == 0 {
      assert id1 != id ==> Holds(s, id1, h);
    }
    forall id1, id2, h | Holds(s', id1, h) && Holds(s', id2, h) ensures id1 == id2 {
      assert id1 != id ==> Holds(s, id1, h);
      assert id2 != id ==> Holds(s, id2, h);
    }
  }

  /** Connecting under an ID is safe exactly if that ID holds no open tunnel: otherwise the old tunnel is lost. */
  lemma ConnectKeepsIff(s: State, id: string, ok: bool)
    requires Inv(s)
    ensures Inv(Connect(s, id, ok)) <==> !Open(s, id)
  {
    if !Open(s, id) {
      ConnectKeeps(s, id, ok);
    } else {
      var h, s' := s.tunnels[id].tunnel.value, Connect(s, id, ok);
      assert Holds(s, id, h);
      if Inv(s') {
        assert s'.closed[h] == 0;
        var id' :| Holds(s', id', h);
        assert id' != id ==> Holds(s, id', h);
        assert false;
      }
    }
  }

  lemma DisconnectKeeps(s: State, id: string)
    requires Inv(s)
    ensures Inv(Disconnect(s, id))
  {
    var s' := Disconnect(s, id);
    if id in s.tunnels {
      if s.tunnels[id].tunnel.Some? {
        var h := s.tunnels[id].tunnel.value;
        assert Holds(s, id, h);
        assert s'.closed.Keys == s.closed.Keys && s'.closed[h] == 1;
      }
      forall id1, h | Holds(s', id1, h) ensures h in s'.closed && s'.closed[h] == 0 {
        assert Holds(s, id1, h);
        assert s.tunnels[id].tunnel.Some? ==> Holds(s, id, s.tunnels[id].tunnel.value);
      }
      forall id1, id2, h | Holds(s', id1, h) && Holds(s', id2, h) ensures id1 == id2 {
        assert Holds(s, id1, h) && Holds(s, id2, h);
      }
      forall h | h in s'.closed && s'.closed[h] != 1 ensures s'.closed[h] == 0 && exists id :: Holds(s', id, h) {
        assert s.tunnels[id].tunnel.Some? ==> Holds(s, id, s.tunnels[id].tunnel.value);
        var id0 :| Holds(s, id0, h);
        assert Holds(s', id0, h);
      }
    }
  }

  lemma SetHealthKeeps(s: State, id: string, healthy: bool)
    requires Inv(s)
    ensures Inv(SetHealth(s, id, healthy))
  {
    var s' := SetHealth(s, id, healthy);
    forall i, h ensures Holds(s', i, h) <==> Holds(s, i, h) {}
    forall h | h in s'.closed && s'.closed[h] == 0 ensures exists id :: Holds(s', id, h) {
      var id0 :| Holds(s, id0, h);
      assert Holds(s', id0, h);
    }
  }

  lemma SetActiveKeeps(s: State, id: string)
    requires Inv(s) && (id == "" || Open(s, id))
    ensures Inv(s.(active := id))
  {
    var s' := s.(active := id);
    forall i, h ensures Holds(s', i, h) <==> Holds(s, i, h) {}
    forall h | h in s'.closed && s'.closed[h] == 0 ensures exists id :: Holds(s', id, h) {
      var id0 :| Holds(s, id0, h);
      assert Holds(s', id0, h);
    }
  }

  // ----- The manager -----

  ghost predicate DistinctIds(ps: seq<Profile>) {
    && (forall i, j | 0 <= i < j < |ps| :: ps[i].id != ps[j].id)
    && (forall i | 0 <= i < |ps| :: ps[i].id != "")
  }

  function EnabledIds(ps: seq<Profile>): set<string> {
    set i | 0 <= i < |ps| && ps[i].enabled :: ps[i].id
  }

  // ----- What the results mean -----

  /** The profile can be used: it is enabled and its entry has an open tunnel and is healthy. */
  ghost predicate Usable(p: Profile, tunnels: map<string, Entry>) {
    p.enabled && p.id in tunnels && tunnels[p.id].tunnel.Some? && tunnels[p.id].healthy
  }

  /** The active profile is the first usable one in list order, or there is none. */
  ghost predicate FirstUsable(active: string, ps: seq<Profile>, tunnels: map<string, Entry>) {
    if active == "" then forall i | 0 <= i < |ps| :: !Usable(ps[i], tunnels)
    else exists i :: 0 <= i < |ps| && ps[i].id == active && Usable(ps[i], tunnels) && forall j | 0 <= j < i :: !Usable(ps[j], tunnels)
  }

  lemma BestIsFirstUsable(s: State, ps: seq<Profile>)
    requires DistinctIds(ps)
    ensures FirstUsable(Best(s, ps), ps, s.tunnels)
  {
    var i := FirstEligible(s, ps, 0);
    forall j | 0 <= j < |ps| ensures Usable(ps[j], s.tunnels) <==> Eligible(s, ps[j]) {
    }
    if i < |ps| {
      assert ps[i].id != "" && Usable(ps[i], s.tunnels);
    }
  }

  /** The entries of these IDs have a tunnel and are healthy exactly if connecting worked. */
  ghost predicate UpAsConnected(tunnels: map<string, Entry>, ids: set<string>, connects: string -> bool) {
    forall id | id in ids ::
      && id in tunnels
      && (tunnels[id].tunnel.Some? <==> connects(id))
      && (tunnels[id].healthy <==> connects(id))
  }

  /** The active profile is the first enabled one in list order whose tunnel came up, or there is none. */
  ghost predicate FirstConnecting(active: string, ps: seq<Profile>, connects: string -> bool) {
    if active == "" then forall i | 0 <= i < |ps| :: !(ps[i].enabled && connects(ps[i].id))
    else exists i :: 0 <= i < |ps| && ps[i].id == active && ps[i].enabled && connects(active)
                     && forall j | 0 <= j < i :: !(ps[j].enabled && connects(ps[j].id))
  }

  lemma UsableIfConnected(ps: seq<Profile>, tunnels: map<string, Entry>, connects: string -> bool, active: string)
    requires UpAsConnected(tunnels, EnabledIds(ps), connects) && FirstUsable(active, ps, tunnels)
    ensures FirstConnecting(active, ps, connects)
  {
    forall j | 0 <= j < |ps| ensures Usable(ps[j], tunnels) <==> ps[j].enabled && connects(ps[j].id) {
      assert ps[j].enabled ==> ps[j].id in EnabledIds(ps);
    }
  }

  /** A tunnel that was closed once and is held by no entry, or never and is held by exactly one. */
  ghost predicate OnceClosedOrHeld(h: nat, tunnels: map<string, Entry>, closed: map<nat, nat>)
    requires h in closed
  {
    || (closed[h] == 1 && forall id | id in tunnels :: tunnels[id].tunnel != Some(h))
    || (closed[h] == 0 && exists id :: id in tunnels && tunnels[id].tunnel == Some(h)
                                       && forall other | other in tunnels && other != id :: tunnels[other].tunnel != Some(h))
  }

  lemma AccountedMeans(s: State)
    requires Inv(s)
    ensures forall h | h in s.closed :: OnceClosedOrHeld(h, s.tunnels, s.closed)
    ensures forall id | id in s.tunnels && s.tunnels[id].tunnel.Some? :: s.tunnels[id].tunnel.value in s.closed
    ensures s.active != "" ==> s.active in s.tunnels && s.tunnels[s.active].tunnel.Some?
  {
    forall id, h | id in s.tunnels && s.tunnels[id].tunnel == Some(h) ensures Holds(s, id, h) {
    }
    forall h | h in s.closed ensures OnceClosedOrHeld(h, s.tunnels, s.closed) {
      if s.closed[h] == 0 {
        var id :| Holds(s, id, h);
        forall other | other in s.tunnels && other != id ensures s.tunnels[other].tunnel != Some(h) {
          assert s.tunnels[other].tunnel == Some(h) ==> Holds(s, other, h);
        }
        assert id in s.tunnels && s.tunnels[id].tunnel == Some(h);
      }
    }
  }

  // ----- The service -----

  class Manager {
    var tunnels: map<string, Entry>
    var active: string
    var next: nat
    ghost var closed: map<nat, nat>

    ghost function View(): State
      reads this
    {
      State(tunnels, active, closed, next)
    }

    constructor ()
      ensures Inv(View()) && tunnels == map[] && active == "" && closed == map[]
    {
      tunnels, active, next, closed := map[], "", 0, map[];
    }

    method ConnectProfile(id: string, ok: bool)
      requires Inv(View()) && !Open(View(), id)
      modifies this
      ensures View() == Connect(old(View()), id, ok) && Inv(View())
    {
      ConnectKeeps(View(), id, ok);
      if ok {
        tunnels := tunnels[id := Entry(Some(next), true)];
        closed := closed[next := 0];
        next := next + 1;
      } else {
        tunnels := tunnels[id := Entry(None, false)];
      }
    }

    method DisconnectProfile(id: string)
      requires Inv(View())
      modifies this
      ensures View() == Disconnect(old(View()), id) && Inv(View())
    {
      DisconnectKeeps(View(), id);
      if id !in tunnels { return; }
      ghost var s := View();
      if tunnels[id].tunnel.Some? {
        closed := closed[tunnels[id].tunnel.value := CloseCount(s, tunnels[id].tunnel.value) + 1];
      }
      tunnels := tunnels - {id};
      if active == id { active := ""; }
    }

    method SelectBestActive(ps: seq<Profile>)
      requires Inv(View())
      modifies this
      ensures View() == old(View()).(active := Best(old(View()), ps)) && Inv(View())
      ensures DistinctIds(ps) ==> FirstUsable(active, ps, tunnels)
    {
      ghost var s := View();
      SetActiveKeeps(s, Best(s, ps));
      if DistinctIds(ps) { BestIsFirstUsable(s, ps); }
      for i := 0 to |ps|
        invariant View() == s
        invariant FirstEligible(s, ps, 0) == FirstEligible(s, ps, i)
      {
        if !ps[i].enabled { continue; }
        if ps[i].id !in tunnels || tunnels[ps[i].id].tunnel.None? { continue; }
        if tunnels[ps[i].id].healthy {
          active := ps[i].id;
          return;
        }
      }
      active := "";
    }

    /** Start, called once; `connects` tells for which profiles a tunnel comes up. */
    method Start(ps: seq<Profile>, connects: string -> bool)
      requires Inv(View()) && tunnels == map[] && DistinctIds(ps)
      modifies this
      ensures Inv(View()) && tunnels.Keys == EnabledIds(ps) && UpAsConnected(tunnels, EnabledIds(ps), connects)
      ensures FirstUsable(active, ps, tunnels) && FirstConnecting(active, ps, connects)
    {
      for i := 0 to |ps|
        invariant Inv(View()) && tunnels.Keys == EnabledIds(ps[..i])
        invariant UpAsConnected(tunnels, EnabledIds(ps[..i]), connects)
      {
        EnabledOneMore(ps, i);
        if !ps[i].enabled { continue; }
        ConnectProfile(ps[i].id, connects(ps[i].id));
      }
      assert ps[..|ps|] == ps;
      SelectBestActive(ps);
      UsableIfConnected(ps, tunnels, connects, active);
    }

    /** The first loop of a sync: connect the enabled profiles that have no entry. */
    method ConnectMissing(ps: seq<Profile>, connects: string -> bool) returns (enabled: set<string>)
      requires Inv(View()) && DistinctIds(ps)
      modifies this
      ensures Inv(View()) && enabled == EnabledIds(ps) && tunnels.Keys == old(tunnels).Keys + enabled
      ensures forall id | id in old(tunnels) :: tunnels[id] == old(tunnels)[id]
      ensures UpAsConnected(tunnels, enabled - old(tunnels).Keys, connects)
    {
      ghost var before := tunnels;
      enabled := {};
      for i := 0 to |ps|
        invariant Inv(View()) && enabled == EnabledIds(ps[..i])
        invariant tunnels.Keys == before.Keys + enabled
        invariant forall id | id in before :: tunnels[id] == before[id]
        invariant UpAsConnected(tunnels, enabled - before.Keys, connects)
      {
        EnabledOneMore(ps, i);
        if !ps[i].enabled { continue; }
        enabled := enabled + {ps[i].id};
        if ps[i].id !in tunnels {
          ConnectProfile(ps[i].id, connects(ps[i].id));
        }
      }
      assert ps[..|ps|] == ps;
    }

    /** The second loop of a sync: disconnect every entry whose profile is not enabled. */
    method DisconnectOthers(enabled: set<string>)
      requires Inv(View()) && enabled <= tunnels.Keys
      modifies this
      ensures Inv(View()) && tunnels.Keys == enabled
      ensures forall id | id in enabled :: tunnels[id] == old(tunnels)[id]
    {
      ghost var before := tunnels;
      var toDisconnect := tunnels.Keys - enabled;
      while toDisconnect != {}
        invariant Inv(View()) && tunnels.Keys == enabled + toDisconnect && enabled !! toDisconnect
        invariant forall id | id in enabled :: tunnels[id] == before[id]
        decreases |toDisconnect|
      {
        var id :| id in toDisconnect;
        DisconnectProfile(id);
        toDisconnect := toDisconnect - {id};
      }
    }

    /** Bringing the tunnels in line with the profile list. */
    method SyncProfiles(ps: seq<Profile>, connects: string -> bool)
      requires Inv(View()) && DistinctIds(ps)
      modifies this
      ensures Inv(View()) && tunnels.Keys == EnabledIds(ps)
      ensures forall id | id in old(tunnels) && id in EnabledIds(ps) :: tunnels[id] == old(tunnels)[id]
      ensures UpAsConnected(tunnels, EnabledIds(ps) - old(tunnels).Keys, connects)
      ensures FirstUsable(active, ps, tunnels)
      ensures old(tunnels) == map[] ==> UpAsConnected(tunnels, EnabledIds(ps), connects) && FirstConnecting(active, ps, connects)
    {
      ghost var before := tunnels;
      var enabled := ConnectMissing(ps, connects);
      DisconnectOthers(enabled);
      SelectBestActive(ps);
      if before == map[] {
        assert EnabledIds(ps) - before.Keys == EnabledIds(ps);
        UsableIfConnected(ps, tunnels, connects, active);
      }
    }

    /** Health checks of the enabled, connected profiles that have a check; `healthy` is what the checks find. */
    method RunHealthChecks(ps: seq<Profile>, healthy: string -> bool)
      requires Inv(View()) && DistinctIds(ps)
      modifies this
      ensures Inv(View()) && tunnels.Keys == old(tunnels).Keys
      ensures forall id | id in tunnels :: tunnels[id].tunnel == old(tunnels)[id].tunnel
      ensures forall i | 0 <= i < |ps| && ps[i].enabled && ps[i].checked && Open(View(), ps[i].id) ::
                tunnels[ps[i].id].healthy == healthy(ps[i].id)
      ensures forall id | id in tunnels && (forall i | 0 <= i < |ps| && ps[i].id == id :: !ps[i].enabled || !ps[i].checked) ::
                tunnels[id] == old(tunnels)[id]
      ensures FirstUsable(active, ps, tunnels) && closed == old(closed)
    {
      ghost var before := tunnels;
      for i := 0 to |ps|
        invariant Inv(View()) && tunnels.Keys == before.Keys && closed == old(closed)
        invariant forall id | id in tunnels :: tunnels[id].tunnel == before[id].tunnel
        invariant forall k | 0 <= k < i && ps[k].enabled && ps[k].checked && Open(View(), ps[k].id) ::
                    tunnels[ps[k].id].healthy == healthy(ps[k].id)
        invariant forall id | id in tunnels && (forall k | 0 <= k < i && ps[k].id == id :: !ps[k].enabled || !ps[k].checked) ::
                    tunnels[id] == before[id]
      {
        var id := ps[i].id;
        if !ps[i].enabled || !ps[i].checked { continue; }
        if id !in tunnels || tunnels[id].tunnel.None? { continue; }
        SetHealthKeeps(View(), id, healthy(id));
        tunnels := tunnels[id := tunnels[id].(healthy := healthy(id))];
      }
      SelectBestActive(ps);
    }

    method SetActiveProfile(id: string) returns (ok: bool)
      requires Inv(View())
      modifies this
      ensures Inv(View()) && ok == (id in old(tunnels) && old(tunnels)[id].tunnel.Some?)
      ensures View() == if ok then old(View()).(active := id) else old(View())
    {
      if id !in tunnels || tunnels[id].tunnel.None? { return false; }
      SetActiveKeeps(View(), id);
      active := id;
      return true;
    }

    /** `known` tells whether the profile is in the store. */
    method ReconnectProfile(ps: seq<Profile>, id: string, known: bool, ok: bool) returns (done: bool)
      requires Inv(View())
      modifies this
      ensures Inv(View()) && done == (known && ok)
      ensures !known ==> View() == old(View())
      ensures known && !ok ==> View() == Connect(Disconnect(old(View()), id), id, false)
      ensures known && ok ==>
                var s := Connect(Disconnect(old(View()), id), id, true);
                View() == s.(active := Best(s, ps))
      ensures known ==> id in tunnels && (tunnels[id].tunnel.Some? <==> ok) && (tunnels[id].healthy <==> ok)
      ensures known ==> tunnels.Keys == old(tunnels).Keys + {id}
      ensures known ==> forall other | other in old(tunnels) && other != id :: tunnels[other] == old(tunnels)[other]
      ensures known && ok && DistinctIds(ps) ==> FirstUsable(active, ps, tunnels)
      ensures known && !ok ==> active == if old(active) == id then "" else old(active)
    {
      if !known { return false; }
      DisconnectProfile(id);
      ConnectProfile(id, ok);
      if !ok { return false; }
      SelectBestActive(ps);
      return true;
    }

    method Stop()
      requires Inv(View())
      modifies this
      ensures Inv(View()) && tunnels == map[] && active == ""
      ensures closed.Keys == old(closed).Keys && forall h | h in closed :: closed[h] == 1
    {
      var ids := tunnels.Keys;
      while ids != {}
        invariant Inv(View()) && tunnels.Keys == ids && closed.Keys == old(closed).Keys
        decreases |ids|
      {
        var id :| id in ids;
        HeldIsKnown(View(), id);
        DisconnectProfile(id);
        ids := ids - {id};
      }
      active := "";
      NoEntriesNoOpen(View());
    }
  }

  /** An operation after Start, with what the profile store and the network answer. */
  datatype Op =
    | SyncOp(ps: seq<Profile>, connects: string -> bool)
    | HealthOp(ps: seq<Profile>, healthy: string -> bool)
    | SetActiveOp(id: string)
    | ReconnectOp(ps: seq<Profile>, id: string, known: bool, ok: bool)
    | StopOp

  ghost predicate Listable(op: Op) {
    match op
    case SyncOp(ps, _) => DistinctIds(ps)
    case HealthOp(ps, _) => DistinctIds(ps)
    case _ => true
  }

  /** Every sequence of operations keeps the active ID on an open tunnel and every tunnel accounted for; after the start,
      and after a sync that follows a stop, entries and active profile are those that connecting gave. */
  method RunOperations(first: seq<Profile>, connects: string -> bool, ops: seq<Op>) returns (m: Manager)
    requires DistinctIds(first) && forall i | 0 <= i < |ops| :: Listable(ops[i])
    ensures fresh(m) && Inv(m.View())
    ensures m.active != "" ==> m.active in m.tunnels && m.tunnels[m.active].tunnel.Some?
    ensures forall h | h in m.closed :: OnceClosedOrHeld(h, m.tunnels, m.closed)
    ensures forall id | id in m.tunnels && m.tunnels[id].tunnel.Some? :: m.tunnels[id].tunnel.value in m.closed
    ensures ops == [] ==>
              m.tunnels.Keys == EnabledIds(first) && UpAsConnected(m.tunnels, EnabledIds(first), connects)
              && FirstConnecting(m.active, first, connects)
    ensures |ops| > 1 && ops[|ops| - 2].StopOp? && ops[|ops| - 1].SyncOp? ==>
              var sync := ops[|ops| - 1];
              UpAsConnected(m.tunnels, EnabledIds(sync.ps), sync.connects) && FirstConnecting(m.active, sync.ps, sync.connects)
    ensures ops != [] && ops[|ops| - 1].SyncOp? ==>
              && m.tunnels.Keys == EnabledIds(ops[|ops| - 1].ps)
              && FirstUsable(m.active, ops[|ops| - 1].ps, m.tunnels)
    ensures ops != [] && ops[|ops| - 1].StopOp? ==> forall h | h in m.closed :: m.closed[h] == 1
  {
    m := new Manager();
    m.Start(first, connects);
    for i := 0 to |ops|
      invariant fresh(m) && Inv(m.View())
      invariant i == 0 ==> m.tunnels.Keys == EnabledIds(first) && UpAsConnected(m.tunnels, EnabledIds(first), connects)
                           && FirstConnecting(m.active, first, connects)
      invariant i > 0 && ops[i - 1].StopOp? ==> m.tunnels == map[]
      invariant i > 1 && ops[i - 2].StopOp? && ops[i - 1].SyncOp? ==>
                  && UpAsConnected(m.tunnels, EnabledIds(ops[i - 1].ps), ops[i - 1].connects)
                  && FirstConnecting(m.active, ops[i - 1].ps, ops[i - 1].connects)
      invariant i > 0 && ops[i - 1].SyncOp? ==>
                  m.tunnels.Keys == EnabledIds(ops[i - 1].ps) && FirstUsable(m.active, ops[i - 1].ps, m.tunnels)
      invariant i > 0 && ops[i - 1].StopOp? ==> forall h | h in m.closed :: m.closed[h] == 1
    {
      assert Listable(ops[i]);
      match ops[i]
      case SyncOp(ps, up) => m.SyncProfiles(ps, up);
      case HealthOp(ps, healthy) => m.RunHealthChecks(ps, healthy);
      case SetActiveOp(id) => var _ := m.SetActiveProfile(id);
      case ReconnectOp(ps, id, known, ok) => var _ := m.ReconnectProfile(ps, id, known, ok);
      case StopOp => m.Stop();
    }
    AccountedMeans(m.View());
  }

  lemma EnabledOneMore(ps: seq<Profile>, i: nat)
    requires i < |ps|
    ensures EnabledIds(ps[..i + 1]) == EnabledIds(ps[..i]) + (if ps[i].enabled then {ps[i].id} else {})
    ensures DistinctIds(ps) ==> ps[i].id !in EnabledIds(ps[..i])
  {
    var a, b := ps[..i + 1], ps[..i];
    assert forall k | 0 <= k < i :: a[k] == b[k];
    forall id | id in EnabledIds(b) ensures id in EnabledIds(a) {
      var k :| 0 <= k < |b| && b[k].enabled && b[k].id == id;
      assert a[k].enabled && a[k].id == id;
    }
    if ps[i].enabled {
      assert a[i].enabled && a[i].id == ps[i].id;
    }
  }

  lemma HeldIsKnown(s: State, id: string)
    requires Inv(s) && id in s.tunnels
    ensures Disconnect(s, id).closed.Keys == s.closed.Keys
  {
    if s.tunnels[id].tunnel.Some? {
      assert Holds(s, id, s.tunnels[id].tunnel.value);
    }
  }

  lemma NoEntriesNoOpen(s: State)
    requires Inv(s) && s.tunnels == map[]
    ensures forall h | h in s.closed :: s.closed[h] == 1
  {
    forall h | h in s.closed ensures s.closed[h] == 1 {
      assert !exists id :: Holds(s, id, h);
    }
  }
}
