/** Sentinel, guardian and any chain of successors retiring around a live session
    (helpers/guardian/src/guardian.rs, sentinel.rs, successor.rs).

    A helper's process id is also the id of its own group. A completed census is one
    step with the decision taken on it. */
module Retirement {
  import opened Wrappers
  import opened Cleanup

  /** What the active owner is doing: a fresh successor first waits for the sentinel's
      acknowledgement and sweeps around its parked parent, then sweeps for itself. */
  datatype Phase = Adopting(parent: int, acknowledged: bool) | Sweeping

  datatype State = State(
    /** Live session members that are not helpers, each with its group. */
    members: map<int, int>,
    sid: int, sentinelAlive: bool,
    /** A Finish telling the sentinel to retire is on its way. */
    finishSent: bool,
    owner: int, ownerAlive: bool, phase: Phase,
    /** The owner has seen the sentinel's link go down. */
    peerGone: bool,
    /** Former owners, parked in their own groups, that have not died yet. */
    parked: set<int>)

  /** What is left once group `g` has been killed. */
  function Killed(members: map<int, int>, g: int): map<int, int> {
    map p | p in members && members[p] != g :: members[p]
  }

  function Helpers(s: State): set<int> {
    s.parked + (if s.sentinelAlive then {s.sid} else {}) + (if s.ownerAlive then {s.owner} else {})
  }

  /** Ids the system does not hand out again while they matter. */
  function Taken(s: State): set<int> {
    s.members.Keys + s.members.Values + s.parked + {s.sid, s.owner}
    + if s.phase.Adopting? then {s.phase.parent} else {}
  }

  /** An inventory lists every live process of the session with its group. */
  ghost predicate Lists(all: seq<Observation>, s: State) {
    && (forall p :: p in s.members ==> Member(p, s.members[p]) in all)
    && (forall h :: h in Helpers(s) ==> Member(h, h) in all)
  }

  /** It lists nobody else. */
  ghost predicate OnlyLive(all: seq<Observation>, s: State) {
    forall i :: 0 <= i < |all| && all[i].Member? ==>
      || (all[i].pid in s.members && s.members[all[i].pid] == all[i].group)
      || (all[i].pid in Helpers(s) && all[i].group == all[i].pid)
  }

  /** The helpers the owner's sweep leaves alone. */
  function OwnerPeers(s: State): (Option<int>, Option<int>) {
    (if s.peerGone then None else Some(s.sid), if s.phase.Adopting? then Some(s.phase.parent) else None)
  }

  datatype Decision = Wait | HandOff | FinishPeer | Retire

  /** What an owner does with a completed census; a successor's workload counts as settled. */
  function Decide(members: Reserved, peerGone: bool, settled: bool): Decision {
    if !settled && !members.own && !members.peer then Wait
    else if members.own && members.peer && !peerGone then HandOff
    else if members.peer && !peerGone then FinishPeer
    else Retire
  }

  /** The flags an owner decides on are those of the inventory; only a peer flag it has already
      sent Finish for may be left over from an earlier one. */
  ghost predicate Backs(all: seq<Observation>, s: State, reserved: Reserved) {
    && (reserved.own ==> Listed(all, s.owner, OwnerPeers(s), OwnGroup))
    && (reserved.peer && !s.finishSent ==> Listed(all, s.owner, OwnerPeers(s), PeerGroup))
  }

  datatype Step =
    // the session's own processes
    | Fork(parent: int, child: int)
    | Move(pid: int, group: int)
    | Exit(pid: int)
    // the owner
    | OwnerKills(group: int)
    | OwnerSeesPeerGone
    | ParentReleased(all: seq<Observation>, reserved: Reserved)
    | OwnerDecides(all: seq<Observation>, reserved: Reserved, settled: bool, successor: int)
    | StartupFails
    // the sentinel
    | SentinelAcknowledges
    | SentinelFinishes
    | SentinelKills(group: int)
    | SentinelRetires(all: seq<Observation>, reserved: Reserved)
    // parked owners, and crashes that leave somebody to recover
    | ParkedDies(pid: int)
    | OwnerCrashes
    | SentinelCrashes

  ghost predicate Enabled(s: State, step: Step) {
    match step
    case Fork(parent, child) => parent in s.members && child !in Taken(s)
    case Move(pid, group) => pid in s.members
    case Exit(pid) => pid in s.members
    case OwnerKills(group) =>
      && s.ownerAlive && (s.phase.Adopting? ==> s.phase.acknowledged)
      && group != s.owner && !IsPeer(OwnerPeers(s), group)
    case OwnerSeesPeerGone => s.ownerAlive && !s.sentinelAlive && !s.peerGone
    case ParentReleased(all, reserved) =>
      && s.ownerAlive && s.phase.Adopting? && s.phase.acknowledged
      && Lists(all, s) && Census(all, s.owner, OwnerPeers(s), reserved)
    case OwnerDecides(all, reserved, settled, successor) =>
      && s.ownerAlive && s.phase.Sweeping?
      && Lists(all, s) && Census(all, s.owner, OwnerPeers(s), reserved) && Backs(all, s, reserved)
      && (Decide(reserved, s.peerGone, settled) == HandOff ==> successor !in Taken(s))
    case StartupFails => s.ownerAlive && s.members == map[]
    case SentinelAcknowledges => s.sentinelAlive && !s.finishSent && s.phase.Adopting?
    case SentinelFinishes => s.sentinelAlive && s.finishSent
    case SentinelKills(group) => s.sentinelAlive && !s.ownerAlive && group != s.sid
    case SentinelRetires(all, reserved) =>
      && s.sentinelAlive && !s.ownerAlive
      && Lists(all, s) && Census(all, s.sid, (None, None), reserved)
    case ParkedDies(pid) => pid in s.parked
    case OwnerCrashes => s.ownerAlive && s.sentinelAlive && !s.finishSent
    case SentinelCrashes => s.sentinelAlive && s.ownerAlive
  }

  function Next(s: State, step: Step): State
    requires step.Fork? ==> step.parent in s.members
  {
    match step
    case Fork(parent, child) => s.(members := s.members[child := s.members[parent]])
    case Move(pid, group) => s.(members := s.members[pid := group])
    case Exit(pid) => s.(members := s.members - {pid})
    case OwnerKills(group) => s.(members := Killed(s.members, group), parked := s.parked - {group})
    case OwnerSeesPeerGone =>
      s.(peerGone := true, phase := if s.phase.Adopting? then s.phase.(acknowledged := true) else s.phase)
    case ParentReleased(_, _) => s.(phase := Sweeping)
    case OwnerDecides(_, reserved, settled, successor) =>
      (match Decide(reserved, s.peerGone, settled)
       case Wait => s
       case HandOff => s.(parked := s.parked + {s.owner}, owner := successor,
                          phase := Adopting(s.owner, false), peerGone := false)
       case FinishPeer => s.(finishSent := true)
       case Retire => s.(members := Killed(s.members, s.owner), ownerAlive := false))
    case StartupFails => s.(ownerAlive := false)
    case SentinelAcknowledges =>
      if s.phase.Adopting? then s.(phase := s.phase.(acknowledged := true)) else s
    case SentinelFinishes => s.(members := Killed(s.members, s.sid), sentinelAlive := false)
    case SentinelKills(group) => s.(members := Killed(s.members, group), parked := s.parked - {group})
    case SentinelRetires(_, _) => s.(members := Killed(s.members, s.sid), sentinelAlive := false)
    case ParkedDies(pid) => s.(members := Killed(s.members, pid), parked := s.parked - {pid})
    case OwnerCrashes => s.(ownerAlive := false)
    case SentinelCrashes => s.(sentinelAlive := false)
  }

  /** A helper that can still clear the session: the active owner, or a sentinel that has
      not been told to go. */
  predicate Guarded(s: State) {
    s.ownerAlive || (s.sentinelAlive && !s.finishSent)
  }

  ghost predicate Inv(s: State) {
    && s.owner != s.sid
    && s.members.Keys !! (s.parked + {s.sid, s.owner})
    && s.owner !in s.parked && s.sid !in s.parked
    && (s.ownerAlive && s.peerGone ==> !s.sentinelAlive)
    && (s.phase.Adopting? && s.peerGone ==> s.phase.acknowledged)
    && (!Guarded(s) ==> s.members == map[])
  }

  ghost predicate Initial(s: State) {
    && s.owner != s.sid && s.sentinelAlive && s.ownerAlive && !s.finishSent && !s.peerGone
    && s.phase == Sweeping && s.parked == {} && s.members.Keys !! {s.sid, s.owner}
  }

  // ----- what a census says

  /** A member the census lists is in the sweeper's group or in a peer's. */
  lemma CensusPlaces(all: seq<Observation>, own: int, peers: (Option<int>, Option<int>), reserved: Reserved,
                     pid: int, group: int)
    requires Census(all, own, peers, reserved) && Member(pid, group) in all
    ensures pid == own || IsPeer(peers, pid) || (group == own && reserved.own) ||
              (IsPeer(peers, group) && reserved.peer)
  {
    var i :| 0 <= i < |all| && all[i] == Member(pid, group);
    assert PlaceOf(own, peers, pid, group) == PlaceOf(own, peers, all[i].pid, all[i].group);
  }

  /** An owner decides to retire only when every member is in its own group. */
  lemma RetiringOwnerHoldsAll(s: State, all: seq<Observation>, reserved: Reserved, settled: bool, pid: int)
    requires Inv(s) && s.phase.Sweeping? && Lists(all, s) && Census(all, s.owner, OwnerPeers(s), reserved)
    requires Decide(reserved, s.peerGone, settled) == Retire && pid in s.members
    ensures s.members[pid] == s.owner
  {
    CensusPlaces(all, s.owner, OwnerPeers(s), reserved, pid, s.members[pid]);
    assert pid in s.members.Keys;
  }

  lemma RetiringSentinelHoldsAll(s: State, all: seq<Observation>, reserved: Reserved, pid: int)
    requires Inv(s) && Lists(all, s) && Census(all, s.sid, (None, None), reserved) && pid in s.members
    ensures s.members[pid] == s.sid
  {
    CensusPlaces(all, s.sid, (None, None), reserved, pid, s.members[pid]);
    assert pid in s.members.Keys;
  }

  /** A sentinel retires only as the last helper. */
  lemma RetiringSentinelIsLast(s: State, all: seq<Observation>, reserved: Reserved)
    requires Inv(s) && !s.ownerAlive && Lists(all, s) && Census(all, s.sid, (None, None), reserved)
    ensures s.parked == {}
  {
    forall h ensures h !in s.parked {
      if h in s.parked {
        assert h in Helpers(s);
        CensusPlaces(all, s.sid, (None, None), reserved, h, h);
      }
    }
  }

  lemma EmptyWhenAllKilled(members: map<int, int>, g: int)
    requires forall p :: p in members ==> members[p] == g
    ensures Killed(members, g) == map[]
  {
    var left := Killed(members, g);
    assert forall p :: p in left ==> p in members && members[p] != g;
    assert forall p :: p !in left;
    assert left == map[];
  }

  /** Every step, crashes that leave a recovering helper included, keeps the session guarded. */
  lemma StepKeepsInv(s: State, step: Step)
    requires Inv(s) && Enabled(s, step)
    ensures Inv(Next(s, step))
  {
    match step
    case OwnerDecides(all, reserved, settled, successor) =>
      if Decide(reserved, s.peerGone, settled) == Retire {
        forall p | p in s.members ensures s.members[p] == s.owner {
          RetiringOwnerHoldsAll(s, all, reserved, settled, p);
        }
        EmptyWhenAllKilled(s.members, s.owner);
      }
    case SentinelRetires(all, reserved) =>
      forall p | p in s.members ensures s.members[p] == s.sid {
        RetiringSentinelHoldsAll(s, all, reserved, p);
      }
      EmptyWhenAllKilled(s.members, s.sid);
    case _ =>
  }

  // ----- whole runs

  ghost predicate IsRun(states: seq<State>, steps: seq<Step>) {
    && |states| == |steps| + 1 && Initial(states[0])
    && forall i :: 0 <= i < |steps| ==> Enabled(states[i], steps[i]) && states[i + 1] == Next(states[i], steps[i])
  }

  lemma {:induction false} RunKeepsInv(states: seq<State>, steps: seq<Step>, i: nat)
    requires IsRun(states, steps) && i < |states|
    ensures Inv(states[i])
  {
    if i == 0 {
    } else {
      RunKeepsInv(states, steps, i - 1);
      StepKeepsInv(states[i - 1], steps[i - 1]);
      assert states[i - 1 + 1] == Next(states[i - 1], steps[i - 1]);
    }
  }

  /** In every state of every run, while a member is alive some helper can still clear the session. */
  lemma MembersAreGuarded(states: seq<State>, steps: seq<Step>, i: nat)
    requires IsRun(states, steps) && i < |states| && states[i].members != map[]
    ensures Guarded(states[i])
  {
    RunKeepsInv(states, steps, i);
  }

  /** The last helper that could clear the session goes only by killing the group that holds
      every remaining member. */
  lemma LastHelperTakesAll(states: seq<State>, steps: seq<Step>, i: nat, pid: int)
    requires IsRun(states, steps) && i < |steps|
    requires Guarded(states[i]) && !Guarded(states[i + 1]) && pid in states[i].members
    ensures steps[i].OwnerDecides? || steps[i].SentinelRetires?
    ensures states[i].members[pid] == if steps[i].OwnerDecides? then states[i].owner else states[i].sid
    ensures states[i + 1].members == map[]
  {
    RunKeepsInv(states, steps, i);
    RunKeepsInv(states, steps, i + 1);
    var s, step := states[i], steps[i];
    assert Enabled(s, step) && states[i + 1] == Next(s, step);
    match step
    case OwnerDecides(all, reserved, settled, _) => RetiringOwnerHoldsAll(s, all, reserved, settled, pid);
    case SentinelRetires(all, reserved) => RetiringSentinelHoldsAll(s, all, reserved, pid);
    case _ =>
  }

  /** Once nobody is left to guard, nothing is left to guard: the session stays empty. */
  lemma {:induction false} EmptyStaysEmpty(states: seq<State>, steps: seq<Step>, i: nat, j: nat)
    requires IsRun(states, steps) && i <= j < |states| && states[i].members == map[]
    ensures states[j].members == map[]
  {
    if j > i {
      hide Enabled, Next;
      EmptyStaysEmpty(states, steps, i, j - 1);
      assert Enabled(states[j - 1], steps[j - 1]) && states[j - 1 + 1] == Next(states[j - 1], steps[j - 1]);
      EmptyStep(states[j - 1], steps[j - 1]);
    }
  }

  lemma EmptyStep(s: State, step: Step)
    requires Enabled(s, step) && s.members == map[]
    ensures Next(s, step).members == map[]
  {
    hide Lists, Census, Backs, OwnerPeers, Taken;
    assert forall g :: Killed(map[], g) == map[];
  }

  // ----- what an owner does, by the groups the members are in

  predicate Populated(members: map<int, int>, group: int) {
    exists p :: p in members && members[p] == group
  }

  lemma ListedOwn(s: State, all: seq<Observation>)
    requires Inv(s) && s.phase.Sweeping? && OnlyLive(all, s) && Listed(all, s.owner, OwnerPeers(s), OwnGroup)
    ensures Populated(s.members, s.owner)
  {
    var i :| 0 <= i < |all| && all[i].Member?
             && PlaceOf(s.owner, OwnerPeers(s), all[i].pid, all[i].group) == OwnGroup;
    assert all[i].pid in s.members;
  }

  lemma ListedPeer(s: State, all: seq<Observation>)
    requires Inv(s) && s.phase.Sweeping? && OnlyLive(all, s) && Listed(all, s.owner, OwnerPeers(s), PeerGroup)
    ensures Populated(s.members, s.sid)
  {
    var i :| 0 <= i < |all| && all[i].Member?
             && PlaceOf(s.owner, OwnerPeers(s), all[i].pid, all[i].group) == PeerGroup;
    assert all[i].pid in s.members;
  }

  /** With an inventory of the live processes, the flags say which groups are populated. */
  lemma FlagsByGroup(s: State, all: seq<Observation>, reserved: Reserved)
    requires Inv(s) && s.phase.Sweeping? && Lists(all, s) && OnlyLive(all, s) && !s.finishSent
    requires Census(all, s.owner, OwnerPeers(s), reserved) && Backs(all, s, reserved)
    ensures reserved.own <==> Populated(s.members, s.owner)
    ensures reserved.peer <==> Populated(s.members, s.sid)
    ensures Populated(s.members, s.sid) ==> !s.peerGone
  {
    if reserved.own {
      ListedOwn(s, all);
    }
    if reserved.peer {
      ListedPeer(s, all);
    }
    forall p | p in s.members
      ensures (s.members[p] == s.owner ==> reserved.own) && (s.members[p] == s.sid ==> reserved.peer && !s.peerGone)
    {
      CensusPlaces(all, s.owner, OwnerPeers(s), reserved, p, s.members[p]);
      assert p in s.members.Keys;
    }
  }

  /** An owner's census of the live processes decides by the groups the members are in. In both:
      a successor takes over and the owner is parked. In the sentinel's alone: the sentinel is told
      to go. In its own alone, or nowhere with the workload settled: the owner goes and takes every
      member with it. Nowhere and the workload not settled: nothing changes. */
  lemma OwnerActs(s: State, all: seq<Observation>, reserved: Reserved, settled: bool, successor: int, after: State)
    requires Inv(s) && Enabled(s, OwnerDecides(all, reserved, settled, successor)) && OnlyLive(all, s) && !s.finishSent
    requires after == Next(s, OwnerDecides(all, reserved, settled, successor))
    ensures Populated(s.members, s.owner) && Populated(s.members, s.sid) ==>
              after.owner == successor && after.ownerAlive && after.parked == s.parked + {s.owner}
              && after.phase == Adopting(s.owner, false) && !after.peerGone && !after.finishSent
              && after.members == s.members && after.sentinelAlive == s.sentinelAlive
    ensures !Populated(s.members, s.owner) && Populated(s.members, s.sid) ==>
              after == s.(finishSent := true)
    ensures !Populated(s.members, s.sid) && (settled || Populated(s.members, s.owner)) ==>
              !after.ownerAlive && after.members == map[] && !after.finishSent
              && after.parked == s.parked && after.sentinelAlive == s.sentinelAlive
    ensures !Populated(s.members, s.sid) && !settled && !Populated(s.members, s.owner) ==> after == s
  {
    hide Census, Backs, OnlyLive, Lists, Populated;
    FlagsByGroup(s, all, reserved);
    if Decide(reserved, s.peerGone, settled) == Retire {
      forall p | p in s.members ensures s.members[p] == s.owner {
        RetiringOwnerHoldsAll(s, all, reserved, settled, p);
      }
      EmptyWhenAllKilled(s.members, s.owner);
    }
  }

  /** The step kills group `g`: a sweep's kill, or the end of a helper in its own group. */
  predicate Fells(s: State, step: Step, g: int) {
    || step == OwnerKills(g) || step == SentinelKills(g) || step == ParkedDies(g)
    || ((step.SentinelFinishes? || step.SentinelRetires?) && g == s.sid)
  }

  /** Every member of that group is gone, and the helper whose group it is; every other member is
      where it was. */
  lemma GroupGoes(s: State, step: Step, g: int)
    requires Inv(s) && Enabled(s, step) && Fells(s, step, g)
    ensures forall p :: p in Next(s, step).members <==> p in s.members && s.members[p] != g
    ensures forall p :: p in Next(s, step).members ==> Next(s, step).members[p] == s.members[p]
    ensures !Populated(Next(s, step).members, g) && g !in Helpers(Next(s, step))
  {
    hide Lists, Census;
  }

  // ----- the helpers can always finish

  /** Steps the helpers take by themselves, without a crash. */
  predicate Helpful(step: Step) {
    !step.Fork? && !step.Move? && !step.Exit? && !step.StartupFails? && !step.OwnerCrashes? && !step.SentinelCrashes?
  }

  ghost predicate Cleared(s: State) {
    s.members == map[] && Helpers(s) == {}
  }

  /** These steps of the helpers alone end with no member and no helper left. */
  ghost predicate Leads(s: State, steps: seq<Step>)
    decreases |steps|
  {
    if steps == [] then Cleared(s)
    else Helpful(steps[0]) && Enabled(s, steps[0]) && Leads(Next(s, steps[0]), steps[1..])
  }

  ghost predicate CanClear(s: State) {
    exists steps :: Leads(s, steps)
  }

  lemma ClearsAfter(s: State, step: Step)
    requires Helpful(step) && Enabled(s, step) && CanClear(Next(s, step))
    ensures CanClear(s)
  {
    hide Enabled, Next, Cleared;
    var steps :| Leads(Next(s, step), steps);
    assert ([step] + steps)[1..] == steps;
    assert Leads(s, [step] + steps);
  }

  lemma ClearedNow(s: State)
    requires Cleared(s)
    ensures CanClear(s)
  {
    assert Leads(s, []);
  }

  // ----- an inventory of the live processes

  lemma {:induction false} InSomeOrder(live: set<Observation>) returns (all: seq<Observation>)
    ensures forall o :: o in live <==> o in all
    decreases |live|
  {
    if live == {} {
      all := [];
    } else {
      var o :| o in live;
      all := InSomeOrder(live - {o});
      all := all + [o];
    }
  }

  lemma TakeInventory(s: State) returns (all: seq<Observation>)
    ensures Lists(all, s) && OnlyLive(all, s) && Unknown !in all
  {
    var live := (set p | p in s.members :: Member(p, s.members[p])) + (set h | h in Helpers(s) :: Member(h, h));
    all := InSomeOrder(live);
    hide Helpers;
    forall i | 0 <= i < |all| ensures all[i] in live {
      assert all[i] in all;
    }
  }

  /** Groups a sweep would kill: those of members or parked helpers that it does not leave alone. */
  function Stray(s: State, own: int, peers: (Option<int>, Option<int>)): set<int> {
    set g | g in Groups(s.members) + s.parked && g != own && !IsPeer(peers, g)
  }

  function Groups(members: map<int, int>): set<int> {
    set p | p in members :: members[p]
  }

  lemma StrayKilled(s: State, after: State, own: int, peers: (Option<int>, Option<int>), g: int)
    requires g in Stray(s, own, peers) && after.members == Killed(s.members, g) && after.parked == s.parked - {g}
    ensures |Stray(after, own, peers)| < |Stray(s, own, peers)|
  {
    var was, now := Stray(s, own, peers), Stray(after, own, peers);
    assert now <= was - {g};
    assert was - {g} == now + (was - {g} - now);
  }

  /** With no group left to kill, an inventory of the live processes is a census. */
  lemma StrayFreeCensus(s: State, own: int, peers: (Option<int>, Option<int>), all: seq<Observation>)
    requires OnlyLive(all, s) && Unknown !in all && Stray(s, own, peers) == {}
    requires s.sentinelAlive ==> s.sid == own || IsPeer(peers, s.sid)
    requires s.ownerAlive ==> s.owner == own
    ensures Census(all, own, peers, Reserved(Listed(all, own, peers, OwnGroup), Listed(all, own, peers, PeerGroup)))
  {
    forall i | 0 <= i < |all| && all[i].Member? ensures PlaceOf(own, peers, all[i].pid, all[i].group) != Foreign {
      var pid, group := all[i].pid, all[i].group;
      assert group !in Stray(s, own, peers);
      if pid in s.members && s.members[pid] == group {
        assert group in Groups(s.members);
      } else {
        assert pid in Helpers(s);
      }
    }
    hide PlaceOf, OnlyLive;
  }

  // ----- without an owner

  function LastStray(s: State): set<int> {
    Stray(s, s.sid, (None, None))
  }

  /** The sentinel alone, or only parked helpers: one of them can go on. */
  lemma LastProceeds(s: State) returns (step: Step)
    requires Inv(s) && !s.ownerAlive && (s.sentinelAlive || LastStray(s) != {})
    ensures Helpful(step) && Enabled(s, step) && !Next(s, step).ownerAlive
    ensures var after := Next(s, step);
            || (s.sentinelAlive && !after.sentinelAlive)
            || (after.sentinelAlive == s.sentinelAlive && |LastStray(after)| < |LastStray(s)|)
  {
    if s.sentinelAlive && s.finishSent {
      step := SentinelFinishes;
    } else if LastStray(s) != {} {
      var g :| g in LastStray(s);
      step := if s.sentinelAlive then SentinelKills(g) else ParkedDies(g);
      StrayKilled(s, Next(s, step), s.sid, (None, None), g);
    } else {
      var all := TakeInventory(s);
      StrayFreeCensus(s, s.sid, (None, None), all);
      hide Stray, Census, Lists, Listed, OnlyLive;
      step := SentinelRetires(all, Reserved(Listed(all, s.sid, (None, None), OwnGroup),
                                            Listed(all, s.sid, (None, None), PeerGroup)));
    }
  }

  lemma {:induction false} LastClears(s: State)
    requires Inv(s) && !s.ownerAlive
    ensures CanClear(s)
    decreases s.sentinelAlive, |LastStray(s)|
  {
    if s.sentinelAlive || LastStray(s) != {} {
      var step := LastProceeds(s);
      StepKeepsInv(s, step);
      hide Enabled, Next, Inv, LastStray, CanClear;
      LastClears(Next(s, step));
      ClearsAfter(s, step);
    } else {
      assert forall g :: g in s.parked ==> g in LastStray(s);
      assert s.parked == {};
      ClearedNow(s);
    }
  }

  // ----- with an owner

  /** How far the owner is from going: members in its own group it would have to leave behind,
      a sentinel still to be told, gone and missed, and a parent still to be released. */
  ghost function Rank(s: State): nat {
    (if Populated(s.members, s.owner) then 4 else 0) + (if s.sentinelAlive then 1 else 0)
    + (if s.finishSent then 0 else 1) + (if s.peerGone then 0 else 1)
    + (if s.phase.Sweeping? then 0 else if s.phase.acknowledged then 1 else 2)
  }

  function OwnerStray(s: State): set<int> {
    Stray(s, s.owner, OwnerPeers(s))
  }

  /** The step brings the owner closer to going. */
  ghost predicate Closer(s: State, step: Step) {
    && Helpful(step) && Enabled(s, step)
    && var after := Next(s, step);
       after.ownerAlive ==>
         Rank(after) < Rank(s) || (Rank(after) == Rank(s) && |OwnerStray(after)| < |OwnerStray(s)|)
  }

  lemma KilledPopulated(members: map<int, int>, g: int, group: int)
    requires g != group
    ensures Populated(Killed(members, g), group) <==> Populated(members, group)
  {
    if Populated(members, group) {
      var p :| p in members && members[p] == group;
      assert p in Killed(members, g);
    }
    if Populated(Killed(members, g), group) {
      var p :| p in Killed(members, g) && Killed(members, g)[p] == group;
      assert p in members;
    }
  }

  /** A fresh successor must be acknowledged first, by the sentinel or by its disappearance. */
  lemma AdoptionProceeds(s: State) returns (step: Step)
    requires Inv(s) && s.ownerAlive && s.phase.Adopting? && !s.phase.acknowledged
    ensures Closer(s, step)
  {
    hide Populated, Stray;
    if s.sentinelAlive && !s.finishSent {
      step := SentinelAcknowledges;
    } else if s.sentinelAlive {
      step := SentinelFinishes;
      KilledPopulated(s.members, s.sid, s.owner);
    } else {
      step := OwnerSeesPeerGone;
    }
  }

  lemma StrayProceeds(s: State) returns (step: Step)
    requires Inv(s) && s.ownerAlive && (s.phase.Adopting? ==> s.phase.acknowledged) && OwnerStray(s) != {}
    ensures Closer(s, step)
  {
    var g :| g in OwnerStray(s);
    step := OwnerKills(g);
    StrayKilled(s, Next(s, step), s.owner, OwnerPeers(s), g);
    KilledPopulated(s.members, g, s.owner);
    hide Populated, Stray;
  }

  /** What the owner's census is once there is nothing left to kill. */
  lemma OwnerCensus(s: State) returns (all: seq<Observation>, reserved: Reserved)
    requires Inv(s) && s.ownerAlive && OwnerStray(s) == {}
    ensures Lists(all, s) && OnlyLive(all, s)
    ensures Census(all, s.owner, OwnerPeers(s), reserved) && Backs(all, s, reserved)
  {
    hide Lists, OnlyLive, Census, Listed, Stray;
    all := TakeInventory(s);
    StrayFreeCensus(s, s.owner, OwnerPeers(s), all);
    reserved := Reserved(Listed(all, s.owner, OwnerPeers(s), OwnGroup), Listed(all, s.owner, OwnerPeers(s), PeerGroup));
  }

  lemma SweepProceeds(s: State) returns (step: Step)
    requires Inv(s) && s.ownerAlive && s.phase.Sweeping? && OwnerStray(s) == {}
    ensures Closer(s, step)
  {
    if s.sentinelAlive && s.finishSent {
      step := SentinelFinishes;
      KilledPopulated(s.members, s.sid, s.owner);
      hide Populated, Stray;
    } else if !s.sentinelAlive && !s.peerGone {
      step := OwnerSeesPeerGone;
      hide Populated, Stray;
    } else {
      step := DecisionProceeds(s);
    }
  }

  lemma {:induction false} FreshId(used: set<int>) returns (id: int)
    ensures forall u :: u in used ==> u < id
    decreases |used|
  {
    id := 0;
    if u :| u in used {
      var rest := FreshId(used - {u});
      id := if u < rest then rest else u + 1;
      forall v | v in used ensures v < id {
        assert v != u ==> v in used - {u};
      }
    }
  }

  lemma DecisionProceeds(s: State) returns (step: Step)
    requires Inv(s) && s.ownerAlive && s.phase.Sweeping? && OwnerStray(s) == {}
    requires if s.sentinelAlive then !s.finishSent else s.peerGone
    ensures Closer(s, step)
  {
    hide Stray, Lists, Census, OnlyLive, Backs, Taken, Populated;
    var all, reserved := OwnerCensus(s);
    var successor := FreshId(Taken(s));
    Unpopulated(s, successor);
    step := OwnerDecides(all, reserved, true, successor);
    if !s.peerGone {
      OwnerActs(s, all, reserved, true, successor, Next(s, step));
    }
  }

  lemma Unpopulated(s: State, id: int)
    requires forall u :: u in Taken(s) ==> u < id
    ensures id !in Taken(s) && !Populated(s.members, id)
  {
    forall p | p in s.members ensures s.members[p] != id {
      assert s.members[p] in Taken(s);
    }
  }

  lemma OwnerProceeds(s: State) returns (step: Step)
    requires Inv(s) && s.ownerAlive
    ensures Closer(s, step)
  {
    hide Stray, Populated, Lists, Census;
    if s.phase.Adopting? && !s.phase.acknowledged {
      step := AdoptionProceeds(s);
    } else if OwnerStray(s) != {} {
      step := StrayProceeds(s);
    } else if s.phase.Adopting? {
      var all, reserved := OwnerCensus(s);
      step := ParentReleased(all, reserved);
    } else {
      step := SweepProceeds(s);
    }
  }

  lemma {:induction false} OwnerClears(s: State)
    requires Inv(s)
    ensures CanClear(s)
    decreases s.ownerAlive, Rank(s), |OwnerStray(s)|
  {
    if s.ownerAlive {
      var step := OwnerProceeds(s);
      StepKeepsInv(s, step);
      hide Enabled, Next, Inv, OwnerStray, Rank, CanClear;
      OwnerClears(Next(s, step));
      ClearsAfter(s, step);
    } else {
      LastClears(s);
    }
  }

  /** From every state of every run the helpers alone, with no crash and no help from the session's
      own processes, can bring the session to an end: no member and no helper left. */
  lemma EveryRunCanClear(states: seq<State>, steps: seq<Step>, i: nat)
    requires IsRun(states, steps) && i < |states|
    ensures CanClear(states[i])
  {
    RunKeepsInv(states, steps, i);
    OwnerClears(states[i]);
  }
}
