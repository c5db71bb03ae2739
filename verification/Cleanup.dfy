/** The sweep that decides when a surviving helper may retire (helpers/guardian/src/cleanup.rs). */
module Cleanup {
  import opened Wrappers

  datatype Observation = OutsideOrGone | Unknown | Member(pid: int, group: int)

  datatype Reserved = Reserved(own: bool, peer: bool)

  datatype Progress = Working | Retained | ReadyToRetire(members: Reserved)

  datatype AnchorAnswer = AnchorFails | AnchorBusy | AnchorDone

  /** What happens around one step: the outstanding anchor's tick, the inventory a new scan
      would walk (or none, if it cannot be opened), and whether an anchor can be started. */
  datatype Environment = Environment(now: nat, anchor: AnchorAnswer, inventory: Option<seq<Observation>>, starts: bool)

  const BATCH: nat := 128

  predicate IsPeer(peers: (Option<int>, Option<int>), pid: int) {
    peers.0 == Some(pid) || peers.1 == Some(pid)
  }

  datatype Place = Helper | OwnGroup | PeerGroup | Foreign

  function PlaceOf(own: int, peers: (Option<int>, Option<int>), pid: int, group: int): Place {
    if pid == own || IsPeer(peers, pid) then Helper
    else if group == own then OwnGroup
    else if IsPeer(peers, group) then PeerGroup
    else Foreign
  }

  /** What a scan remembers about what it has seen. */
  ghost predicate Remembers(seen: seq<Observation>, own: int, peers: (Option<int>, Option<int>),
                            uncertain: bool, acted: bool, reserved: Reserved) {
    && (Unknown in seen ==> uncertain)
    && forall i :: 0 <= i < |seen| && seen[i].Member? ==>
         match PlaceOf(own, peers, seen[i].pid, seen[i].group)
         case Helper => true
         case OwnGroup => reserved.own
         case PeerGroup => reserved.peer || acted
         case Foreign => acted
  }

  /** Somebody listed, and not a helper, belongs in that place. */
  ghost predicate Listed(all: seq<Observation>, own: int, peers: (Option<int>, Option<int>), place: Place) {
    exists i :: 0 <= i < |all| && all[i].Member? && PlaceOf(own, peers, all[i].pid, all[i].group) == place
  }

  /** The flags are those carried into the scan and those of the members it saw, and no others. */
  ghost predicate Exact(seen: seq<Observation>, own: int, peers: (Option<int>, Option<int>),
                        carried: Reserved, reserved: Reserved) {
    && (reserved.own <==> carried.own || Listed(seen, own, peers, OwnGroup))
    && (reserved.peer <==> carried.peer || Listed(seen, own, peers, PeerGroup))
  }

  lemma ListedMore(seen: seq<Observation>, o: Observation, own: int, peers: (Option<int>, Option<int>), place: Place)
    ensures Listed(seen + [o], own, peers, place) <==>
              Listed(seen, own, peers, place) || (o.Member? && PlaceOf(own, peers, o.pid, o.group) == place)
  {
    hide PlaceOf;
    if Listed(seen, own, peers, place) {
      var i :| 0 <= i < |seen| && seen[i].Member? && PlaceOf(own, peers, seen[i].pid, seen[i].group) == place;
      assert (seen + [o])[i] == seen[i];
    }
    assert (seen + [o])[|seen|] == o;
    if Listed(seen + [o], own, peers, place) {
      var i :| 0 <= i < |seen| + 1 && (seen + [o])[i].Member?
               && PlaceOf(own, peers, (seen + [o])[i].pid, (seen + [o])[i].group) == place;
      if i < |seen| {
        assert (seen + [o])[i] == seen[i];
      }
    }
  }

  /** A whole inventory with nothing unknown, nobody outside the helper groups, and every
      member of those groups accounted for by the reserved flags. */
  ghost predicate Census(all: seq<Observation>, own: int, peers: (Option<int>, Option<int>), reserved: Reserved) {
    && Unknown !in all
    && forall i :: 0 <= i < |all| && all[i].Member? ==>
         match PlaceOf(own, peers, all[i].pid, all[i].group)
         case Helper => true
         case OwnGroup => reserved.own
         case PeerGroup => reserved.peer
         case Foreign => false
  }

  /** Nothing is left to do: nothing unknown, and nobody outside the helper groups. */
  ghost predicate Settled(all: seq<Observation>, own: int, peers: (Option<int>, Option<int>)) {
    forall i :: 0 <= i < |all| ==>
      !all[i].Unknown? && (all[i].Member? ==> PlaceOf(own, peers, all[i].pid, all[i].group) != Foreign)
  }

  lemma RemembersMore(seen: seq<Observation>, o: Observation, own: int, peers: (Option<int>, Option<int>),
                      uncertain: bool, acted: bool, reserved: Reserved,
                      uncertain': bool, acted': bool, reserved': Reserved)
    requires Remembers(seen, own, peers, uncertain, acted, reserved)
    requires (uncertain ==> uncertain') && (acted ==> acted')
    requires (reserved.own ==> reserved'.own) && (reserved.peer ==> reserved'.peer)
    requires o.Unknown? ==> uncertain'
    requires o.Member? ==>
               match PlaceOf(own, peers, o.pid, o.group)
               case Helper => true
               case OwnGroup => reserved'.own
               case PeerGroup => reserved'.peer || acted'
               case Foreign => acted'
    ensures Remembers(seen + [o], own, peers, uncertain', acted', reserved')
  {
    hide IsPeer;
    forall i | 0 <= i < |seen + [o]| && (seen + [o])[i].Member?
      ensures match PlaceOf(own, peers, (seen + [o])[i].pid, (seen + [o])[i].group)
              case Helper => true
              case OwnGroup => reserved'.own
              case PeerGroup => reserved'.peer || acted'
              case Foreign => acted'
    {
      if i < |seen| {
        assert (seen + [o])[i] == seen[i];
      }
    }
  }

  /** What was seen outside the groups before a helper joined has been acted on. */
  lemma RemembersWithPeer(seen: seq<Observation>, own: int, peers: (Option<int>, Option<int>),
                          uncertain: bool, acted: bool, reserved: Reserved, pid: int)
    requires Remembers(seen, own, peers, uncertain, acted, reserved) && peers.1.None?
    ensures Remembers(seen, own, (peers.0, Some(pid)), uncertain, acted, reserved)
  {
  }

  lemma NothingSeen(own: int, peers: (Option<int>, Option<int>), uncertain: bool, acted: bool, reserved: Reserved)
    ensures Remembers([], own, peers, uncertain, acted, reserved) && Exact([], own, peers, reserved, reserved)
  {
  }

  /** One batch further, with nothing to object to. */
  predicate Onward(was: Option<seq<Observation>>, now: Option<seq<Observation>>, uncertain: bool, acted: bool) {
    was.Some? && now.Some? && |now.value| + 128 == |was.value| && !uncertain && !acted
  }

  class Sweep {
    const own: int
    var peers: (Option<int>, Option<int>)
    /** Observations the current scan has still to deliver. */
    var scan: Option<seq<Observation>>
    var anchor: bool
    var uncertain: bool
    var acted: bool
    var reserved: Reserved
    var retryAt: nat
    /** What the current scan has delivered already. */
    ghost var seen: seq<Observation>
    /** The flags the current scan started with. */
    ghost var carried: Reserved
    /** A helper joined during the current scan. */
    ghost var joined: bool

    ghost predicate Valid()
      reads this
    {
      scan.Some? ==>
        && Remembers(seen, own, peers, uncertain, acted, reserved)
        && (!joined ==> Exact(seen, own, peers, carried, reserved))
    }

    constructor (own: int, peer: Option<int>, now: nat)
      ensures Valid() && this.own == own && peers == (peer, None) && scan == None && !anchor
      ensures !uncertain && !acted && reserved == Reserved(false, false) && retryAt == now
    {
      this.own, peers := own, (peer, None);
      scan, anchor, uncertain, acted, reserved, retryAt := None, false, false, false, Reserved(false, false), now;
      seen, carried, joined := [], Reserved(false, false), false;
    }

    /** The peer died: its group is swept like any other from now on. */
    method PeerGone(now: nat)
      requires Valid()
      modifies this
      ensures Valid() && peers == (None, None) && scan == None && anchor == old(anchor)
      ensures reserved == Reserved(false, false) && !uncertain && !acted && retryAt == now
    {
      peers := (None, None);
      scan, uncertain, acted, reserved, retryAt := None, false, false, Reserved(false, false), now;
    }

    /** A second helper to leave alone. */
    method AdditionalPeer(pid: int)
      requires Valid() && (scan.None? || peers.1.None?)
      modifies this`peers, this`joined
      ensures Valid() && peers == (old(peers).0, Some(pid))
    {
      joined := true;
      if scan.Some? {
        RemembersWithPeer(seen, own, peers, uncertain, acted, reserved, pid);
      }
      peers := (peers.0, Some(pid));
    }

    method Retry(now: nat) returns (r: Progress)
      requires Valid()
      modifies this
      ensures Valid() && r == Retained && scan == None && anchor == old(anchor) && peers == old(peers)
      ensures reserved == Reserved(false, false) && !uncertain && !acted && retryAt == now + 50
    {
      scan, uncertain, acted, reserved, retryAt := None, false, false, Reserved(false, false), now + 50;
      return Retained;
    }

    /** One observation; the scan goes on unless an anchor had to be started. */
    method Observe(o: Observation, ghost past: seq<Observation>, starts: bool) returns (goOn: bool)
      requires Remembers(past, own, peers, uncertain, acted, reserved) && !anchor
      modifies this`uncertain, this`acted, this`reserved, this`anchor
      ensures Remembers(past + [o], own, peers, uncertain, acted, reserved)
      ensures Exact(past, own, peers, carried, old(reserved)) ==> Exact(past + [o], own, peers, carried, reserved)
      ensures goOn <==> !(o.Member? && PlaceOf(own, peers, o.pid, o.group) == Foreign)
      ensures anchor == (!goOn && starts) && acted == (old(acted) || !goOn)
      ensures uncertain == (old(uncertain) || o.Unknown? || (!goOn && !starts))
    {
      ghost var u, a, v := uncertain, acted, reserved;
      goOn := true;
      match o {
        case OutsideOrGone =>
        case Unknown => uncertain := true;
        case Member(pid, group) =>
          match PlaceOf(own, peers, pid, group) {
            case Helper =>
            case OwnGroup => reserved := reserved.(own := true);
            case PeerGroup => reserved := reserved.(peer := true);
            case Foreign =>
              acted := true;
              if starts {
                anchor := true;
              } else {
                uncertain := true;
              }
              goOn := false;
          }
      }
      hide Remembers, PlaceOf;
      assert o.Member? ==> match PlaceOf(own, peers, o.pid, o.group)
                           case Helper => true case OwnGroup => reserved.own
                           case PeerGroup => reserved.peer || acted case Foreign => acted;
      RemembersMore(past, o, own, peers, u, a, v, uncertain, acted, reserved);
      ListedMore(past, o, own, peers, OwnGroup);
      ListedMore(past, o, own, peers, PeerGroup);
    }

    /** A bounded piece of sweeping. `all` is the inventory the answer rests on. */
    method Step(env: Environment) returns (r: Progress, ghost all: seq<Observation>)
      requires Valid()
      modifies this
      ensures Valid() && peers == old(peers)
      // Retirement is only ever answered for one entire, certain and idle scan.
      ensures r.ReadyToRetire? ==> !anchor && !uncertain && !acted && scan == None
      ensures r.ReadyToRetire? ==> r.members == reserved && Census(all, own, peers, reserved)
      ensures r.ReadyToRetire? && !joined ==> Exact(all, own, peers, carried, r.members)
      ensures r.ReadyToRetire? ==>
                if old(scan).Some? then all == old(seen) + old(scan).value else env.inventory == Some(all)
      // Flags are carried into a scan from before it; without a scan or an answer none are left.
      ensures scan.Some? || r.ReadyToRetire? ==>
                if old(scan).Some? then carried == old(carried) && joined == old(joined)
                else carried == old(reserved) && !joined
      ensures scan.None? && !r.ReadyToRetire? ==>
                reserved == Reserved(false, false) || (old(scan).None? && reserved == old(reserved))
      // A scan that is not over has delivered and has still to deliver its whole inventory.
      ensures scan.Some? ==>
                if old(scan).Some? then seen + scan.value == old(seen) + old(scan).value
                else env.inventory == Some(seen + scan.value)
      // A short scan that finds only helpers and their groups is answered with retirement.
      ensures old(scan).None? && (!old(anchor) || env.anchor == AnchorDone) && env.now >= old(retryAt)
              && !old(uncertain) && !old(acted) && env.inventory.Some? && |env.inventory.value| < 128
              && Settled(env.inventory.value, own, peers) ==>
                r.ReadyToRetire?
      // A longer one is walked 128 observations at a time.
      ensures (!old(anchor) || env.anchor == AnchorDone) && env.now >= old(retryAt) && !old(uncertain) && !old(acted)
              && old(scan).Some? && |old(scan).value| >= BATCH && Settled(old(seen) + old(scan).value, own, peers) ==>
                r == Working && !anchor && Onward(old(scan), scan, uncertain, acted)
      // An outstanding anchor is never forgotten, whatever its failures.
      ensures old(anchor) && (env.now < old(retryAt) || env.anchor != AnchorDone) ==> anchor && !r.ReadyToRetire?
      ensures old(anchor) && env.now >= old(retryAt) && env.anchor == AnchorFails ==>
                r == Retained && uncertain && retryAt == env.now + 10 && scan == old(scan)
      ensures env.now < old(retryAt) ==> r == Working && scan == old(scan) && retryAt == old(retryAt)
      // The next step waits 10 ms after a scan that acted and 50 ms after one that failed.
      ensures r == Working && env.now >= old(retryAt) ==>
                retryAt == if scan.None? && !anchor then env.now + 10 else old(retryAt)
      ensures r == Retained && !anchor ==> retryAt == env.now + 50
    {
      hide Census, Settled, Exact, Listed;
      all := [];
      if env.now < retryAt {
        return Working, all;
      }
      if anchor {
        match env.anchor {
          case AnchorFails =>
            uncertain := true;
            retryAt := env.now + 10;
            return Retained, all;
          case AnchorBusy => return Working, all;
          case AnchorDone => anchor := false;
        }
      }
      hide Valid;
      r, all := Scan(env);
    }

    /** Open a scan if there is none, and walk on. */
    method Scan(env: Environment) returns (r: Progress, ghost all: seq<Observation>)
      requires Valid() && !anchor
      modifies this
      ensures Valid() && peers == old(peers)
      ensures r.ReadyToRetire? ==> !anchor && !uncertain && !acted && scan == None
      ensures r.ReadyToRetire? ==> r.members == reserved && Census(all, own, peers, reserved)
      ensures r.ReadyToRetire? && !joined ==> Exact(all, own, peers, carried, r.members)
      ensures r.ReadyToRetire? ==>
                if old(scan).Some? then all == old(seen) + old(scan).value else env.inventory == Some(all)
      ensures scan.Some? || r.ReadyToRetire? ==>
                if old(scan).Some? then carried == old(carried) && joined == old(joined)
                else carried == old(reserved) && !joined
      ensures scan.None? && !r.ReadyToRetire? ==> reserved == Reserved(false, false)
      ensures scan.Some? ==>
                if old(scan).Some? then seen + scan.value == old(seen) + old(scan).value
                else env.inventory == Some(seen + scan.value)
      ensures old(scan).None? && !old(uncertain) && !old(acted) && env.inventory.Some?
              && |env.inventory.value| < BATCH && Settled(env.inventory.value, own, peers) ==>
                r.ReadyToRetire?
      ensures !old(uncertain) && !old(acted)
              && old(scan).Some? && |old(scan).value| >= BATCH && Settled(old(seen) + old(scan).value, own, peers) ==>
                r == Working && !anchor && Onward(old(scan), scan, uncertain, acted)
      ensures r == Working ==> retryAt == if scan.None? && !anchor then env.now + 10 else old(retryAt)
      ensures r == Retained ==> !anchor && retryAt == env.now + 50
    {
      hide Remembers, Census, Settled, Exact;
      all := [];
      if scan.None? {
        if env.inventory.None? {
          r := Retry(env.now);
          return r, all;
        }
        NothingSeen(own, peers, uncertain, acted, reserved);
        scan, seen, carried, joined := env.inventory, [], reserved, false;
      }
      all := seen + scan.value;
      assert [] + scan.value == scan.value;
      r := Walk(env, all);
    }

    /** Up to 128 observations of the current scan. */
    method Walk(env: Environment, ghost all: seq<Observation>) returns (r: Progress)
      requires Valid() && scan.Some? && !anchor && all == seen + scan.value
      modifies this
      ensures Valid() && peers == old(peers)
      ensures r.ReadyToRetire? ==> !anchor && !uncertain && !acted && scan == None
      ensures r.ReadyToRetire? ==> r.members == reserved && Census(all, own, peers, reserved)
      ensures scan.Some? || r.ReadyToRetire? ==> carried == old(carried) && joined == old(joined)
      ensures r.ReadyToRetire? && !joined ==> Exact(all, own, peers, carried, reserved)
      ensures scan.None? && !r.ReadyToRetire? ==> reserved == Reserved(false, false)
      ensures r == Working ==> retryAt == if scan.None? && !anchor then env.now + 10 else old(retryAt)
      ensures r == Retained ==> !anchor && retryAt == env.now + 50
      ensures scan.Some? ==> seen + scan.value == all
      ensures !old(uncertain) && !old(acted) && |old(scan).value| < BATCH && Settled(all, own, peers) ==>
                r.ReadyToRetire?
      ensures !old(uncertain) && !old(acted) && |old(scan).value| >= BATCH && Settled(all, own, peers) ==>
                r == Working && !anchor && Onward(old(scan), scan, uncertain, acted)
    {
      hide PlaceOf;
      ghost var quiet := !uncertain && !acted && Settled(all, own, peers);
      for i := 0 to BATCH
        invariant Valid() && scan.Some? && !anchor && all == seen + scan.value && peers == old(peers)
        invariant carried == old(carried) && joined == old(joined) && retryAt == old(retryAt)
        invariant quiet ==> !uncertain && !acted && |scan.value| + i == |old(scan).value|
      {
        var rest := scan.value;
        assert rest != [] ==> rest[0] == all[|seen|];
        if rest == [] {
          assert seen == all;
          scan := None;
          if uncertain {
            r := Retry(env.now);
            return;
          }
          if acted {
            acted, reserved, retryAt := false, Reserved(false, false), env.now + 10;
            return Working;
          }
          return ReadyToRetire(reserved);
        }
        scan := Some(rest[1..]);
        var goOn := Observe(rest[0], seen, env.starts);
        seen := seen + [rest[0]];
        if !goOn {
          return Working;
        }
      }
      return Working;
    }
  }

  // ----- whole runs

  datatype Event = SweepOnce(env: Environment) | PeerDied(now: nat) | PeerJoined(pid: int) | RetryLater(now: nat)

  /** The helpers to leave alone after these events. */
  function PeersAfter(peer: Option<int>, events: seq<Event>): (Option<int>, Option<int>) {
    if events == [] then (peer, None)
    else
      var peers, e := PeersAfter(peer, events[..|events| - 1]), events[|events| - 1];
      match e
      case PeerDied(_) => (None, None)
      case PeerJoined(pid) => (peers.0, Some(pid))
      case SweepOnce(_) => peers
      case RetryLater(_) => peers
  }

  predicate Resets(e: Event) {
    e.PeerDied? || e.RetryLater?
  }

  /** The inventory that event `j` opened is a census at event `i`, with nothing between them
      that starts the sweep over or answers for it. */
  ghost predicate Covers(own: int, peer: Option<int>, events: seq<Event>, answers: seq<Progress>, j: nat, i: nat)
    requires i < |events| && i < |answers| && answers[i].ReadyToRetire?
  {
    && j <= i && events[j].SweepOnce? && events[j].env.inventory.Some?
    && Census(events[j].env.inventory.value, own, PeersAfter(peer, events[..i + 1]), answers[i].members)
    && (forall k :: j <= k <= i ==> !Resets(events[k]))
    && (forall k :: j <= k < i ==> !answers[k].ReadyToRetire?)
  }

  predicate Raised(answer: Progress, peer: bool) {
    answer.ReadyToRetire? && if peer then answer.members.peer else answer.members.own
  }

  /** An answer before event `j` had the flag, and no event after it and before `n` starts the sweep over. */
  ghost predicate Stale(events: seq<Event>, answers: seq<Progress>, j: nat, n: nat, peer: bool)
    requires n <= |events| && n <= |answers|
  {
    exists m :: 0 <= m < j && m < n && Raised(answers[m], peer) && forall k :: m < k < n ==> !Resets(events[k])
  }

  /** A flag answered at event `i` is that of a listed member, unless an earlier answer left it
      behind or a helper joined while the inventory was walked. */
  ghost predicate Explained(own: int, peer: Option<int>, events: seq<Event>, answers: seq<Progress>, j: nat, i: nat)
    requires i < |events| && i < |answers| && answers[i].ReadyToRetire?
    requires j <= i && events[j].SweepOnce? && events[j].env.inventory.Some?
  {
    (forall k :: j < k <= i ==> !events[k].PeerJoined?) ==>
      var all, peers := events[j].env.inventory.value, PeersAfter(peer, events[..i + 1]);
      && (answers[i].members.own ==> Listed(all, own, peers, OwnGroup) || Stale(events, answers, j, i + 1, false))
      && (answers[i].members.peer ==> Listed(all, own, peers, PeerGroup) || Stale(events, answers, j, i + 1, true))
  }

  ghost predicate Authorised(own: int, peer: Option<int>, events: seq<Event>, answers: seq<Progress>, i: nat)
    requires i < |events| && i < |answers| && answers[i].ReadyToRetire?
  {
    && events[i].SweepOnce?
    && exists j :: Covers(own, peer, events, answers, j, i) && Explained(own, peer, events, answers, j, i)
  }

  /** A sweep that starts over, with its wait past, any anchor done and a short settled inventory. */
  ghost predicate Prompt(own: int, peer: Option<int>, start: nat, events: seq<Event>, i: nat)
    requires i < |events|
  {
    && events[i].SweepOnce? && events[i].env.anchor == AnchorDone && events[i].env.inventory.Some?
    && |events[i].env.inventory.value| < 128
    && Settled(events[i].env.inventory.value, own, PeersAfter(peer, events[..i + 1]))
    && (if i == 0 then events[i].env.now >= start
        else if events[i - 1].PeerDied? then events[i].env.now >= events[i - 1].now
        else events[i - 1].RetryLater? && events[i].env.now >= events[i - 1].now + 50)
  }

  /** The scan that is open, if any, is of the inventory event `j` opened. */
  ghost predicate Scanning(sweep: Sweep, events: seq<Event>, answers: seq<Progress>, j: nat)
    reads sweep
  {
    sweep.scan.Some? ==>
      && |answers| == |events| && j < |events| && events[j].SweepOnce?
      && events[j].env.inventory == Some(sweep.seen + sweep.scan.value)
      && (sweep.joined ==> exists k :: j < k < |events| && events[k].PeerJoined?)
      && (forall k :: j <= k < |events| ==> !Resets(events[k]) && !answers[k].ReadyToRetire?)
  }

  /** The flags that are set were left behind by answers before event `j`. */
  ghost predicate LeftBehind(flags: Reserved, events: seq<Event>, answers: seq<Progress>, j: nat)
    requires |answers| == |events|
  {
    && (flags.own ==> Stale(events, answers, j, |events|, false))
    && (flags.peer ==> Stale(events, answers, j, |events|, true))
  }

  /** Flags from before the scan that is open, or from before now, were left behind. */
  ghost predicate Trail(sweep: Sweep, events: seq<Event>, answers: seq<Progress>, j: nat)
    requires |answers| == |events|
    reads sweep
  {
    if sweep.scan.Some? then LeftBehind(sweep.carried, events, answers, j)
    else LeftBehind(sweep.reserved, events, answers, |events|)
  }

  lemma StaleMore(events: seq<Event>, answers: seq<Progress>, j: nat, upto: nat, peer: bool, e: Event, r: Progress)
    requires |answers| == |events| && Stale(events, answers, j, |events|, peer) && !Resets(e) && j <= upto
    ensures Stale(events + [e], answers + [r], upto, |events| + 1, peer)
  {
    var m :| 0 <= m < j && m < |events| && Raised(answers[m], peer)
             && forall k :: m < k < |events| ==> !Resets(events[k]);
    assert (answers + [r])[m] == answers[m];
    assert forall k :: m < k < |events| ==> (events + [e])[k] == events[k];
  }

  lemma LeftBehindMore(flags: Reserved, events: seq<Event>, answers: seq<Progress>, j: nat, upto: nat, e: Event,
                       r: Progress)
    requires |answers| == |events| && LeftBehind(flags, events, answers, j) && !Resets(e) && j <= upto
    ensures LeftBehind(flags, events + [e], answers + [r], upto)
  {
    hide Stale;
    if flags.own {
      StaleMore(events, answers, j, upto, false, e, r);
    }
    if flags.peer {
      StaleMore(events, answers, j, upto, true, e, r);
    }
  }

  lemma LeftBehindNow(events: seq<Event>, answers: seq<Progress>, e: Event, r: Progress)
    requires |answers| == |events| && r.ReadyToRetire?
    ensures LeftBehind(r.members, events + [e], answers + [r], |events| + 1)
  {
    hide Stale;
    if r.members.own {
      StaleNow(events, answers, false, e, r);
    }
    if r.members.peer {
      StaleNow(events, answers, true, e, r);
    }
  }

  lemma NoneLeftBehind(events: seq<Event>, answers: seq<Progress>, j: nat)
    requires |answers| == |events|
    ensures LeftBehind(Reserved(false, false), events, answers, j)
  {
  }

  lemma StaleNow(events: seq<Event>, answers: seq<Progress>, peer: bool, e: Event, r: Progress)
    requires |answers| == |events| && Raised(r, peer)
    ensures Stale(events + [e], answers + [r], |events| + 1, |events| + 1, peer)
  {
    assert (answers + [r])[|events|] == r;
  }

  /** Nothing is under way and the next scan may start at `at`. */
  ghost predicate StartsOver(sweep: Sweep, at: nat)
    reads sweep
  {
    sweep.scan.None? && !sweep.uncertain && !sweep.acted && sweep.retryAt == at
  }

  /** The answer to a scan that was open or is opened now. */
  lemma ExplainedNow(own: int, peer: Option<int>, past: seq<Event>, answers: seq<Progress>, e: Event, r: Progress,
                     j: nat, all: seq<Observation>, carried: Reserved, joined: bool)
    requires |answers| == |past| && j <= |past| && r.ReadyToRetire?
    requires (past + [e])[j].SweepOnce? && (past + [e])[j].env.inventory == Some(all)
    requires joined ==> exists k :: j < k < |past| && past[k].PeerJoined?
    requires !joined ==> Exact(all, own, PeersAfter(peer, past + [e]), carried, r.members)
    requires LeftBehind(carried, past + [e], answers + [r], j)
    ensures Explained(own, peer, past + [e], answers + [r], j, |past|)
  {
    hide Listed, Stale, PeersAfter;
    assert (past + [e])[..|past| + 1] == past + [e];
    if joined {
      var k :| j < k < |past| && past[k].PeerJoined?;
      assert (past + [e])[k].PeerJoined?;
    }
  }

  /** One event. `j` is where the scan that is open was opened. */
  method Take(sweep: Sweep, e: Event, ghost peer: Option<int>, ghost past: seq<Event>, ghost answers: seq<Progress>,
              ghost j: nat)
    returns (r: Progress, ghost next: nat)
    requires sweep.Valid() && |answers| == |past| && Scanning(sweep, past, answers, j) && Trail(sweep, past, answers, j)
    requires sweep.peers == PeersAfter(peer, past) && (e.PeerJoined? ==> sweep.peers.1.None?)
    modifies sweep
    ensures sweep.Valid() && sweep.peers == PeersAfter(peer, past + [e])
    ensures Scanning(sweep, past + [e], answers + [r], next) && Trail(sweep, past + [e], answers + [r], next)
    ensures r.ReadyToRetire? ==> e.SweepOnce? && Covers(sweep.own, peer, past + [e], answers + [r], next, |past|)
                                 && Explained(sweep.own, peer, past + [e], answers + [r], next, |past|)
    ensures e.PeerDied? ==> StartsOver(sweep, e.now)
    ensures e.RetryLater? ==> StartsOver(sweep, e.now + 50)
    ensures e.SweepOnce? && old(sweep.scan.None? && !sweep.uncertain && !sweep.acted)
            && e.env.now >= old(sweep.retryAt) && e.env.anchor == AnchorDone && e.env.inventory.Some?
            && |e.env.inventory.value| < 128 && Settled(e.env.inventory.value, sweep.own, sweep.peers) ==>
              r.ReadyToRetire?
  {
    hide Remembers, Census, Settled, Exact, LeftBehind, Explained;
    ghost var more := past + [e];
    assert more[..|past|] == past;
    next := j;
    r := Working;
    ghost var flags := if sweep.scan.Some? then sweep.carried else sweep.reserved;
    ghost var before := if sweep.scan.Some? then j else |past|;
    match e {
      case PeerDied(now) =>
        sweep.PeerGone(now);
        NoneLeftBehind(more, answers + [r], |more|);
      case PeerJoined(pid) =>
        LeftBehindMore(flags, past, answers, before, before, e, r);
        LeftBehindMore(flags, past, answers, before, |more|, e, r);
        sweep.AdditionalPeer(pid);
      case RetryLater(now) =>
        r := sweep.Retry(now);
        NoneLeftBehind(more, answers + [r], |more|);
      case SweepOnce(env) =>
        if sweep.scan.None? {
          next := |past|;
        }
        ghost var all;
        r, all := sweep.Step(env);
        assert more[..|past| + 1] == more;
        hide PeersAfter;
        assert forall k :: 0 <= k < |past| ==> more[k] == past[k] && (answers + [r])[k] == answers[k];
        NoneLeftBehind(more, answers + [r], |more|);
        LeftBehindMore(flags, past, answers, before, before, e, r);
        LeftBehindMore(flags, past, answers, before, |more|, e, r);
        if r.ReadyToRetire? {
          LeftBehindNow(past, answers, e, r);
          ExplainedNow(sweep.own, peer, past, answers, e, r, next, all, sweep.carried, sweep.joined);
        }
    }
  }

  /** What was authorised stays so, whatever follows. */
  lemma AuthorisedStays(own: int, peer: Option<int>, events: seq<Event>, answers: seq<Progress>, i: nat,
                        more: seq<Event>, all: seq<Progress>)
    requires i < |events| && i < |answers| && answers[i].ReadyToRetire? && events <= more && answers <= all
    requires Authorised(own, peer, events, answers, i)
    ensures Authorised(own, peer, more, all, i)
  {
    hide Census;
    var j :| Covers(own, peer, events, answers, j, i) && Explained(own, peer, events, answers, j, i);
    assert more[..i + 1] == events[..i + 1];
    assert forall k :: 0 <= k <= i ==> more[k] == events[k] && all[k] == answers[k];
    assert Covers(own, peer, more, all, j, i) && Explained(own, peer, more, all, j, i);
  }

  /** Over every interleaving of steps, retries, joining and dying helpers: retirement is only
      ever answered on one entire inventory that is a census, and is answered at once when a
      fresh scan of a short inventory finds nothing left to do. */
  method Run(own: int, peer: Option<int>, start: nat, events: seq<Event>) returns (answers: seq<Progress>)
    requires forall i :: 0 <= i < |events| && events[i].PeerJoined? ==> PeersAfter(peer, events[..i]).1.None?
    ensures |answers| == |events|
    ensures forall i :: 0 <= i < |events| && answers[i].ReadyToRetire? ==> Authorised(own, peer, events, answers, i)
    ensures forall i :: 0 <= i < |events| && Prompt(own, peer, start, events, i) ==> answers[i].ReadyToRetire?
  {
    var sweep := new Sweep(own, peer, start);
    answers := [];
    ghost var j := 0;
    for i := 0 to |events|
      invariant fresh(sweep) && sweep.Valid() && sweep.own == own && |answers| == i
      invariant sweep.peers == PeersAfter(peer, events[..i]) && Scanning(sweep, events[..i], answers, j)
      invariant Trail(sweep, events[..i], answers, j) && Settling(sweep, start, events, i)
      invariant forall k :: 0 <= k < i && answers[k].ReadyToRetire? ==> Authorised(own, peer, events, answers, k)
      invariant forall k :: 0 <= k < i && Prompt(own, peer, start, events, k) ==> answers[k].ReadyToRetire?
    {
      hide Census, Settled, Authorised, Scanning, Covers, Explained, Trail, PeersAfter;
      assert events[..i + 1] == events[..i] + [events[i]];
      ghost var past := answers;
      var answer;
      answer, j := Take(sweep, events[i], peer, events[..i], answers, j);
      answers := answers + [answer];
      forall k | 0 <= k <= i && answers[k].ReadyToRetire? ensures Authorised(own, peer, events, answers, k) {
        if k < i {
          AuthorisedStays(own, peer, events, past, k, events, answers);
        } else {
          NowAuthorised(own, peer, events, answers, j, i);
        }
      }
    }
  }

  /** Whoever a census lists in a place reserved for the helpers has its flag set. */
  lemma CensusFlags(all: seq<Observation>, own: int, peers: (Option<int>, Option<int>), reserved: Reserved)
    requires Census(all, own, peers, reserved)
    ensures Listed(all, own, peers, OwnGroup) ==> reserved.own
    ensures Listed(all, own, peers, PeerGroup) ==> reserved.peer
  {
    hide PlaceOf;
  }

  /** Where no earlier answer left a flag behind and no helper joined on the way, the flags are
      exactly those of the inventory: own if a listed process that is no helper is in the
      sweeper's group, peer if one is in a peer's. */
  lemma FlagsExact(own: int, peer: Option<int>, events: seq<Event>, answers: seq<Progress>, j: nat, i: nat)
    requires i < |events| && |answers| == |events| && answers[i].ReadyToRetire?
    requires Covers(own, peer, events, answers, j, i) && Explained(own, peer, events, answers, j, i)
    requires forall k :: j < k <= i ==> !events[k].PeerJoined?
    requires forall m :: 0 <= m < j && answers[m].ReadyToRetire? ==> exists k :: m < k < j && Resets(events[k])
    ensures answers[i].members ==
              Reserved(Listed(events[j].env.inventory.value, own, PeersAfter(peer, events[..i + 1]), OwnGroup),
                       Listed(events[j].env.inventory.value, own, PeersAfter(peer, events[..i + 1]), PeerGroup))
  {
    hide Listed, PeersAfter, Census;
    CensusFlags(events[j].env.inventory.value, own, PeersAfter(peer, events[..i + 1]), answers[i].members);
  }

  /** So they are for every sweep that starts over on a short settled inventory. */
  lemma PromptFlags(own: int, peer: Option<int>, start: nat, events: seq<Event>, answers: seq<Progress>, i: nat)
    requires i < |events| && |answers| == |events| && Prompt(own, peer, start, events, i) && answers[i].ReadyToRetire?
    requires forall k :: 0 <= k < |events| && answers[k].ReadyToRetire? ==> Authorised(own, peer, events, answers, k)
    ensures answers[i].members ==
              Reserved(Listed(events[i].env.inventory.value, own, PeersAfter(peer, events[..i + 1]), OwnGroup),
                       Listed(events[i].env.inventory.value, own, PeersAfter(peer, events[..i + 1]), PeerGroup))
  {
    hide Listed, PeersAfter, Census, Settled, Explained;
    assert Authorised(own, peer, events, answers, i);
    var j: nat :| Covers(own, peer, events, answers, j, i) && Explained(own, peer, events, answers, j, i);
    assert i > 0 ==> Resets(events[i - 1]);
    assert j == i;
    forall m | 0 <= m < j && answers[m].ReadyToRetire? ensures exists k :: m < k < j && Resets(events[k]) {
      assert Authorised(own, peer, events, answers, m);
      assert m != i - 1;
      assert m < i - 1 < j && Resets(events[i - 1]);
    }
    FlagsExact(own, peer, events, answers, j, i);
  }

  /** After an event that starts the sweep over, or none at all, nothing is under way. */
  ghost predicate Settling(sweep: Sweep, start: nat, events: seq<Event>, i: nat)
    requires i <= |events|
    reads sweep
  {
    && (i == 0 ==> StartsOver(sweep, start))
    && (i > 0 && events[i - 1].PeerDied? ==> StartsOver(sweep, events[i - 1].now))
    && (i > 0 && events[i - 1].RetryLater? ==> StartsOver(sweep, events[i - 1].now + 50))
  }

  lemma NowAuthorised(own: int, peer: Option<int>, events: seq<Event>, answers: seq<Progress>, j: nat, i: nat)
    requires i < |events| && |answers| == i + 1 && answers[i].ReadyToRetire? && events[i].SweepOnce?
    requires Covers(own, peer, events[..i + 1], answers, j, i) && Explained(own, peer, events[..i + 1], answers, j, i)
    ensures Authorised(own, peer, events, answers, i)
  {
    assert Authorised(own, peer, events[..i + 1], answers, i);
    AuthorisedStays(own, peer, events[..i + 1], answers, i, events, answers);
  }
}
