/** Normal TERM/KILL of a workload: the direct signal, the anchors that confirm the
    pinned groups, and the escalation backstop (helpers/guardian/src/cancellation.rs,
    helpers/guardian/src/anchor.rs). */
module Cancellation {
  import opened Wrappers

  /** The two requests a guardian makes of its workload. */
  datatype Signal = Term | Kill

  // ----- anchors: a short-lived member of one process group

  datatype AnchorState = Joining | Pinned | Rejected | Finished

  datatype Anchor = Anchor(group: int, state: AnchorState, termApplied: bool,
                           wanted: Option<Signal>, sent: Option<Signal>)

  /** A frame from the anchor's member process. */
  datatype Report = Greeting(verified: bool) | Applied(group: int, signal: Signal) | Unexpected

  /** What happens around one anchor tick: the frames that arrive, whether the stream fails
      after them, whether there is room to queue a command, and what waiting for the child says. */
  datatype AnchorTick = AnchorTick(reports: seq<Report>, streamFails: bool, queueFails: bool,
                                   waitFails: bool, exited: bool)

  function NewAnchor(group: int): Anchor {
    Anchor(group, Joining, false, None, None)
  }

  /** KILL is never taken back. */
  function Asked(a: Anchor, signal: Signal): Anchor {
    if a.wanted == Some(Kill) then a else a.(wanted := Some(signal))
  }

  datatype Ticked = Ticked(anchor: Anchor, ok: bool)

  /** Only a pinned anchor that was told to signal can confirm TERM for its own group. */
  function Told(a: Anchor, r: Report): Ticked {
    match r
    case Greeting(verified) => Ticked(a.(state := if verified then Pinned else Rejected), true)
    case Applied(group, signal) =>
      if a.state == Pinned && a.sent.Some? && group == a.group && signal == Term
      then Ticked(a.(termApplied := true), true) else Ticked(a, false)
    case Unexpected => Ticked(a, false)
  }

  function Lesser(a: nat, b: nat): nat {
    if a <= b then a else b
  }

  /** The first `n` reports are greetings. */
  predicate AllGreet(reports: seq<Report>, n: nat)
    requires n <= |reports|
  {
    forall i :: 0 <= i < n ==> reports[i].Greeting?
  }

  /** At most eight reports are heard, up to one that does not belong. */
  method HearAll(a: Anchor, reports: seq<Report>) returns (r: Ticked)
    requires a.state != Finished
    ensures Steps(a, r.anchor) && r.anchor.sent == a.sent && r.anchor.wanted == a.wanted
    ensures r.anchor.termApplied ==> a.termApplied || Applied(a.group, Term) in reports
    ensures r.anchor.state != Finished
    ensures reports == [] ==> r == Ticked(a, true)
    ensures |reports| == 1 ==> r == Told(a, reports[0])
    ensures AllGreet(reports, Lesser(8, |reports|)) ==> r.ok
    ensures reports != [] && AllGreet(reports, Lesser(8, |reports|)) ==>
              r.anchor.state == if reports[Lesser(8, |reports|) - 1].verified then Pinned else Rejected
    ensures reports != [] && Told(a, reports[0]).anchor.termApplied ==> r.anchor.termApplied
  {
    r := Ticked(a, true);
    var i := 0;
    while i < 8 && i < |reports| && r.ok
      invariant i <= |reports| && Steps(a, r.anchor) && r.anchor.sent == a.sent && r.anchor.wanted == a.wanted
      invariant r.anchor.termApplied ==> a.termApplied || Applied(a.group, Term) in reports
      invariant r.anchor.state != Finished
      invariant AllGreet(reports, i) ==>
                  r.ok && (i > 0 ==> r.anchor.state == if reports[i - 1].verified then Pinned else Rejected)
      invariant i < 8 && i < |reports| && !r.ok ==> !AllGreet(reports, i)
      invariant i <= 8
      invariant if i == 0 then r == Ticked(a, true)
                else (i == 1 ==> r == Told(a, reports[0])) &&
                     (Told(a, reports[0]).anchor.termApplied ==> r.anchor.termApplied)
      decreases 8 - i
    {
      r := Told(r.anchor, reports[i]);
      i := i + 1;
    }
  }

  /** One anchor tick: listen, pass a changed command on once pinned, reap. */
  method TickAnchor(a: Anchor, env: AnchorTick) returns (r: Ticked)
    requires AnchorOk(a)
    ensures AnchorOk(r.anchor) && Answers(a, env, r)
  {
    if a.state == Finished {
      return Ticked(a, true);
    }
    r := HearAll(a, env.reports);
    if !r.ok || env.streamFails {
      return Ticked(r.anchor, false);
    }
    var now := r.anchor;
    if now.state == Pinned && now.wanted != now.sent && now.wanted.Some? {
      if env.queueFails {
        return Ticked(now, false);
      }
      now := now.(sent := now.wanted);
    }
    if env.waitFails {
      return Ticked(now, false);
    }
    return Ticked(if env.exited then now.(state := Finished) else now, true);
  }

  /** What a tick may and must do to an anchor. */
  ghost predicate Answers(a: Anchor, env: AnchorTick, r: Ticked) {
    var b := r.anchor;
    && Steps(a, b) && b.wanted == a.wanted
    && (a.state == Finished ==> r == Ticked(a, true))
    // A command is passed on at most once, and never after KILL.
    && (b.sent == a.sent || (b.sent == a.wanted && a.sent != Some(Kill)))
    && (b.termApplied ==> a.termApplied || Applied(a.group, Term) in env.reports)
    && (b.state == Finished ==> a.state == Finished || env.exited)
    // A tick without a failure reaps the child that exited and tells a pinned one what is wanted.
    && (a.state != Finished && r.ok ==> (b.state == Finished <==> env.exited))
    && (r.ok && b.state == Pinned && a.wanted.Some? ==> b.sent == a.wanted)
    // The member's last greeting of eight pins or rejects it, and its word that TERM was sent is taken.
    && (a.state != Finished && !Fails(env) && env.reports != [] && AllGreet(env.reports, Lesser(8, |env.reports|)) ==>
          r.ok && (!env.exited ==> b.state == if env.reports[Lesser(8, |env.reports|) - 1].verified
                                              then Pinned else Rejected))
    && (a.state == Pinned && a.sent.Some? && !Fails(env) && env.reports == [Applied(a.group, Term)] ==> r.ok)
    && (a.state == Pinned && a.sent.Some? && env.reports != [] && env.reports[0] == Applied(a.group, Term) ==>
          b.termApplied)
    && (a.state != Finished && !Fails(env) && env.reports == [] ==>
          r.ok && (!env.exited ==> b.state == a.state))
  }

  predicate Fails(env: AnchorTick) {
    env.streamFails || env.queueFails || env.waitFails
  }

  /** A command that was passed on was asked for, and KILL stays. */
  ghost predicate AnchorOk(a: Anchor) {
    && (a.sent.Some? ==> a.wanted.Some?)
    && (a.sent == Some(Kill) ==> a.wanted == Some(Kill))
    && (a.termApplied ==> a.sent.Some?)
  }

  /** An anchor keeps its group, confirms TERM only after it was told to signal, never joins
      again and never comes back once finished. Its member's last word decides between pinned
      and rejected. */
  ghost predicate Steps(a: Anchor, b: Anchor) {
    && b.group == a.group
    && (a.termApplied ==> b.termApplied)
    && (b.termApplied && !a.termApplied ==> a.sent.Some?)
    && (b.state == Joining ==> a.state == Joining)
    && (a.state == Finished ==> b.state == Finished)
  }

  // ----- cancellation

  /** Whether the guardian's own escalation deadline has passed; time does not run backwards. */
  predicate BackstopDue(termAt: Option<nat>, grace: nat, now: nat) {
    termAt.Some? && (if now >= termAt.value then now - termAt.value else 0) >= grace
  }

  datatype Delivery = Delivered | Gone | SignalFails

  /** What happens around one tick. */
  datatype Environment = Environment(
    now: nat, cleaning: bool, anchors: seq<AnchorTick>, signal: Delivery,
    pid: int, reaped: bool, foreground: int, starts: (bool, bool))

  /** The signals sent to the workload are a subsequence of TERM, KILL, each at most once. */
  predicate Legal(signals: seq<Signal>) {
    signals == [] || signals == [Term] || signals == [Kill] || signals == [Term, Kill]
  }

  function Last(signals: seq<Signal>): Option<Signal> {
    if signals == [] then None else Some(signals[|signals| - 1])
  }

  /** At most two anchors, for distinct real groups. */
  ghost predicate AnchorsOk(anchors: seq<Anchor>) {
    && |anchors| <= 2
    && (forall i :: 0 <= i < |anchors| ==> AnchorOk(anchors[i]) && anchors[i].group > 0)
    && (forall i, j :: 0 <= i < j < |anchors| ==> anchors[i].group != anchors[j].group)
  }

  datatype State = State(
    anchors: seq<Anchor>, requested: Option<Signal>, applied: Option<Signal>, termAt: Option<nat>, grace: nat,
    resample: bool, retryAt: nat, termDirect: bool, termTargets: Option<(int, int)>, termGroups: (bool, bool),
    termReported: bool, escalationApplied: bool)

  /** What has happened so far: signals sent and whether each arrived, groups whose anchor
      confirmed TERM, acknowledgements and escalations reported. */
  datatype History = History(signals: seq<Signal>, direct: bool, confirmed: set<int>,
                             acknowledged: nat, escalated: nat)

  /** Nothing that happened is forgotten, and nothing was reported meanwhile. */
  ghost predicate Grown(h: History, more: History) {
    && h.signals <= more.signals && h.confirmed <= more.confirmed
    && more.acknowledged == h.acknowledged && more.escalated == h.escalated && (h.direct ==> more.direct)
  }

  /** One signal more or none; TERM is known to have arrived only if the system said so. */
  ghost predicate Sends(h: History, more: History, sent: Option<Signal>, delivery: Delivery) {
    && more.signals == h.signals + (if sent.Some? then [sent.value] else [])
    && (more.direct ==> h.direct || (sent == Some(Term) && delivery == Delivered))
  }

  ghost predicate SignalsOk(s: State, h: History) {
    && Legal(h.signals)
    && s.applied == Last(h.signals)
    && (s.applied.Some? ==> s.requested.Some?)
    && (s.applied == Some(Kill) ==> s.requested == Some(Kill))
    && (s.termAt.Some? <==> Term in h.signals)
  }

  ghost predicate ReportsOk(s: State, h: History) {
    && h.escalated + (if s.escalationApplied then 1 else 0) <= (if h.signals == [Term, Kill] then 1 else 0)
    && h.acknowledged == (if s.termReported then 1 else 0)
    && (s.termDirect ==> h.direct) && (h.direct ==> Term in h.signals)
    && (s.termTargets.Some? ==> Term in h.signals)
    && (s.termGroups.0 ==> s.termTargets.Some? && s.termTargets.value.0 in h.confirmed)
    && (s.termGroups.1 ==> s.termTargets.Some? && s.termTargets.value.1 in h.confirmed)
  }

  ghost predicate Ok(s: State, h: History) {
    SignalsOk(s, h) && ReportsOk(s, h) && AnchorsOk(s.anchors)
  }

  /** Every live anchor has been asked for the signal last sent to the workload. */
  ghost predicate Instructed(anchors: seq<Anchor>, applied: Option<Signal>) {
    forall i :: 0 <= i < |anchors| ==> anchors[i].wanted == applied
  }

  /** A group whose live anchor confirmed TERM has been noted. */
  ghost predicate Witnessed(anchors: seq<Anchor>, confirmed: set<int>) {
    forall i :: 0 <= i < |anchors| && anchors[i].termApplied ==> anchors[i].group in confirmed
  }

  /** Some member reports that it sent TERM to this group. */
  ghost predicate Reports(envs: seq<AnchorTick>, group: int) {
    exists k :: 0 <= k < |envs| && Applied(group, Term) in envs[k].reports
  }

  /** What was noted since was reported. */
  ghost predicate Sourced(before: set<int>, after: set<int>, envs: seq<AnchorTick>) {
    forall g :: g in after ==> g in before || Reports(envs, g)
  }

  /** An anchor that confirmed TERM confirms the targets with its group. */
  function Confirm(s: State, a: Anchor): State {
    if a.termApplied && s.termTargets.Some? then
      s.(termGroups := (s.termGroups.0 || s.termTargets.value.0 == a.group,
                        s.termGroups.1 || s.termTargets.value.1 == a.group))
    else s
  }

  function Witness(h: History, a: Anchor): History {
    if a.termApplied then h.(confirmed := h.confirmed + {a.group}) else h
  }

  lemma ConfirmOk(s: State, h: History, a: Anchor)
    requires Ok(s, h)
    ensures Ok(Confirm(s, a), Witness(h, a))
  {
  }

  /** Every anchor of these was ticked once. */
  ghost predicate AllTicked(anchors: seq<Anchor>, envs: seq<AnchorTick>, ticks: seq<Ticked>) {
    |ticks| == |anchors| <= |envs| && forall i :: 0 <= i < |ticks| ==> Answers(anchors[i], envs[i], ticks[i])
  }

  function Unfinished(ticks: seq<Ticked>): seq<Anchor> {
    if ticks == [] then []
    else
      var last := ticks[|ticks| - 1].anchor;
      Unfinished(ticks[..|ticks| - 1]) + if last.state != Finished then [last] else []
  }

  /** A target is confirmed exactly if it was before, or an anchor of its group has confirmed it. */
  ghost predicate Counted(was: (bool, bool), now: (bool, bool), targets: (int, int), ticks: seq<Ticked>) {
    && (now.0 <==> was.0 || Confirms(ticks, targets.0))
    && (now.1 <==> was.1 || Confirms(ticks, targets.1))
  }

  predicate Confirms(ticks: seq<Ticked>, group: int) {
    exists i :: 0 <= i < |ticks| && ticks[i].anchor.termApplied && ticks[i].anchor.group == group
  }

  lemma ConfirmsMore(ticks: seq<Ticked>, r: Ticked, group: int)
    ensures Confirms(ticks + [r], group) <==>
              Confirms(ticks, group) || (r.anchor.termApplied && r.anchor.group == group)
  {
    var more := ticks + [r];
    assert more[|ticks|] == r;
    if Confirms(ticks, group) {
      var i :| 0 <= i < |ticks| && ticks[i].anchor.termApplied && ticks[i].anchor.group == group;
      assert more[i] == ticks[i];
    }
  }

  lemma NoneTicked(s: State, envs: seq<AnchorTick>)
    ensures AllTicked(s.anchors[..0], envs, []) && Unfinished([]) == []
    ensures s.termTargets.Some? ==> Counted(s.termGroups, s.termGroups, s.termTargets.value, [])
  {
  }

  lemma OneTicked(anchors: seq<Anchor>, envs: seq<AnchorTick>, i: nat, ticks: seq<Ticked>, r: Ticked,
                  start: State, now: State)
    requires i < |anchors| <= |envs| && |ticks| == i && AllTicked(anchors[..i], envs, ticks)
    requires Answers(anchors[i], envs[i], r) && now == start.(termGroups := now.termGroups)
    requires start.termTargets.Some? ==> Counted(start.termGroups, now.termGroups, start.termTargets.value, ticks)
    ensures AllTicked(anchors[..i + 1], envs, ticks + [r])
    ensures Unfinished(ticks + [r]) == Unfinished(ticks) + if r.anchor.state != Finished then [r.anchor] else []
    ensures start.termTargets.Some? ==>
              Counted(start.termGroups, Confirm(now, r.anchor).termGroups, start.termTargets.value, ticks + [r])
    ensures (exists k :: 0 <= k < i + 1 && !(ticks + [r])[k].ok) <==> (exists k :: 0 <= k < i && !ticks[k].ok) || !r.ok
  {
    var more := ticks + [r];
    assert more[..i] == ticks && more[i] == r;
    hide Answers;
    if start.termTargets.Some? {
      ConfirmsMore(ticks, r, start.termTargets.value.0);
      ConfirmsMore(ticks, r, start.termTargets.value.1);
    }
    hide Confirms;
    forall k | 0 <= k < i + 1 ensures Answers(anchors[..i + 1][k], envs[k], more[k]) {
      if k < i {
        assert Answers(anchors[..i][k], envs[k], ticks[k]);
      }
    }
    assert forall k :: 0 <= k < i ==> more[k] == ticks[k];
  }

  lemma AnswersBasics(a: Anchor, env: AnchorTick, r: Ticked)
    requires Answers(a, env, r)
    ensures r.anchor.group == a.group && r.anchor.wanted == a.wanted
    ensures r.anchor.termApplied ==> a.termApplied || Applied(a.group, Term) in env.reports
  {
  }

  /** The anchors kept out of the first `i`: live, in order, clear of the rest. */
  ghost predicate Kept(kept: seq<Anchor>, anchors: seq<Anchor>, i: nat) {
    && AnchorsOk(kept) && |kept| <= i <= |anchors|
    && (forall k :: 0 <= k < |kept| ==> kept[k].state != Finished)
    && (forall k, j :: 0 <= k < |kept| && i <= j < |anchors| ==> kept[k].group != anchors[j].group)
  }

  lemma KeptOk(kept: seq<Anchor>, anchors: seq<Anchor>, i: nat)
    requires Kept(kept, anchors, i)
    ensures AnchorsOk(kept) && |kept| <= |anchors|
    ensures forall k :: 0 <= k < |kept| ==> kept[k].state != Finished
  {
  }

  lemma KeepNext(kept: seq<Anchor>, anchors: seq<Anchor>, i: nat, a: Anchor)
    requires Kept(kept, anchors, i) && AnchorsOk(anchors) && i < |anchors|
    requires AnchorOk(a) && a.group == anchors[i].group
    ensures Kept(kept, anchors, i + 1)
    ensures a.state != Finished ==> Kept(kept + [a], anchors, i + 1)
  {
  }

  function AskAll(anchors: seq<Anchor>, signal: Signal): (asked: seq<Anchor>)
    ensures |asked| == |anchors|
  {
    seq(|anchors|, i requires 0 <= i < |anchors| => Asked(anchors[i], signal))
  }

  /** Sending `signal` to the workload, with what the system said. */
  function Dispatched(s: State, signal: Signal, delivery: Delivery, now: nat, cleaning: bool): State {
    var s1 := if signal == Term && !delivery.SignalFails? then s.(termDirect := delivery == Delivered)
              else if signal == Kill && delivery == Delivered && s.applied == Some(Term) && !cleaning
              then s.(escalationApplied := true) else s;
    var s2 := s1.(anchors := AskAll(s.anchors, signal));
    var s3 := if signal == Term then s2.(termAt := Some(now)) else s2;
    s3.(resample := true, applied := Some(signal))
  }

  function Sent(h: History, signal: Signal, delivery: Delivery): History {
    h.(signals := h.signals + [signal],
       direct := if signal == Term && !delivery.SignalFails? then delivery == Delivered else h.direct)
  }

  lemma AskedOk(anchors: seq<Anchor>, signal: Signal)
    requires AnchorsOk(anchors)
    ensures AnchorsOk(AskAll(anchors, signal))
  {
  }

  lemma DispatchSignals(s: State, h: History, signal: Signal, delivery: Delivery, now: nat, cleaning: bool)
    requires SignalsOk(s, h) && s.requested == Some(signal) && s.applied != s.requested
    ensures SignalsOk(Dispatched(s, signal, delivery, now, cleaning), Sent(h, signal, delivery))
    ensures signal == Term ==> h.signals == []
    ensures signal == Kill ==> h.signals == (if s.applied == Some(Term) then [Term] else [])
  {
    hide AskAll;
  }

  lemma DispatchReports(s: State, h: History, signal: Signal, delivery: Delivery, now: nat, cleaning: bool)
    requires ReportsOk(s, h)
    requires signal == Term ==> h.signals == []
    requires signal == Kill ==> h.signals == (if s.applied == Some(Term) then [Term] else [])
    ensures ReportsOk(Dispatched(s, signal, delivery, now, cleaning), Sent(h, signal, delivery))
    ensures Grown(h, Sent(h, signal, delivery))
  {
    hide AskAll;
  }

  lemma DispatchOk(s: State, h: History, signal: Signal, delivery: Delivery, now: nat, cleaning: bool)
    requires Ok(s, h) && s.requested == Some(signal) && s.applied != s.requested
    ensures Ok(Dispatched(s, signal, delivery, now, cleaning), Sent(h, signal, delivery))
    ensures Grown(h, Sent(h, signal, delivery))
  {
    hide AnchorsOk, SignalsOk, ReportsOk, AskAll, Sent;
    AskedOk(s.anchors, signal);
    DispatchSignals(s, h, signal, delivery, now, cleaning);
    DispatchReports(s, h, signal, delivery, now, cleaning);
  }

  lemma DispatchInstructs(s: State, h: History, signal: Signal)
    requires Ok(s, h) && Instructed(s.anchors, s.applied) && s.requested == Some(signal) && s.applied != s.requested
    requires Witnessed(s.anchors, h.confirmed)
    ensures Instructed(AskAll(s.anchors, signal), Some(signal)) && Witnessed(AskAll(s.anchors, signal), h.confirmed)
  {
  }

  /** Start an anchor for a group that has none, if there is room. */
  function Anchored(anchors: seq<Anchor>, group: int, signal: Option<Signal>): seq<Anchor> {
    var a := NewAnchor(group);
    anchors + [if signal.Some? then Asked(a, signal.value) else a]
  }

  predicate Watched(anchors: seq<Anchor>, group: int) {
    exists i :: 0 <= i < |anchors| && anchors[i].group == group
  }

  function Started(anchors: seq<Anchor>, group: int, starts: bool, signal: Option<Signal>): seq<Anchor> {
    if group > 0 && !Watched(anchors, group) && |anchors| < 2 && starts then Anchored(anchors, group, signal)
    else anchors
  }

  /** Nobody is dropped; who is added watches one of the two groups, has yet to join and is asked
      for the signal; and a group that can be watched is, unless two anchors are at work already. */
  ghost predicate Sampled(was: seq<Anchor>, now: seq<Anchor>, env: Environment, signal: Option<Signal>) {
    && was <= now
    && (forall i :: |was| <= i < |now| ==>
          && now[i] == Anchor(now[i].group, Joining, false, signal, None)
          && now[i].group in {env.pid, env.foreground})
    && (env.pid > 0 && env.starts.0 ==> Watched(now, env.pid) || |was| >= 2)
    && (env.foreground > 0 && env.starts.1 ==> Watched(now, env.foreground) || |now| >= 2)
    && (was == [] && env.pid > 0 && env.foreground > 0 && env.starts == (true, true) ==>
          && now[0].group == env.pid && |now| == (if env.pid == env.foreground then 1 else 2)
          && (|now| == 2 ==> now[1].group == env.foreground))
  }

  lemma WatchedMore(anchors: seq<Anchor>, group: int, signal: Option<Signal>)
    ensures Watched(Anchored(anchors, group, signal), group)
    ensures forall g :: Watched(anchors, g) ==> Watched(Anchored(anchors, group, signal), g)
    ensures forall g :: Watched(Anchored(anchors, group, signal), g) ==> g == group || Watched(anchors, g)
  {
    var more := Anchored(anchors, group, signal);
    assert more[|anchors|].group == group;
    forall g | Watched(anchors, g) ensures Watched(more, g) {
      var i :| 0 <= i < |anchors| && anchors[i].group == g;
      assert more[i].group == g;
    }
  }

  lemma SampledBoth(was: seq<Anchor>, env: Environment, signal: Option<Signal>)
    ensures Sampled(was, Started(Started(was, env.pid, env.starts.0, signal), env.foreground, env.starts.1, signal),
                    env, signal)
  {
    var first := Started(was, env.pid, env.starts.0, signal);
    WatchedMore(was, env.pid, signal);
    WatchedMore(first, env.foreground, signal);
    if was == [] {
      assert !Watched(was, env.pid);
    }
  }

  lemma AnchoredOk(anchors: seq<Anchor>, group: int, signal: Option<Signal>)
    requires AnchorsOk(anchors) && |anchors| < 2 && group > 0 && !Watched(anchors, group)
    ensures AnchorsOk(Anchored(anchors, group, signal))
    ensures Instructed(anchors, signal) ==> Instructed(Anchored(anchors, group, signal), signal)
    ensures forall confirmed :: Witnessed(anchors, confirmed) ==> Witnessed(Anchored(anchors, group, signal), confirmed)
  {
  }

  lemma NoneKept(anchors: seq<Anchor>, applied: Option<Signal>)
    ensures Kept([], anchors, 0) && Instructed([], applied)
  {
  }

  lemma NoneWitnessed(confirmed: set<int>, envs: seq<AnchorTick>)
    ensures Witnessed([], confirmed) && Sourced(confirmed, confirmed, envs)
  {
  }

  lemma WitnessedNext(kept: seq<Anchor>, anchors: seq<Anchor>, i: nat, before: set<int>, past: History, a: Anchor,
                      envs: seq<AnchorTick>)
    requires Witnessed(kept, past.confirmed) && Witnessed(anchors, before) && i < |anchors| && i < |envs|
    requires Sourced(before, past.confirmed, envs) && a.group == anchors[i].group
    requires a.termApplied ==> anchors[i].termApplied || Applied(a.group, Term) in envs[i].reports
    ensures Witnessed(kept, Witness(past, a).confirmed) && Witnessed(kept + [a], Witness(past, a).confirmed)
    ensures Sourced(before, Witness(past, a).confirmed, envs)
  {
  }

  lemma InstructedNext(kept: seq<Anchor>, anchors: seq<Anchor>, i: nat, applied: Option<Signal>, a: Anchor)
    requires Instructed(kept, applied) && Instructed(anchors, applied) && i < |anchors| && a.wanted == anchors[i].wanted
    ensures Instructed(kept + [a], applied)
  {
  }

  lemma EachAnchorOk(anchors: seq<Anchor>, i: nat)
    requires AnchorsOk(anchors) && i < |anchors|
    ensures AnchorOk(anchors[i]) && anchors[i].group > 0
  {
  }

  lemma AnchorsSwap(s: State, h: History, anchors: seq<Anchor>)
    requires Ok(s, h) && AnchorsOk(anchors)
    ensures Ok(s.(anchors := anchors), h)
  {
  }

  lemma TargetsOk(s: State, h: History, targets: (int, int))
    requires Ok(s, h) && s.applied == Some(Term) && s.termTargets.None?
    ensures Ok(s.(termTargets := Some(targets)), h)
  {
    assert Term in h.signals;
  }

  lemma TimingOk(s: State, h: History, resample: bool, retryAt: nat)
    requires Ok(s, h)
    ensures Ok(s.(resample := resample, retryAt := retryAt), h)
  {
  }

  lemma AtMostTwo(s: State, h: History)
    requires Ok(s, h)
    ensures |s.anchors| <= 2
  {
  }

  lemma AppliedWasRequested(s: State, h: History)
    requires Ok(s, h)
    ensures s.applied.Some? ==> s.requested.Some?
  {
  }

  /** A foreground group that is neither missing nor a helper's. */
  predicate Suitable(foreground: int, sid: int, guardian: int) {
    foreground >= 0 && foreground != sid && foreground != guardian
  }

  /** The groups were looked at: the targets of TERM are fixed the first time, missing anchors are
      started, and the next look is 10 ms later, if KILL has not ended the workload yet. */
  ghost predicate Looked(was: State, now: State, env: Environment) {
    && now.termTargets == (if was.requested == Some(Term) && was.termTargets.None?
                           then Some((env.pid, env.foreground)) else was.termTargets)
    && Sampled(was.anchors, now.anchors, env, was.requested)
    && now.resample == (was.requested == Some(Kill) && !env.reaped) && now.retryAt == env.now + 10
  }

  /** What the first half of a turn does to the anchors and to what may be reported. */
  ghost predicate Settled(was: State, now: State, env: Environment, sent: Option<Signal>, ticks: seq<Ticked>) {
    var left := Unfinished(ticks);
    && AllTicked(was.anchors, env.anchors, ticks)
    && (was.termTargets.Some? ==> Counted(was.termGroups, now.termGroups, was.termTargets.value, ticks))
    && now.anchors == (if sent.Some? then AskAll(left, sent.value) else left)
    && now.termTargets == was.termTargets && now.retryAt == was.retryAt
    && now.resample == (was.resample || sent.Some?)
    && now.termDirect == (if sent == Some(Term) && !env.signal.SignalFails? then env.signal == Delivered
                          else was.termDirect)
    && now.escalationApplied ==
         (was.escalationApplied ||
          (sent == Some(Kill) && env.signal == Delivered && was.applied == Some(Term) && !env.cleaning))
  }

  lemma SettledFrom(was: State, ticked: State, asking: State, now: State, env: Environment, sent: Option<Signal>,
                    ticks: seq<Ticked>)
    requires AllTicked(was.anchors, env.anchors, ticks)
    requires was.termTargets.Some? ==> Counted(was.termGroups, ticked.termGroups, was.termTargets.value, ticks)
    requires ticked == was.(anchors := Unfinished(ticks), termGroups := ticked.termGroups)
    requires asking == ticked.(requested := asking.requested) && Passed(asking, now, sent, env)
    requires now.termTargets == was.termTargets
    ensures Settled(was, now, env, sent, ticks)
  {
    hide AllTicked, Counted, Unfinished, AskAll;
  }

  lemma SettledTargets(was: State, now: State, env: Environment, sent: Option<Signal>, ticks: seq<Ticked>)
    requires Settled(was, now, env, sent, ticks)
    ensures now.termTargets == was.termTargets
  {
    hide AllTicked, Counted, Unfinished, AskAll;
  }

  /** What a turn does: its first half, and then, unless it is cleaning up or not yet due, a look
      at the groups. */
  ghost predicate Turned(was: State, now: State, env: Environment, sent: Option<Signal>, ticks: seq<Ticked>,
                         sid: int, guardian: int) {
    exists told ::
      && Settled(was, told, env, sent, ticks) && told.requested == now.requested
      && now == told.(anchors := now.anchors, termTargets := now.termTargets, resample := now.resample,
                      retryAt := now.retryAt)
      && (if !env.cleaning && told.resample && env.now >= told.retryAt && Suitable(env.foreground, sid, guardian)
          then Looked(told, now, env) else now == told.(resample := !env.cleaning && told.resample))
  }

  lemma TurnedFrom(was: State, told: State, now: State, env: Environment, sent: Option<Signal>, ticks: seq<Ticked>,
                   sid: int, guardian: int)
    requires Settled(was, told, env, sent, ticks)
    requires if env.cleaning then now == told.(resample := false)
             else if told.resample && env.now >= told.retryAt && Suitable(env.foreground, sid, guardian)
             then Looked(told, now, env)
                  && now == told.(anchors := now.anchors, termTargets := now.termTargets, resample := now.resample,
                                  retryAt := now.retryAt)
             else now == told
    ensures Turned(was, now, env, sent, ticks, sid, guardian)
  {
    hide Settled, Looked, Suitable;
  }

  /** The state after whatever is requested has been sent, and what happened then. */
  function Resolved(s: State, env: Environment): State {
    if s.requested == s.applied || s.requested.None? then s
    else Dispatched(s, s.requested.value, env.signal, env.now, env.cleaning)
  }

  function Recorded(h: History, s: State, env: Environment): History {
    if s.requested == s.applied || s.requested.None? then h else Sent(h, s.requested.value, env.signal)
  }

  lemma ResolvedFacts(s: State, h: History, env: Environment, t: State, g: History)
    requires Ok(s, h) && t == Resolved(s, env) && g == Recorded(h, s, env)
    ensures t.applied == t.requested == s.requested && Grown(h, g) && g.confirmed == h.confirmed
    ensures t.termTargets == s.termTargets && t.grace == s.grace && t.termReported == s.termReported
    ensures |t.anchors| == |s.anchors|
    ensures t.termAt == if t.applied == Some(Term) && s.applied != Some(Term) then Some(env.now) else s.termAt
    ensures Sends(h, g, if t.applied != s.applied then t.applied else None, env.signal)
    ensures Passed(s, t, if t.applied != s.applied then t.applied else None, env)
  {
    hide AnchorsOk, SignalsOk, ReportsOk, Dispatched, Sent;
    AppliedWasRequested(s, h);
    if s.requested != s.applied {
      DispatchOk(s, h, s.requested.value, env.signal, env.now, env.cleaning);
      hide Ok;
      DispatchedFields(s, s.requested.value, env);
      SentFields(h, s.requested.value, env.signal);
    }
  }

  lemma DispatchedFields(s: State, signal: Signal, env: Environment)
    ensures var t := Dispatched(s, signal, env.signal, env.now, env.cleaning);
            && t.applied == Some(signal) && t.requested == s.requested
            && t.anchors == AskAll(s.anchors, signal) && |t.anchors| == |s.anchors|
            && t.termTargets == s.termTargets && t.grace == s.grace && t.termReported == s.termReported
            && (t.termAt == if signal == Term then Some(env.now) else s.termAt)
            && Passed(s, t, Some(signal), env)
  {
    hide AskAll;
  }

  /** What sending a signal, or none, leaves behind: every anchor is asked for it and the groups are
      looked at again; TERM is direct if it was delivered, and a KILL that is delivered after TERM
      and not while cleaning up is an escalation. */
  ghost predicate Passed(s: State, t: State, sent: Option<Signal>, env: Environment) {
    && t.resample == (s.resample || sent.Some?) && t.retryAt == s.retryAt && t.termGroups == s.termGroups
    && t.anchors == (if sent.Some? then AskAll(s.anchors, sent.value) else s.anchors)
    && t.termDirect == (if sent == Some(Term) && !env.signal.SignalFails? then env.signal == Delivered
                        else s.termDirect)
    && t.escalationApplied ==
         (s.escalationApplied ||
          (sent == Some(Kill) && env.signal == Delivered && s.applied == Some(Term) && !env.cleaning))
  }

  lemma SentFields(h: History, signal: Signal, delivery: Delivery)
    ensures Sent(h, signal, delivery).confirmed == h.confirmed
    ensures Sends(h, Sent(h, signal, delivery), Some(signal), delivery)
  {
  }

  lemma SendsFrom(h: History, g: History, more: History, sent: Option<Signal>, delivery: Delivery)
    requires g == h.(confirmed := g.confirmed) && Sends(g, more, sent, delivery)
    ensures Sends(h, more, sent, delivery)
  {
  }

  /** Send the signal to the workload and every anchor, and note what the system said. */
  method Signalled(s: State, signal: Signal, env: Environment) returns (now: State)
    ensures now == Dispatched(s, signal, env.signal, env.now, env.cleaning)
  {
    hide AskAll;
    now := s;
    if signal == Term && !env.signal.SignalFails? {
      now := now.(termDirect := env.signal == Delivered);
    } else if signal == Kill && env.signal == Delivered && s.applied == Some(Term) && !env.cleaning {
      now := now.(escalationApplied := true);
    }
    now := now.(anchors := AskAll(s.anchors, signal));
    if signal == Term {
      now := now.(termAt := Some(env.now));
    }
    now := now.(resample := true, applied := Some(signal));
  }

  class Canceller {
    const sid: int
    const guardian: int
    var s: State
    ghost var h: History

    ghost predicate Valid()
      reads this
    {
      Ok(s, h) && Instructed(s.anchors, s.applied) && Witnessed(s.anchors, h.confirmed)
    }

    constructor (sid: int, guardian: int, grace: nat, now: nat)
      ensures Valid() && h == History([], false, {}, 0, 0) && s.grace == grace
      ensures s.requested == s.applied == None && s.termAt == None && s.termTargets == None
      ensures !s.escalationApplied && s.anchors == [] && s.retryAt == now && !s.termReported
      ensures this.sid == sid && this.guardian == guardian
    {
      this.sid, this.guardian := sid, guardian;
      s := State([], None, None, None, grace, false, now, false, None, (false, false), false, false);
      h := History([], false, {}, 0, 0);
    }

    /** Ask for a signal; KILL is absorbing. */
    method Request(signal: Signal)
      requires Valid()
      modifies this`s
      ensures Valid()
      ensures s == old(s).(requested := if old(s).requested == Some(Kill) then Some(Kill) else Some(signal))
    {
      if s.requested != Some(Kill) {
        s := s.(requested := Some(signal));
      }
    }

    method Stop()
      requires Valid()
      modifies this`s
      ensures Valid() && s == old(s).(requested := Some(Kill), resample := false)
    {
      Request(Kill);
      s := s.(resample := false);
    }

    /** Tick every anchor, collect TERM confirmations, drop the finished ones. */
    method TickAnchors(envs: seq<AnchorTick>) returns (failed: bool, ghost ticks: seq<Ticked>)
      requires Valid() && |envs| >= |s.anchors|
      modifies this
      ensures Valid() && |s.anchors| <= |old(s).anchors|
      ensures forall i :: 0 <= i < |s.anchors| ==> s.anchors[i].state != Finished
      // Every anchor is ticked, the unfinished ones stay in order, and every confirmation counts.
      ensures AllTicked(old(s).anchors, envs, ticks) && s.anchors == Unfinished(ticks)
      ensures failed <==> exists i :: 0 <= i < |ticks| && !ticks[i].ok
      ensures s.termTargets.Some? ==> Counted(old(s).termGroups, s.termGroups, s.termTargets.value, ticks)
      ensures s == old(s).(anchors := s.anchors, termGroups := s.termGroups)
      ensures h == old(h).(confirmed := h.confirmed) && Grown(old(h), h)
      ensures Sourced(old(h).confirmed, h.confirmed, envs)
    {
      hide SignalsOk, ReportsOk, AnchorsOk, AnchorOk, Instructed, Kept, Told, Witnessed, Sourced;
      hide AllTicked, Counted, Unfinished, Answers;
      failed, ticks := false, [];
      var start, now := s, s;
      var anchors := start.anchors;
      ghost var began, past := h, h;
      var kept: seq<Anchor> := [];
      NoneKept(anchors, start.applied);
      NoneWitnessed(began.confirmed, envs);
      NoneTicked(start, envs);
      for i := 0 to |anchors|
        invariant Ok(now, past) && now == start.(termGroups := now.termGroups)
        invariant past == began.(confirmed := past.confirmed) && Grown(began, past)
        invariant Kept(kept, anchors, i) && Instructed(kept, start.applied)
        invariant Witnessed(kept, past.confirmed) && Sourced(began.confirmed, past.confirmed, envs)
        invariant |ticks| == i && AllTicked(anchors[..i], envs, ticks) && kept == Unfinished(ticks)
        invariant failed <==> exists k :: 0 <= k < |ticks| && !ticks[k].ok
        invariant start.termTargets.Some? ==>
                    Counted(start.termGroups, now.termGroups, start.termTargets.value, ticks)
      {
        EachAnchorOk(anchors, i);
        var r := TickAnchor(anchors[i], envs[i]);
        AnswersBasics(anchors[i], envs[i], r);
        OneTicked(anchors, envs, i, ticks, r, start, now);
        ticks := ticks + [r];
        failed := failed || !r.ok;
        ConfirmOk(now, past, r.anchor);
        KeepNext(kept, anchors, i, r.anchor);
        InstructedNext(kept, anchors, i, start.applied, r.anchor);
        WitnessedNext(kept, anchors, i, began.confirmed, past, r.anchor, envs);
        past := Witness(past, r.anchor);
        now := Confirm(now, r.anchor);
        if r.anchor.state != Finished {
          kept := kept + [r.anchor];
        }
      }
      assert anchors[..|anchors|] == anchors;
      KeptOk(kept, anchors, |anchors|);
      AnchorsSwap(now, past, kept);
      s, h := now.(anchors := kept), past;
    }

    /** Send a request that was not sent yet, to the workload and to every anchor. */
    method Dispatch(env: Environment) returns (failed: bool, sent: Option<Signal>)
      requires Valid()
      modifies this
      ensures Valid() && s == Resolved(old(s), env) && h == Recorded(old(h), old(s), env)
      ensures failed == (sent.Some? && env.signal.SignalFails?)
      ensures sent == if s.applied != old(s).applied then s.applied else None
    {
      hide Ok, AskAll, Instructed, Witnessed, Sent, Dispatched;
      AppliedWasRequested(s, h);
      if s.requested == s.applied {
        return false, None;
      }
      var signal := s.requested.value;
      DispatchOk(s, h, signal, env.signal, env.now, env.cleaning);
      DispatchInstructs(s, h, signal);
      DispatchedFields(s, signal, env);
      SentFields(h, signal, env.signal);
      failed, sent := env.signal.SignalFails?, Some(signal);
      s := Signalled(s, signal, env);
      h := Sent(h, signal, env.signal);
    }

    /** Start an anchor for a group that has none, if there is room. */
    method Start(group: int, starts: bool) returns (failed: bool)
      requires Valid() && s.applied == s.requested
      modifies this`s
      ensures Valid() && s == old(s).(anchors := Started(old(s).anchors, group, starts, old(s).requested))
      ensures starts ==> !failed
    {
      hide SignalsOk, ReportsOk, AnchorsOk, AnchorOk, Instructed, Witnessed, Watched, Anchored;
      failed := false;
      if group > 0 && !Watched(s.anchors, group) && |s.anchors| < 2 {
        if starts {
          var more := Anchored(s.anchors, group, s.requested);
          AnchoredOk(s.anchors, group, s.requested);
          AnchorsSwap(s, h, more);
          s := s.(anchors := more);
        } else {
          failed := true;
        }
      }
    }

    /** Start anchors for the workload's group and the foreground group, room permitting. */
    method Sample(env: Environment) returns (failed: bool)
      requires Valid() && s.applied == s.requested
      modifies this`s
      ensures Valid() && s == old(s).(anchors := s.anchors)
      ensures Sampled(old(s).anchors, s.anchors, env, s.requested)
      ensures env.starts == (true, true) ==> !failed
    {
      hide Ok, Instructed, Witnessed, Sampled, Started;
      SampledBoth(s.anchors, env, s.requested);
      ghost var first := Started(s.anchors, env.pid, env.starts.0, s.requested);
      ghost var both := Started(first, env.foreground, env.starts.1, s.requested);
      failed := false;
      var targets := [(env.pid, env.starts.0), (env.foreground, env.starts.1)];
      for i := 0 to 2
        invariant Valid() && s == old(s).(anchors := s.anchors)
        invariant s.anchors == if i == 0 then old(s).anchors else if i == 1 then first else both
        invariant env.starts == (true, true) ==> !failed
      {
        var missed := Start(targets[i].0, targets[i].1);
        failed := failed || missed;
      }
    }

    /** Look at the foreground group again, if it is time to. */
    method Resample(env: Environment) returns (failed: bool)
      requires Valid() && s.applied == s.requested
      modifies this`s
      ensures Valid()
      ensures s == old(s).(anchors := s.anchors, termTargets := s.termTargets, resample := s.resample,
                retryAt := s.retryAt)
      ensures old(s).termTargets.Some? ==> s.termTargets == old(s).termTargets
      ensures s.termTargets == old(s).termTargets || s.termTargets == Some((env.pid, env.foreground))
      ensures if old(s).resample && env.now >= old(s).retryAt && Suitable(env.foreground, sid, guardian)
              then Looked(old(s), s, env) else s == old(s)
      ensures failed && env.starts == (true, true) ==>
                old(s).resample && env.now >= old(s).retryAt && !Suitable(env.foreground, sid, guardian)
    {
      hide SignalsOk, ReportsOk, AnchorsOk, AnchorOk, Instructed, Witnessed, Sampled;
      failed := false;
      if s.resample && env.now >= s.retryAt {
        if env.foreground < 0 || env.foreground == sid || env.foreground == guardian {
          return true;
        }
        if s.requested == Some(Term) && s.termTargets.None? {
          TargetsOk(s, h, (env.pid, env.foreground));
          s := s.(termTargets := Some((env.pid, env.foreground)));
        }
        failed := Sample(env);
        TimingOk(s, h, s.requested == Some(Kill) && !env.reaped, env.now + 10);
        s := s.(resample := s.requested == Some(Kill) && !env.reaped, retryAt := env.now + 10);
      }
    }

    /** Dispatch, as a turn sees it. */
    method Resolve(env: Environment) returns (failed: bool, sent: Option<Signal>)
      requires Valid()
      modifies this
      ensures Valid() && s.applied == s.requested == old(s).requested && Grown(old(h), h)
      ensures sent == if s.applied != old(s).applied then s.applied else None
      ensures Sends(old(h), h, sent, env.signal) && h.confirmed == old(h).confirmed
      ensures s.termTargets == old(s).termTargets && s.grace == old(s).grace && s.termReported == old(s).termReported
      ensures |s.anchors| == |old(s).anchors| && Passed(old(s), s, sent, env)
      ensures s.termAt == if s.applied == Some(Term) && old(s).applied != Some(Term)
                then Some(env.now) else old(s).termAt
    {
      hide Ok, Resolved, Recorded, Sends, Instructed, Witnessed, Grown, Passed;
      ghost var t, g := s, h;
      failed, sent := Dispatch(env);
      ResolvedFacts(t, g, env, s, h);
    }

    /** No sampling while cleaning up. */
    method Calm()
      requires Valid()
      modifies this`s
      ensures Valid() && s == old(s).(resample := false)
    {
      hide Ok;
      TimingOk(s, h, false, s.retryAt);
      s := s.(resample := false);
    }

    /** The first half of a turn: anchors, backstop, dispatch. */
    method Settle(env: Environment) returns (failed: bool, sent: Option<Signal>, ghost ticks: seq<Ticked>)
      requires Valid() && |env.anchors| >= |s.anchors|
      modifies this
      ensures Valid()
      ensures s.requested == if BackstopDue(old(s).termAt, old(s).grace, env.now) then Some(Kill) else old(s).requested
      ensures s.applied == s.requested
      ensures s.termAt == if s.applied == Some(Term) && old(s).applied != Some(Term)
                then Some(env.now) else old(s).termAt
      ensures Grown(old(h), h)
      ensures sent == (if s.applied != old(s).applied then s.applied else None) && Sends(old(h), h, sent, env.signal)
      ensures Sourced(old(h).confirmed, h.confirmed, env.anchors)
      ensures s.grace == old(s).grace && s.termReported == old(s).termReported && |s.anchors| <= |old(s).anchors|
      ensures Settled(old(s), s, env, sent, ticks)
    {
      hide Ok, Sends, Instructed, Witnessed, Sourced, AllTicked, Counted, Unfinished, Passed, Settled;
      failed, ticks := TickAnchors(env.anchors);
      ghost var ticked := s;
      if BackstopDue(s.termAt, s.grace, env.now) {
        Request(Kill);
      }
      ghost var g, asking := h, s;
      var missed;
      missed, sent := Resolve(env);
      SendsFrom(old(h), g, h, sent, env.signal);
      SettledFrom(old(s), ticked, asking, s, env, sent, ticks);
      failed := failed || missed;
    }

    /** One turn of the guardian loop: anchors, backstop, dispatch, resampling. */
    method Tick(env: Environment) returns (failed: bool, sent: Option<Signal>, ghost ticks: seq<Ticked>)
      requires Valid() && |env.anchors| >= |s.anchors|
      modifies this
      ensures Valid()
      // Whatever was requested has been sent; past the TERM time plus grace that is KILL.
      ensures s.requested == if BackstopDue(old(s).termAt, old(s).grace, env.now) then Some(Kill) else old(s).requested
      ensures s.applied == s.requested && Instructed(s.anchors, s.requested)
      // The TERM time is the time of the tick that sent TERM.
      ensures s.termAt == if s.applied == Some(Term) && old(s).applied != Some(Term)
                then Some(env.now) else old(s).termAt
      ensures Grown(old(h), h)
      // The one signal sent, and where confirmations and targets come from.
      ensures sent == (if s.applied != old(s).applied then s.applied else None) && Sends(old(h), h, sent, env.signal)
      ensures Sourced(old(h).confirmed, h.confirmed, env.anchors)
      ensures s.termTargets == old(s).termTargets || s.termTargets == Some((env.pid, env.foreground))
      ensures s.grace == old(s).grace && s.termReported == old(s).termReported
      ensures env.cleaning ==> !s.resample && |s.anchors| <= |old(s).anchors|
      // What becomes of the anchors, and what may be reported.
      ensures Turned(old(s), s, env, sent, ticks, sid, guardian)
    {
      hide Ok, Sends, Instructed, Witnessed, Sourced, Settled, Looked, Turned, Suitable;
      failed, sent, ticks := Settle(env);
      ghost var told := s;
      SettledTargets(old(s), s, env, sent, ticks);
      if env.cleaning {
        Calm();
      } else {
        var missed := Resample(env);
        failed := failed || missed;
      }
      TurnedFrom(old(s), told, s, env, sent, ticks, sid, guardian);
    }

    /** Report an escalation: at most once, and only for a KILL that followed a TERM. */
    method TakeEscalation() returns (taken: bool)
      requires Valid()
      modifies this
      ensures Valid() && s == old(s).(escalationApplied := false)
      ensures h == old(h).(escalated := old(h).escalated + if taken then 1 else 0)
      ensures taken == old(s).escalationApplied && (taken ==> old(h).escalated == 0 && h.signals == [Term, Kill])
    {
      taken := s.escalationApplied;
      s := s.(escalationApplied := false);
      h := h.(escalated := h.escalated + if taken then 1 else 0);
    }

    /** Acknowledge TERM: at most once, and only after the direct signal and both target
        groups were confirmed. */
    method TakeTermApplied() returns (taken: bool)
      requires Valid()
      modifies this
      ensures Valid() && s == old(s).(termReported := s.termReported) && (old(s).termReported ==> s.termReported)
      ensures h == old(h).(acknowledged := old(h).acknowledged + if taken then 1 else 0)
      ensures taken ==> old(h).acknowledged == 0 && h.direct && Term in h.signals
                        && s.termTargets.Some? && s.termTargets.value.0 in h.confirmed
                        && s.termTargets.value.1 in h.confirmed
      ensures !taken ==> s == old(s)
      ensures !old(s).termReported && s.termDirect && s.termTargets.Some? && s.termGroups == (true, true) ==> taken
    {
      if !s.termReported && s.termDirect && s.termTargets.Some? && s.termGroups.0 && s.termGroups.1 {
        s := s.(termReported := true);
        h := h.(acknowledged := h.acknowledged + 1);
        taken := true;
      } else {
        taken := false;
      }
    }
  }

  // ----- whole runs

  datatype Event = Ask(signal: Signal) | Halt | Turn(env: Environment) | ReadEscalation | ReadAcknowledgement

  /** What the events alone decide: what is requested, what was last sent, and when TERM was. */
  datatype Course = Course(requested: Option<Signal>, applied: Option<Signal>, termAt: Option<nat>)

  /** What a turn wants sent: KILL once the TERM time plus grace has passed. */
  function Due(c: Course, grace: nat, now: nat): Option<Signal> {
    if BackstopDue(c.termAt, grace, now) then Some(Kill) else c.requested
  }

  function Proceed(c: Course, e: Event, grace: nat): Course {
    match e
    case Ask(signal) => c.(requested := if c.requested == Some(Kill) then Some(Kill) else Some(signal))
    case Halt => c.(requested := Some(Kill))
    case Turn(env) =>
      var due := Due(c, grace, env.now);
      Course(due, due, if due == Some(Term) && c.applied != Some(Term) then Some(env.now) else c.termAt)
    case ReadEscalation => c
    case ReadAcknowledgement => c
  }

  function CourseOf(events: seq<Event>, grace: nat): Course {
    if events == [] then Course(None, None, None)
    else Proceed(CourseOf(events[..|events| - 1], grace), events[|events| - 1], grace)
  }

  /** The signal this event sends to the workload, if any. */
  function Sending(c: Course, e: Event, grace: nat): Option<Signal> {
    if e.Turn? && Due(c, grace, e.env.now) != c.applied then Due(c, grace, e.env.now) else None
  }

  function Signals(events: seq<Event>, grace: nat): seq<Signal> {
    if events == [] then []
    else
      var init, e := events[..|events| - 1], events[|events| - 1];
      var sent := Sending(CourseOf(init, grace), e, grace);
      Signals(init, grace) + if sent.Some? then [sent.value] else []
  }

  /** KILL stays requested once sent, and the TERM time is known once TERM is. */
  predicate Sane(c: Course) {
    && (c.applied.Some? ==> c.requested.Some?) && (c.applied == Some(Kill) ==> c.requested == Some(Kill))
    && (c.applied == Some(Term) ==> c.termAt.Some?)
  }

  lemma ProceedSane(c: Course, e: Event, grace: nat)
    requires Sane(c)
    ensures Sane(Proceed(c, e, grace))
    ensures Proceed(c, e, grace).applied == if Sending(c, e, grace).Some? then Sending(c, e, grace) else c.applied
  {
  }

  lemma {:induction false} CourseOk(events: seq<Event>, grace: nat)
    ensures Sane(CourseOf(events, grace)) && CourseOf(events, grace).applied == Last(Signals(events, grace))
  {
    if events == [] {
    } else {
      hide Proceed, Sending, Sane;
      var init, e := events[..|events| - 1], events[|events| - 1];
      CourseOk(init, grace);
      ProceedSane(CourseOf(init, grace), e, grace);
    }
  }

  /** Once TERM was sent, its time stands. */
  lemma {:induction false} TermTimeStands(events: seq<Event>, grace: nat, i: nat, n: nat)
    requires i < n <= |events| && events[i].Turn? &&
              Sending(CourseOf(events[..i], grace), events[i], grace) == Some(Term)
    ensures CourseOf(events[..n], grace).termAt == Some(events[i].env.now)
    ensures CourseOf(events[..n], grace).applied.Some?
  {
    assert events[..n][..n - 1] == events[..n - 1];
    CourseOk(events[..n - 1], grace);
    if n > i + 1 {
      TermTimeStands(events, grace, i, n - 1);
      var c := CourseOf(events[..n - 1], grace);
      match c.applied.value {
        case Term =>
        case Kill =>
      }
    }
  }

  /** A turn at or after the TERM time plus grace leaves KILL sent. */
  lemma DeadlineKills(events: seq<Event>, grace: nat, i: nat, j: nat)
    requires i < j < |events| && events[i].Turn? && events[j].Turn?
    requires Sending(CourseOf(events[..i], grace), events[i], grace) == Some(Term)
    requires events[j].env.now >= events[i].env.now + grace
    ensures Kill in Signals(events[..j + 1], grace)
  {
    TermTimeStands(events, grace, i, j);
    assert events[..j + 1][..j] == events[..j];
    CourseOk(events[..j + 1], grace);
  }

  /** TERM was sent at time `at`. */
  ghost predicate TermAt(events: seq<Event>, grace: nat, at: nat) {
    exists i :: 0 <= i < |events| && events[i].Turn? && events[i].env.now == at
                && Sending(CourseOf(events[..i], grace), events[i], grace) == Some(Term)
  }

  /** Somebody asked for KILL, or a turn after TERM came at or after its time plus grace, which any
      turn does without a grace. */
  ghost predicate KillCause(events: seq<Event>, grace: nat) {
    || (exists i :: 0 <= i < |events| && (events[i] == Ask(Kill) || events[i] == Halt))
    || (exists i, at: nat :: 0 <= i < |events| && events[i].Turn? && TermAt(events[..i], grace, at)
                             && (grace == 0 || events[i].env.now >= at + grace))
  }

  lemma CauseStays(events: seq<Event>, e: Event, grace: nat, at: nat)
    ensures KillCause(events, grace) ==> KillCause(events + [e], grace)
    ensures TermAt(events, grace, at) ==> TermAt(events + [e], grace, at)
  {
    var more := events + [e];
    assert forall i :: 0 <= i < |events| ==> more[i] == events[i] && more[..i] == events[..i];
    hide CourseOf, Sending;
    if TermAt(events, grace, at) {
      var i :| 0 <= i < |events| && events[i].Turn? && events[i].env.now == at
               && Sending(CourseOf(events[..i], grace), events[i], grace) == Some(Term);
      assert more[i] == events[i] && more[..i] == events[..i];
    }
    hide TermAt;
    if KillCause(events, grace) {
      if exists i :: 0 <= i < |events| && (events[i] == Ask(Kill) || events[i] == Halt) {
        var i :| 0 <= i < |events| && (events[i] == Ask(Kill) || events[i] == Halt);
        assert more[i] == events[i];
      } else {
        var i, at: nat :| 0 <= i < |events| && events[i].Turn? && TermAt(events[..i], grace, at)
                          && (grace == 0 || events[i].env.now >= at + grace);
        assert more[i] == events[i] && TermAt(more[..i], grace, at);
      }
    }
  }

  /** KILL is never requested, and so never sent, without a cause, and the TERM time is when TERM was sent. */
  lemma {:induction false} KillHasCause(events: seq<Event>, grace: nat)
    ensures CourseOf(events, grace).requested == Some(Kill) ==> KillCause(events, grace)
    ensures CourseOf(events, grace).termAt.Some? ==> TermAt(events, grace, CourseOf(events, grace).termAt.value)
    ensures Kill in Signals(events, grace) ==> KillCause(events, grace)
  {
    if events == [] {
    } else {
      var n := |events| - 1;
      var init, e := events[..n], events[n];
      var c := CourseOf(init, grace);
      assert events == init + [e];
      KillHasCause(init, grace);
      CauseStays(init, e, grace, if c.termAt.Some? then c.termAt.value else 0);
      hide CourseOf, KillCause, TermAt;
      CauseNow(init, e, grace);
    }
  }

  /** The last event gives KILL a cause, or TERM a time. */
  lemma CauseNow(events: seq<Event>, e: Event, grace: nat)
    requires var c := CourseOf(events, grace); c.termAt.Some? ==> TermAt(events, grace, c.termAt.value)
    ensures var c := CourseOf(events, grace);
            var next := Proceed(c, e, grace);
            && CourseOf(events + [e], grace) == next
            && Signals(events + [e], grace) ==
                 Signals(events, grace) + (if Sending(c, e, grace).Some? then [Sending(c, e, grace).value] else [])
            && (Sending(c, e, grace) == Some(Kill) ==> next.requested == Some(Kill))
            && (next.requested == Some(Kill) && c.requested != Some(Kill) ==> KillCause(events + [e], grace))
            && (next.termAt.Some? && next.termAt != c.termAt ==> TermAt(events + [e], grace, next.termAt.value))
  {
    var more, n := events + [e], |events|;
    assert more[..n] == events && more[n] == e;
    hide TermAt;
    if e.Turn? && CourseOf(events, grace).termAt.Some? {
      assert TermAt(more[..n], grace, CourseOf(events, grace).termAt.value);
    }
    assert e.Turn? && Sending(CourseOf(events, grace), e, grace) == Some(Term) ==> TermAt(more, grace, e.env.now) by {
      TermNow(events, e, grace);
    }
  }

  lemma TermNow(events: seq<Event>, e: Event, grace: nat)
    ensures e.Turn? && Sending(CourseOf(events, grace), e, grace) == Some(Term) ==>
              TermAt(events + [e], grace, e.env.now)
  {
    var more, n := events + [e], |events|;
    assert more[..n] == events && more[n] == e;
  }

  /** TERM reached the workload itself. */
  ghost predicate Arrived(events: seq<Event>, grace: nat) {
    exists i :: 0 <= i < |events| && events[i].Turn? && events[i].env.signal == Delivered
                && Sending(CourseOf(events[..i], grace), events[i], grace) == Some(Term)
  }

  /** These were the workload's group and the foreground group at some turn. */
  ghost predicate Targeted(events: seq<Event>, targets: (int, int)) {
    exists i :: 0 <= i < |events| && events[i].Turn? && (events[i].env.pid, events[i].env.foreground) == targets
  }

  /** A member reported at some turn that it sent TERM to this group. */
  ghost predicate Confirmed(events: seq<Event>, group: int) {
    exists i :: 0 <= i < |events| && events[i].Turn? && Reports(events[i].env.anchors, group)
  }

  /** Turn `i` sent KILL after TERM, it arrived, and nothing was being cleaned up. */
  predicate Escalates(events: seq<Event>, grace: nat, i: nat) {
    && i < |events| && events[i].Turn? && events[i].env.signal == Delivered && !events[i].env.cleaning
    && CourseOf(events[..i], grace).applied == Some(Term)
    && Sending(CourseOf(events[..i], grace), events[i], grace) == Some(Kill)
  }

  /** An escalation that was not read yet. */
  ghost predicate Unread(events: seq<Event>, grace: nat) {
    exists i: nat :: Escalates(events, grace, i) && forall k :: i < k < |events| ==> !events[k].ReadEscalation?
  }

  lemma EscalatesStays(events: seq<Event>, e: Event, grace: nat, i: nat)
    requires i < |events|
    ensures Escalates(events + [e], grace, i) <==> Escalates(events, grace, i)
  {
    assert (events + [e])[i] == events[i] && (events + [e])[..i] == events[..i];
  }

  lemma UnreadMore(events: seq<Event>, e: Event, grace: nat)
    ensures Unread(events + [e], grace) <==>
              !e.ReadEscalation? && (Unread(events, grace) || Escalates(events + [e], grace, |events|))
  {
    var more, n := events + [e], |events|;
    assert forall k :: 0 <= k < n ==> more[k] == events[k];
    assert more[n] == e;
    if Unread(more, grace) {
      var i: nat :| Escalates(more, grace, i) && forall k :: i < k < |more| ==> !more[k].ReadEscalation?;
      if i < n {
        EscalatesStays(events, e, grace, i);
        assert !more[n].ReadEscalation?;
      }
    }
    hide Escalates;
    if !e.ReadEscalation? && Unread(events, grace) {
      var i: nat :| Escalates(events, grace, i) && forall k :: i < k < n ==> !events[k].ReadEscalation?;
      assert i < n by {
        EscalatesInside(events, grace, i);
      }
      EscalatesStays(events, e, grace, i);
    }
  }

  lemma EscalatesInside(events: seq<Event>, grace: nat, i: nat)
    requires Escalates(events, grace, i)
    ensures i < |events| && events[i].Turn?
  {
  }

  lemma FactsStay(events: seq<Event>, e: Event, grace: nat)
    ensures Arrived(events, grace) ==> Arrived(events + [e], grace)
    ensures forall targets :: Targeted(events, targets) ==> Targeted(events + [e], targets)
    ensures forall group :: Confirmed(events, group) ==> Confirmed(events + [e], group)
  {
    var more := events + [e];
    assert forall i :: 0 <= i < |events| ==> more[i] == events[i] && more[..i] == events[..i];
    forall targets | Targeted(events, targets) ensures Targeted(more, targets) {
      var i :| 0 <= i < |events| && events[i].Turn? && (events[i].env.pid, events[i].env.foreground) == targets;
      assert more[i] == events[i];
    }
    forall group | Confirmed(events, group) ensures Confirmed(more, group) {
      var i :| 0 <= i < |events| && events[i].Turn? && Reports(events[i].env.anchors, group);
      assert more[i] == events[i];
    }
    if Arrived(events, grace) {
      var i :| 0 <= i < |events| && events[i].Turn? && events[i].env.signal == Delivered
               && Sending(CourseOf(events[..i], grace), events[i], grace) == Some(Term);
      assert more[i] == events[i] && more[..i] == events[..i];
    }
  }

  /** Everything a canceller knows comes from the events it saw. */
  ghost predicate Traced(s: State, h: History, events: seq<Event>, grace: nat) {
    && s.grace == grace && Course(s.requested, s.applied, s.termAt) == CourseOf(events, grace)
    && h.signals == Signals(events, grace)
    && (h.direct ==> Arrived(events, grace))
    && (s.termTargets.Some? ==> Targeted(events, s.termTargets.value))
    && (forall g :: g in h.confirmed ==> Confirmed(events, g))
    && s.escalationApplied == Unread(events, grace)
  }

  /** Nothing but requests changed. */
  lemma TracedQuiet(s: State, h: History, events: seq<Event>, grace: nat, e: Event, t: State, g: History)
    requires Traced(s, h, events, grace) && !e.Turn?
    requires t.grace == s.grace && t.termTargets == s.termTargets
    requires Course(t.requested, t.applied, t.termAt) == Proceed(Course(s.requested, s.applied, s.termAt), e, grace)
    requires g.signals == h.signals && g.direct == h.direct && g.confirmed == h.confirmed
    requires t.escalationApplied == (s.escalationApplied && !e.ReadEscalation?)
    ensures Traced(t, g, events + [e], grace)
  {
    hide Arrived, Targeted, Confirmed, Proceed, Unread;
    UnreadMore(events, e, grace);
    FactsStay(events, e, grace);
    assert (events + [e])[..|events|] == events;
  }

  lemma TracedTurn(s: State, h: History, events: seq<Event>, grace: nat, env: Environment, t: State, g: History,
                   sent: Option<Signal>)
    requires Traced(s, h, events, grace) && t.grace == s.grace
    requires Course(t.requested, t.applied, t.termAt) ==
              Proceed(Course(s.requested, s.applied, s.termAt), Turn(env), grace)
    requires sent == (if t.applied != s.applied then t.applied else None) && Sends(h, g, sent, env.signal)
    requires Sourced(h.confirmed, g.confirmed, env.anchors)
    requires t.termTargets == s.termTargets || t.termTargets == Some((env.pid, env.foreground))
    requires t.escalationApplied ==
               (s.escalationApplied ||
                (sent == Some(Kill) && env.signal == Delivered && s.applied == Some(Term) && !env.cleaning))
    ensures Traced(t, g, events + [Turn(env)], grace)
  {
    UnreadMore(events, Turn(env), grace);
    hide Unread;
    var more, n := events + [Turn(env)], |events|;
    FactsStay(events, Turn(env), grace);
    assert more[..n] == events && more[n] == Turn(env);
    assert sent == Sending(CourseOf(events, grace), Turn(env), grace);
    forall group | group in g.confirmed ensures Confirmed(more, group) {
      if group !in h.confirmed {
        assert Reports(more[n].env.anchors, group);
      }
    }
    if t.termTargets.Some? && t.termTargets != s.termTargets {
      assert (more[n].env.pid, more[n].env.foreground) == t.termTargets.value;
    }
    if g.direct && !h.direct {
      assert more[n].env.signal == Delivered && Sending(CourseOf(more[..n], grace), more[n], grace) == Some(Term);
    }
  }

  /** TERM was acknowledged for good reason: it arrived, and both target groups confirmed it. */
  ghost predicate Acknowledged(events: seq<Event>, grace: nat, targets: (int, int)) {
    Arrived(events, grace) && Targeted(events, targets) && Confirmed(events, targets.0) && Confirmed(events, targets.1)
  }

  /** One event: the signal it sent, or the report it gave. */
  method Take(c: Canceller, e: Event, ghost past: seq<Event>, grace: nat)
    returns (sent: Option<Signal>, reported: Option<Event>)
    requires c.Valid() && Traced(c.s, c.h, past, grace) && (e.Turn? ==> |e.env.anchors| >= 2)
    modifies c
    ensures c.Valid() && Traced(c.s, c.h, past + [e], grace)
    ensures c.h.signals == old(c.h).signals + if sent.Some? then [sent.value] else []
    ensures c.h.escalated == old(c.h).escalated + if reported == Some(ReadEscalation) then 1 else 0
    ensures c.h.acknowledged == old(c.h).acknowledged + if reported == Some(ReadAcknowledgement) then 1 else 0
    ensures reported.Some? ==> reported == Some(e)
    ensures reported == Some(ReadAcknowledgement) ==> exists targets :: Acknowledged(past, grace, targets)
    ensures reported == Some(ReadEscalation) <==> e.ReadEscalation? && Unread(past, grace)
    ensures reported == Some(ReadEscalation) ==> Signals(past, grace) == [Term, Kill]
  {
    hide Ok, Instructed, Witnessed, Sourced, Arrived, Targeted, Confirmed, Traced, Unread, Turned;
    ghost var s, h := c.s, c.h;
    sent, reported := None, None;
    AtMostTwo(s, h);
    TracedCourse(s, h, past, grace);
    match e {
      case Ask(signal) =>
        c.Request(signal);
        TracedQuiet(s, h, past, grace, e, c.s, c.h);
      case Halt =>
        c.Stop();
        TracedQuiet(s, h, past, grace, e, c.s, c.h);
      case Turn(env) =>
        var failed;
        ghost var ticks;
        failed, sent, ticks := c.Tick(env);
        TurnedEscalation(s, c.s, env, sent, ticks, c.sid, c.guardian);
        TracedTurn(s, h, past, grace, env, c.s, c.h, sent);
      case ReadEscalation =>
        var taken := c.TakeEscalation();
        if taken {
          reported := Some(e);
          TracedSignals(s, h, past, grace);
        }
        TracedQuiet(s, h, past, grace, e, c.s, c.h);
      case ReadAcknowledgement =>
        var taken := c.TakeTermApplied();
        TracedQuiet(s, h, past, grace, e, c.s, c.h);
        if taken {
          reported := Some(e);
          TracedAcknowledged(s, h, past, grace);
        }
    }
  }

  lemma TurnedEscalation(was: State, now: State, env: Environment, sent: Option<Signal>, ticks: seq<Ticked>,
                         sid: int, guardian: int)
    requires Turned(was, now, env, sent, ticks, sid, guardian)
    ensures now.escalationApplied ==
              (was.escalationApplied ||
               (sent == Some(Kill) && env.signal == Delivered && was.applied == Some(Term) && !env.cleaning))
  {
    hide AllTicked, Counted, Unfinished, AskAll, Looked, Suitable;
  }

  lemma TracedSignals(s: State, h: History, events: seq<Event>, grace: nat)
    requires Traced(s, h, events, grace)
    ensures h.signals == Signals(events, grace)
  {
  }

  lemma TracedCourse(s: State, h: History, events: seq<Event>, grace: nat)
    requires Traced(s, h, events, grace)
    ensures s.grace == grace && s.escalationApplied == Unread(events, grace)
  {
  }

  lemma TracedAcknowledged(s: State, h: History, events: seq<Event>, grace: nat)
    requires Traced(s, h, events, grace) && h.direct && s.termTargets.Some?
    requires s.termTargets.value.0 in h.confirmed && s.termTargets.value.1 in h.confirmed
    ensures Acknowledged(events, grace, s.termTargets.value)
  {
  }

  lemma RunEnds(s: State, h: History, events: seq<Event>, grace: nat)
    requires Ok(s, h) && Traced(s, h, events, grace)
    ensures h.signals == Signals(events, grace) && Legal(h.signals)
    ensures h.escalated <= 1 && (h.escalated == 1 ==> h.signals == [Term, Kill]) && h.acknowledged <= 1
  {
  }

  /** Event `n` reads an acknowledgement, and what came before it warrants one. */
  ghost predicate AcknowledgedAt(events: seq<Event>, grace: nat, n: nat) {
    n < |events| && events[n].ReadAcknowledgement? && exists targets :: Acknowledged(events[..n], grace, targets)
  }

  /** Event `n` reads an escalation, and KILL had followed TERM before it. */
  predicate EscalatedAt(events: seq<Event>, grace: nat, n: nat) {
    n < |events| && events[n].ReadEscalation? && Signals(events[..n], grace) == [Term, Kill]
  }

  /** Event `n` reads an escalation that a turn before it made and none in between read. */
  ghost predicate ReadsEscalation(events: seq<Event>, grace: nat, n: nat) {
    n < |events| && events[n].ReadEscalation? && Unread(events[..n], grace)
  }

  /** Any run: what is sent is what the events decide, a subsequence of TERM, KILL; an
      escalation is reported at most once, after both; TERM is acknowledged at most once, after
      it arrived and members of both target groups reported it. The reports are the positions
      of the events that read them. */
  method Run(events: seq<Event>, sid: int, guardian: int, grace: nat)
    returns (signals: seq<Signal>, acknowledgements: seq<nat>, escalations: seq<nat>)
    requires forall i :: 0 <= i < |events| && events[i].Turn? ==> |events[i].env.anchors| >= 2
    ensures signals == Signals(events, grace) && Legal(signals)
    ensures |escalations| <= 1 && forall k :: 0 <= k < |escalations| ==> EscalatedAt(events, grace, escalations[k])
    ensures forall n: nat :: n in escalations <==> ReadsEscalation(events, grace, n)
    ensures |acknowledgements| <= 1
            && forall k :: 0 <= k < |acknowledgements| ==> AcknowledgedAt(events, grace, acknowledgements[k])
  {
    hide Acknowledged, Traced, Reports, Sourced, Sends, Instructed, Witnessed, SignalsOk, ReportsOk, AnchorsOk, Legal;
    hide AcknowledgedAt, EscalatedAt, Signals, Unread;
    var c := new Canceller(sid, guardian, grace, 0);
    signals, acknowledgements, escalations := [], [], [];
    TracedNothing(c.s, c.h, grace);
    for i := 0 to |events|
      invariant c.Valid() && fresh(c) && Traced(c.s, c.h, events[..i], grace) && signals == c.h.signals
      invariant |acknowledgements| == c.h.acknowledged && |escalations| == c.h.escalated
      invariant forall k :: 0 <= k < |escalations| ==> EscalatedAt(events, grace, escalations[k])
      invariant forall n: nat :: n in escalations <==> n < i && ReadsEscalation(events, grace, n)
      invariant forall k :: 0 <= k < |acknowledgements| ==> AcknowledgedAt(events, grace, acknowledgements[k])
    {
      var sent, reported := Take(c, events[i], events[..i], grace);
      if sent.Some? {
        signals := signals + [sent.value];
      }
      if reported == Some(ReadEscalation) {
        ReportedAt(events, grace, i);
        escalations := escalations + [i];
      } else if reported == Some(ReadAcknowledgement) {
        ReportedAt(events, grace, i);
        acknowledgements := acknowledgements + [i];
      }
      assert events[..i + 1] == events[..i] + [events[i]];
    }
    assert events[..|events|] == events;
    RunEnds(c.s, c.h, events, grace);
  }

  lemma ReportedAt(events: seq<Event>, grace: nat, i: nat)
    requires i < |events|
    ensures events[i].ReadEscalation? && Signals(events[..i], grace) == [Term, Kill] ==> EscalatedAt(events, grace, i)
    ensures events[i].ReadAcknowledgement? && (exists targets :: Acknowledged(events[..i], grace, targets)) ==>
              AcknowledgedAt(events, grace, i)
  {
    hide Acknowledged;
  }

  lemma TracedNothing(s: State, h: History, grace: nat)
    requires s.grace == grace && s.requested == s.applied == None && s.termAt == None && s.termTargets == None
    requires h == History([], false, {}, 0, 0) && !s.escalationApplied
    ensures Traced(s, h, [], grace)
  {
  }

  // ----- an acknowledgement that is due

  /** One anchor for each of the two groups. */
  predicate Pair(anchors: seq<Anchor>, pid: int, foreground: int) {
    && |anchors| == (if pid == foreground then 1 else 2)
    && anchors[0].group == pid && (|anchors| == 2 ==> anchors[1].group == foreground)
  }

  predicate Fresh(a: Anchor) {
    a.state == Joining && a.wanted == Some(Term)
  }

  predicate Ready(a: Anchor) {
    a.state == Pinned && a.sent == Some(Term)
  }

  /** TERM is sent and arrives, and an anchor starts for each group. */
  lemma TermTurn(was: State, now: State, env: Environment, ticks: seq<Ticked>, sid: int, guardian: int)
    requires Turned(was, now, env, Some(Term), ticks, sid, guardian) && was.anchors == [] && was.termTargets.None?
    requires now.requested == Some(Term) && !env.cleaning && env.now >= was.retryAt && env.signal == Delivered
    requires Suitable(env.foreground, sid, guardian) && env.pid > 0 && env.foreground > 0 && env.starts == (true, true)
    ensures now.termTargets == Some((env.pid, env.foreground)) && now.termDirect && !now.resample
    ensures Pair(now.anchors, env.pid, env.foreground)
    ensures forall i :: 0 <= i < |now.anchors| ==> Fresh(now.anchors[i])
  {
    hide Answers, Counted, Watched;
    assert ticks == [] by {
      TicksOf(was, now, env, Some(Term), ticks, sid, guardian);
    }
    assert AskAll(Unfinished(ticks), Term) == [];
  }

  lemma TicksOf(was: State, now: State, env: Environment, sent: Option<Signal>, ticks: seq<Ticked>,
                sid: int, guardian: int)
    requires Turned(was, now, env, sent, ticks, sid, guardian)
    ensures AllTicked(was.anchors, env.anchors, ticks)
  {
    hide AllTicked, Counted, Unfinished, AskAll, Looked, Suitable;
  }

  /** With nothing sent and no look due, a turn only ticks the anchors. */
  lemma QuietTurn(was: State, now: State, env: Environment, ticks: seq<Ticked>, sid: int, guardian: int)
    requires Turned(was, now, env, None, ticks, sid, guardian) && !was.resample
    ensures AllTicked(was.anchors, env.anchors, ticks) && now.anchors == Unfinished(ticks) && !now.resample
    ensures now.termTargets == was.termTargets && now.termDirect == was.termDirect
    ensures was.termTargets.Some? ==> Counted(was.termGroups, now.termGroups, was.termTargets.value, ticks)
  {
    hide AllTicked, Counted, Unfinished, AskAll, Looked, Suitable;
  }

  lemma {:induction false} AllUnfinished(ticks: seq<Ticked>)
    requires forall i :: 0 <= i < |ticks| ==> ticks[i].anchor.state != Finished
    ensures |Unfinished(ticks)| == |ticks|
    ensures forall i :: 0 <= i < |ticks| ==> Unfinished(ticks)[i] == ticks[i].anchor
  {
    if ticks == [] {
    } else {
      AllUnfinished(ticks[..|ticks| - 1]);
    }
  }

  /** The members greet: every anchor is pinned and told to send TERM. */
  lemma GreetingTurn(was: State, now: State, env: Environment, ticks: seq<Ticked>, sid: int, guardian: int,
                     pid: int, foreground: int)
    requires Turned(was, now, env, None, ticks, sid, guardian) && !was.resample && Pair(was.anchors, pid, foreground)
    requires forall i :: 0 <= i < |was.anchors| ==> Fresh(was.anchors[i])
    requires forall i :: 0 <= i < |env.anchors| ==>
               env.anchors[i].reports == [Greeting(true)] && !Fails(env.anchors[i]) && !env.anchors[i].exited
    ensures now.termTargets == was.termTargets && now.termDirect == was.termDirect && !now.resample
    ensures Pair(now.anchors, pid, foreground) && forall i :: 0 <= i < |now.anchors| ==> Ready(now.anchors[i])
  {
    QuietTurn(was, now, env, ticks, sid, guardian);
    hide Turned, Unfinished;
    forall i | 0 <= i < |ticks|
      ensures Ready(ticks[i].anchor) && ticks[i].anchor.group == was.anchors[i].group
    {
      assert Answers(was.anchors[i], env.anchors[i], ticks[i]);
    }
    AllUnfinished(ticks);
  }

  /** The members report TERM: both targets are confirmed. */
  lemma ConfirmingTurn(was: State, now: State, env: Environment, ticks: seq<Ticked>, sid: int, guardian: int,
                       pid: int, foreground: int)
    requires Turned(was, now, env, None, ticks, sid, guardian) && !was.resample && Pair(was.anchors, pid, foreground)
    requires forall i :: 0 <= i < |was.anchors| ==> Ready(was.anchors[i])
    requires was.termTargets == Some((pid, foreground)) && |was.anchors| <= |env.anchors|
    requires forall i :: 0 <= i < |was.anchors| ==>
               env.anchors[i].reports != [] && env.anchors[i].reports[0] == Applied(was.anchors[i].group, Term)
    ensures now.termTargets == was.termTargets && now.termDirect == was.termDirect && now.termGroups == (true, true)
  {
    QuietTurn(was, now, env, ticks, sid, guardian);
    hide Turned, Unfinished;
    forall i | 0 <= i < |ticks|
      ensures ticks[i].anchor.termApplied && ticks[i].anchor.group == was.anchors[i].group
    {
      assert Answers(was.anchors[i], env.anchors[i], ticks[i]);
    }
    assert Confirms(ticks, pid);
    assert Confirms(ticks, foreground);
  }

  /** TERM is acknowledged when it should be: asked for and delivered, its two anchors started, both
      members greeting at one turn and reporting TERM at a later one, all before the deadline. */
  method Acknowledge(sid: int, guardian: int, grace: nat, start: nat, first: Environment, second: Environment,
                     third: Environment)
    returns (taken: bool)
    requires first.now >= start && first.signal == Delivered && first.starts == (true, true) && !first.cleaning
    requires first.pid > 0 && first.foreground > 0 && Suitable(first.foreground, sid, guardian)
    requires first.now <= second.now < first.now + grace && first.now <= third.now < first.now + grace
    requires |second.anchors| == |third.anchors| == 2
    requires forall i :: 0 <= i < 2 ==> second.anchors[i].reports == [Greeting(true)]
    requires forall i :: 0 <= i < 2 ==> !Fails(second.anchors[i]) && !second.anchors[i].exited
    requires third.anchors[0].reports == [Applied(first.pid, Term)]
    requires third.anchors[1].reports == [Applied(first.foreground, Term)]
    ensures taken
  {
    hide Ok, Instructed, Witnessed, Sourced, Sends, Grown, Turned, Suitable;
    var c := new Canceller(sid, guardian, grace, start);
    c.Request(Term);
    ghost var was := c.s;
    var failed, sent;
    ghost var ticks;
    failed, sent, ticks := c.Tick(first);
    TermTurn(was, c.s, first, ticks, sid, guardian);
    was := c.s;
    failed, sent, ticks := c.Tick(second);
    GreetingTurn(was, c.s, second, ticks, sid, guardian, first.pid, first.foreground);
    was := c.s;
    failed, sent, ticks := c.Tick(third);
    ConfirmingTurn(was, c.s, third, ticks, sid, guardian, first.pid, first.foreground);
    taken := c.TakeTermApplied();
  }
}
