/** The staged heartbeat policy over the whole life of a driver handle: restarts, stops, repeated
    registrations and failures in any order. What the policy announces is cut into segments, one
    for each stretch of checks that saw the same driver run (popen pid, running since). */
module HeartbeatHistory {
  import opened Options
  import opened DriverHandle
  import G = Generations
  import E = HeartbeatEpisodes

  datatype Segment = Segment(run: RunId, log: seq<E.Seen>)

  /** The policy looks at the driver: it is running and has a heartbeat age. */
  predicate Sees(h: Handle, op: G.Op) { op.Check? && h.state == RUNNING && Age(h, op.now).Some? }

  predicate Continues(segments: seq<Segment>, run: RunId) {
    segments != [] && segments[|segments| - 1].run == run
  }

  function Add(segments: seq<Segment>, run: RunId, seen: E.Seen): (r: seq<Segment>)
    ensures r != []
  {
    if Continues(segments, run) then
      var n := |segments| - 1;
      segments[..n] + [Segment(run, segments[n].log + [seen])]
    else segments + [Segment(run, [seen])]
  }

  function Record(segments: seq<Segment>, h: Handle, now: real, spec: Spec, cfg: Config): seq<Segment>
    requires Age(h, now).Some?
  {
    Add(segments, RunIdOf(h), E.Seen(now, Age(h, now).value, Enforced(h, spec, cfg, now).1))
  }

  /** The segments of a run. */
  function Segments(ops: seq<G.Op>, spec: Spec, cfg: Config): seq<Segment> {
    if ops == [] then []
    else
      var before, op := ops[..|ops| - 1], ops[|ops| - 1];
      var h, segments := G.Run(before, spec, cfg).h, Segments(before, spec, cfg);
      if Sees(h, op) then Record(segments, h, op.now, spec, cfg) else segments
  }

  // ---------------------------------------------------------------- nothing is left out

  /** Everything the policy announced in a run. */
  function Events(ops: seq<G.Op>, spec: Spec, cfg: Config): seq<Event> {
    if ops == [] then []
    else
      var before, op := ops[..|ops| - 1], ops[|ops| - 1];
      Events(before, spec, cfg) +
      (if op.Check? then Enforced(G.Run(before, spec, cfg).h, spec, cfg, op.now).1 else [])
  }

  function Announced(segments: seq<Segment>): seq<Event> {
    if segments == [] then []
    else Announced(segments[..|segments| - 1]) + E.Announced(segments[|segments| - 1].log)
  }

  lemma AnnouncedAdd(segments: seq<Segment>, run: RunId, seen: E.Seen)
    ensures Announced(Add(segments, run, seen)) == Announced(segments) + seen.events
  {
    var after, n := Add(segments, run, seen), |segments| - 1;
    if Continues(segments, run) {
      assert after[..n] == segments[..n];
      E.AnnouncedSnoc(segments[n].log, seen);
    } else {
      assert after[..|segments|] == segments;
      E.AnnouncedSnoc([], seen);
      assert [] + [seen] == [seen];
    }
  }

  ghost predicate Alternates(segments: seq<Segment>) {
    forall i :: 0 < i < |segments| ==> segments[i - 1].run != segments[i].run
  }

  /** The segments spell exactly what was announced, in order, and consecutive segments belong to
      different driver runs. */
  lemma {:induction false} SegmentsSpellEvents(ops: seq<G.Op>, spec: Spec, cfg: Config)
    ensures Announced(Segments(ops, spec, cfg)) == Events(ops, spec, cfg) && Alternates(Segments(ops, spec, cfg))
  {
    hide Enforced, Age, G.Run;
    if ops == [] {
    } else {
      var before, op := ops[..|ops| - 1], ops[|ops| - 1];
      SegmentsSpellEvents(before, spec, cfg);
      var h := G.Run(before, spec, cfg).h;
      if Sees(h, op) {
        AnnouncedAdd(Segments(before, spec, cfg), RunIdOf(h),
                     E.Seen(op.now, Age(h, op.now).value, Enforced(h, spec, cfg, op.now).1));
      } else if op.Check? {
        UnseenCheck(h, op.now, spec, cfg);
      }
    }
  }

  lemma UnseenCheck(h: Handle, now: real, spec: Spec, cfg: Config)
    requires h.state != RUNNING || Age(h, now).None?
    ensures Enforced(h, spec, cfg, now) == (h, [])
  {}

  // ---------------------------------------------------------------- the clock

  function TimeOf(op: G.Op): Option<real> {
    match op
    case StopBegin(now) => Some(now)
    case StopEnd(_, now) => Some(now)
    case Restart(now) => Some(now)
    case Supervise(now, _, _, _) => Some(now)
    case Exhaust(now) => Some(now)
    case Check(now) => Some(now)
    case Register(_, _, _, now) => Some(now)
    case _ => None
  }

  function Latest(ops: seq<G.Op>, t: real): real {
    if ops == [] then t
    else if TimeOf(ops[|ops| - 1]).Some? then TimeOf(ops[|ops| - 1]).value
    else Latest(ops[..|ops| - 1], t)
  }

  /** Clock readings never go back before `t`; heartbeat receive times are unrestricted. */
  predicate Monotone(ops: seq<G.Op>, t: real) {
    ops == [] ||
    (Monotone(ops[..|ops| - 1], t) &&
     (TimeOf(ops[|ops| - 1]).Some? ==> Latest(ops[..|ops| - 1], t) <= TimeOf(ops[|ops| - 1]).value))
  }

  // ---------------------------------------------------------------- invariant

  ghost predicate Sound(seg: Segment, spec: Spec, cfg: Config) {
    PhaseOf(seg) != E.Broken && forall i :: 0 <= i < |seg.log| ==> E.SoundCheck(seg.log, i, spec, cfg)
  }

  function PhaseOf(seg: Segment): E.Phase { E.PhaseAfter(E.Announced(seg.log)) }

  /** The stale fields of the handle are those of the last segment, and a segment that ended in
      failure cannot be taken up again because its run began before the failure. */
  ghost predicate Follows(h: Handle, seg: Segment, t: real) {
    var phase := PhaseOf(seg);
    (phase == E.Calm <==> h.staleSince == None) &&
    (h.staleSince.Some? ==> h.staleRun == Some(seg.run)) &&
    (phase == E.InEpisode ==>
       h.staleMax == Some(E.EpisodeMax(seg.log)) && h.staleMax.value >= 0.0 &&
       h.staleSince == Some(E.EpisodeStart(seg.log))) &&
    (phase == E.Dead || phase == E.Scheduled ==>
       seg.run.since.Some? && seg.run.since.value < t &&
       (h.runningSince.Some? ==> seg.run.since.value < h.runningSince.value))
  }

  ghost predicate Linked(h: Handle, segments: seq<Segment>, t: real, spec: Spec, cfg: Config) {
    (forall i :: 0 <= i < |segments| ==> Sound(segments[i], spec, cfg)) &&
    (h.state == RUNNING ==> h.runningSince.Some?) && (h.runningSince.Some? ==> h.runningSince.value <= t) &&
    (if segments == [] then h.staleSince == None else Follows(h, segments[|segments| - 1], t))
  }

  /** What a step other than a check that sees the driver may do to the handle. */
  lemma OtherStepKeepsEpisode(s: G.System, op: G.Op, spec: Spec, cfg: Config)
    requires !Sees(s.h, op)
    ensures var h' := G.Step(s, op, spec, cfg).h;
            h'.staleSince == s.h.staleSince && h'.staleMax == s.h.staleMax && h'.staleRun == s.h.staleRun &&
            (h'.state == RUNNING && h'.runningSince == None ==> s.h.state == RUNNING && s.h.runningSince == None) &&
            (h'.runningSince == None || h'.runningSince == s.h.runningSince ||
             (op.Register? && h'.runningSince == Some(op.now)))
  {
    if op.Check? { UnseenCheck(s.h, op.now, spec, cfg); }
    hide Enforced, Reference;
  }

  lemma OtherStepKeepsLink(s: G.System, segments: seq<Segment>, op: G.Op, t: real, t': real, spec: Spec, cfg: Config)
    requires Linked(s.h, segments, t, spec, cfg) && !Sees(s.h, op) && t <= t' && (op.Register? ==> op.now == t')
    ensures Linked(G.Step(s, op, spec, cfg).h, segments, t', spec, cfg)
  {
    hide G.Step, Sees, PhaseOf, Sound, E.EpisodeMax, E.EpisodeStart;
    OtherStepKeepsEpisode(s, op, spec, cfg);
  }

  /** The watch under which the next check of this handle falls. */
  function WatchOf(h: Handle, segments: seq<Segment>): E.Watch {
    E.Watch(h, if Continues(segments, RunIdOf(h)) then segments[|segments| - 1].log else [])
  }

  lemma WatchAgrees(h: Handle, segments: seq<Segment>, t: real, spec: Spec, cfg: Config)
    requires Linked(h, segments, t, spec, cfg) && h.state == RUNNING
    ensures E.Agree(WatchOf(h, segments), RunIdOf(h), spec, cfg)
  {
    hide E.SoundCheck, E.EpisodeMax, E.EpisodeStart;
    if !Continues(segments, RunIdOf(h)) { E.StartAgrees(h, spec, cfg); }
    hide E.PhaseAfter, E.Announced;
  }

  /** A failing check comes strictly after the start of the run. */
  lemma FailureIsLater(h: Handle, now: real, cfg: Config)
    requires h.runningSince.Some? && Age(h, now).Some? && Age(h, now).value > cfg.timeout >= 0.0
    ensures h.runningSince.value < now
  {}

  /** How a check leaves the handle. */
  ghost predicate Left(h: Handle, h': Handle, now: real)
    requires h.runningSince.Some?
  {
    if h'.state == RUNNING then
      RunIdOf(h') == RunIdOf(h) && (h'.staleSince == None || E.Open(h'))
    else
      h'.runningSince == None && h'.staleSince.Some? && h'.staleRun == Some(RunIdOf(h)) && h.runningSince.value < now
  }

  lemma CheckLeaves(h: Handle, now: real, spec: Spec, cfg: Config)
    requires h.state == RUNNING && h.runningSince.Some? && Age(h, now).Some? && cfg.timeout >= 0.0
    ensures h.runningSince.Some? && Left(h, Enforced(h, spec, cfg, now).0, now)
  {
    E.CheckByVerdict(h, spec, cfg, now);
    if Age(h, now).value > cfg.timeout { FailureIsLater(h, now, cfg); }
    hide Enforced, Age;
  }

  lemma AgreeingSegmentFollows(h: Handle, h': Handle, log: seq<E.Seen>, now: real, spec: Spec, cfg: Config)
    requires h.runningSince.Some? && h.runningSince.value <= now && Left(h, h', now)
    requires E.Agree(E.Watch(h', log), RunIdOf(h), spec, cfg)
    ensures var seg := Segment(RunIdOf(h), log);
            Sound(seg, spec, cfg) && Follows(h', seg, now) &&
            (h'.state == RUNNING ==> h'.runningSince.Some?) &&
            (h'.runningSince.Some? ==> h'.runningSince.value <= now)
  {
    hide E.PhaseAfter, E.Announced, E.EpisodeMax, E.EpisodeStart, E.SoundCheck;
  }

  lemma CheckFollows(h: Handle, log: seq<E.Seen>, now: real, spec: Spec, cfg: Config)
    requires h.state == RUNNING && h.runningSince.Some? && h.runningSince.value <= now && Age(h, now).Some?
    requires cfg.timeout >= 0.0 && E.Agree(E.Watch(h, log), RunIdOf(h), spec, cfg)
    ensures var (h', ev) := Enforced(h, spec, cfg, now);
            var seg := Segment(RunIdOf(h), log + [E.Seen(now, Age(h, now).value, ev)]);
            Sound(seg, spec, cfg) && Follows(h', seg, now) &&
            (h'.state == RUNNING ==> h'.runningSince.Some?) &&
            (h'.runningSince.Some? ==> h'.runningSince.value <= now)
  {
    hide Enforced, Age, E.Agree, Left, Sound, Follows;
    E.CheckAgrees(E.Watch(h, log), now, RunIdOf(h), spec, cfg);
    CheckLeaves(h, now, spec, cfg);
    var (h', ev) := Enforced(h, spec, cfg, now);
    AgreeingSegmentFollows(h, h', log + [E.Seen(now, Age(h, now).value, ev)], now, spec, cfg);
  }

  lemma CheckKeepsLink(h: Handle, segments: seq<Segment>, now: real, t: real, spec: Spec, cfg: Config)
    requires Linked(h, segments, t, spec, cfg) && t <= now && cfg.timeout >= 0.0
    requires h.state == RUNNING && Age(h, now).Some?
    ensures Linked(Enforced(h, spec, cfg, now).0, Record(segments, h, now, spec, cfg), now, spec, cfg)
  {
    WatchAgrees(h, segments, t, spec, cfg);
    CheckFollows(h, WatchOf(h, segments).log, now, spec, cfg);
    hide Enforced, Age, Sound, Follows, E.Agree;
    var seen := E.Seen(now, Age(h, now).value, Enforced(h, spec, cfg, now).1);
    assert [] + [seen] == [seen];
  }

  lemma {:induction false} RunKeepsLink(ops: seq<G.Op>, t: real, spec: Spec, cfg: Config)
    requires Monotone(ops, t) && cfg.timeout >= 0.0
    ensures Linked(G.Run(ops, spec, cfg).h, Segments(ops, spec, cfg), Latest(ops, t), spec, cfg)
  {
    hide Linked, Record, Enforced, Age;
    if ops == [] {
      LinkedInitially(t, spec, cfg);
    } else {
      var before, op := ops[..|ops| - 1], ops[|ops| - 1];
      RunKeepsLink(before, t, spec, cfg);
      var s := G.Run(before, spec, cfg);
      if Sees(s.h, op) {
        CheckKeepsLink(s.h, Segments(before, spec, cfg), op.now, Latest(before, t), spec, cfg);
      } else {
        OtherStepKeepsLink(s, Segments(before, spec, cfg), op, Latest(before, t), Latest(ops, t), spec, cfg);
      }
    }
  }

  lemma LinkedInitially(t: real, spec: Spec, cfg: Config)
    ensures Linked(NEW_HANDLE, [], t, spec, cfg)
  {}

  /** Over every run of the manager with a monotone clock, each segment's announcements match
      (stale recovered)* with an optional final stale, optionally followed by failed; failures come
      at the hard timeout and inside an announced episode; recoveries report the maximum age. */
  lemma HistoryAnnouncesEpisodes(ops: seq<G.Op>, t: real, spec: Spec, cfg: Config, i: nat)
    requires Monotone(ops, t) && cfg.timeout >= 0.0 && i < |Segments(ops, spec, cfg)|
    ensures var log := Segments(ops, spec, cfg)[i].log;
            E.Matches(E.Announced(log)) && forall k :: 0 <= k < |log| ==> E.SoundCheck(log, k, spec, cfg)
  {
    RunKeepsLink(ops, t, spec, cfg);
    var ev := E.Announced(Segments(ops, spec, cfg)[i].log);
    E.PhaseBothWays(ev);
    E.UnbrokenMatches(ev);
  }
}
