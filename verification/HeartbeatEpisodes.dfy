/** What the staged heartbeat policy announces over the life of one driver run. */
module HeartbeatEpisodes {
  import opened Options
  import opened DriverHandle

  // ---------------------------------------------------------------- the event grammar

  /** (stale recovered)* with an optional final stale, optionally followed by failed (and, where
      configured, the restart announcement). */
  predicate Matches(ev: seq<Event>) {
    ev == [] ||
    (ev[0].Stale? &&
     (|ev| == 1 ||
      (ev[1].Recovered? && Matches(ev[2..])) ||
      (ev[1].Failed? && (|ev| == 2 || (|ev| == 3 && ev[2].RestartScheduled?)))))
  }

  datatype Phase = Calm | InEpisode | Dead | Scheduled | Broken

  function NextPhase(p: Phase, e: Event): Phase {
    match (p, e)
    case (Calm, Stale(_)) => InEpisode
    case (InEpisode, Recovered(_, _, _)) => Calm
    case (InEpisode, Failed(_)) => Dead
    case (Dead, RestartScheduled) => Scheduled
    case _ => Broken
  }

  function PhaseAfter(ev: seq<Event>): Phase {
    if ev == [] then Calm else NextPhase(PhaseAfter(ev[..|ev| - 1]), ev[|ev| - 1])
  }

  lemma PhaseSnoc(ev: seq<Event>, e: Event)
    ensures PhaseAfter(ev + [e]) == NextPhase(PhaseAfter(ev), e)
  {
    assert (ev + [e])[..|ev|] == ev;
  }

  /** Running the automaton from any phase, front to back. */
  function PhaseFrom(p: Phase, ev: seq<Event>): Phase
    decreases |ev|
  {
    if ev == [] then p else PhaseFrom(NextPhase(p, ev[0]), ev[1..])
  }

  lemma {:induction false} PhaseFromSnoc(p: Phase, ev: seq<Event>, e: Event)
    ensures PhaseFrom(p, ev + [e]) == NextPhase(PhaseFrom(p, ev), e)
    decreases |ev|
  {
    if ev == [] {
      assert [e][1..] == [];
    } else {
      PhaseFromSnoc(NextPhase(p, ev[0]), ev[1..], e);
      assert (ev + [e])[1..] == ev[1..] + [e];
    }
  }

  lemma {:induction false} PhaseBothWays(ev: seq<Event>)
    ensures PhaseFrom(Calm, ev) == PhaseAfter(ev)
  {
    if ev == [] {
    } else {
      PhaseBothWays(ev[..|ev| - 1]);
      PhaseFromSnoc(Calm, ev[..|ev| - 1], ev[|ev| - 1]);
      assert ev == ev[..|ev| - 1] + [ev[|ev| - 1]];
    }
  }

  lemma {:induction false} BrokenStaysBroken(ev: seq<Event>)
    ensures PhaseFrom(Broken, ev) == Broken
  {
    if ev == [] {
    } else {
      BrokenStaysBroken(ev[1..]);
    }
  }

  /** After a failure only the restart announcement may follow. */
  lemma AfterFailure(ev: seq<Event>)
    requires PhaseFrom(Dead, ev) != Broken
    ensures ev == [] || (|ev| == 1 && ev[0].RestartScheduled?)
  {
    if ev != [] {
      BrokenStaysBroken(ev[1..]);
      if |ev| > 1 { BrokenStaysBroken(ev[1..][1..]); }
    }
  }

  lemma {:induction false} UnbrokenMatches(ev: seq<Event>)
    requires PhaseFrom(Calm, ev) != Broken
    ensures Matches(ev)
    decreases |ev|
  {
    if ev == [] {
    } else {
      BrokenStaysBroken(ev[1..]);
      if |ev| > 1 {
        assert ev[1..][1..] == ev[2..];
        BrokenStaysBroken(ev[2..]);
        if ev[1].Recovered? { UnbrokenMatches(ev[2..]); }
        if ev[1].Failed? { AfterFailure(ev[2..]); }
      }
    }
  }

  /** And every sequence of the grammar is accepted. */
  lemma {:induction false} MatchesIsUnbroken(ev: seq<Event>)
    requires Matches(ev)
    ensures PhaseFrom(Calm, ev) != Broken
    decreases |ev|
  {
    if ev == [] || |ev| == 1 {
    } else {
      assert ev[1..][1..] == ev[2..];
      if ev[1].Recovered? {
        MatchesIsUnbroken(ev[2..]);
      } else {
        assert PhaseFrom(Calm, ev) == PhaseFrom(InEpisode, ev[1..]) == PhaseFrom(Dead, ev[2..]);
        if |ev| > 2 { assert PhaseFrom(Dead, ev[2..]) == PhaseFrom(Scheduled, ev[2..][1..]) && ev[2..][1..] == []; }
      }
    }
  }

  lemma MatchesIff(ev: seq<Event>)
    ensures Matches(ev) <==> PhaseAfter(ev) != Broken
  {
    hide Matches, PhaseFrom;
    PhaseBothWays(ev);
    if Matches(ev) { MatchesIsUnbroken(ev); }
    if PhaseAfter(ev) != Broken { UnbrokenMatches(ev); }
  }

  // ---------------------------------------------------------------- one run of the driver

  /** What can happen while the driver run stays the same: heartbeats arrive (their receive time
      may be anything), and the policy checks. */
  datatype Op = Beat(at: real, reachable: bool) | Check(now: real)

  /** One check of a running driver: its time, the age it saw and what it announced. */
  datatype Seen = Seen(now: real, age: real, events: seq<Event>)
  datatype Watch = Watch(h: Handle, log: seq<Seen>)

  function Step(w: Watch, op: Op, spec: Spec, cfg: Config): Watch {
    match op
    case Beat(at, reachable) => w.(h := HeartbeatReceived(w.h, at, reachable))
    case Check(now) =>
      if w.h.state != RUNNING || Age(w.h, now).None? then w
      else
        var (h, events) := Enforced(w.h, spec, cfg, now);
        Watch(h, w.log + [Seen(now, Age(w.h, now).value, events)])
  }

  function Run(h: Handle, ops: seq<Op>, spec: Spec, cfg: Config): Watch {
    if ops == [] then Watch(h, []) else Step(Run(h, ops[..|ops| - 1], spec, cfg), ops[|ops| - 1], spec, cfg)
  }

  function Announced(log: seq<Seen>): seq<Event> {
    if log == [] then [] else Announced(log[..|log| - 1]) + log[|log| - 1].events
  }

  predicate OpensEpisode(s: Seen) { s.events != [] && s.events[0].Stale? }

  /** The largest age over the checks from the one that announced the latest episode onwards. */
  function EpisodeMax(log: seq<Seen>): real {
    if log == [] then 0.0
    else if OpensEpisode(log[|log| - 1]) then log[|log| - 1].age
    else Max(log[|log| - 1].age, EpisodeMax(log[..|log| - 1]))
  }

  /** The time of the check that announced the latest episode. */
  function EpisodeStart(log: seq<Seen>): real {
    if log == [] then 0.0
    else if OpensEpisode(log[|log| - 1]) then log[|log| - 1].now
    else EpisodeStart(log[..|log| - 1])
  }

  /** It is the maximum: an upper bound of the episode's ages, and one of them. */
  lemma {:induction false} EpisodeMaxIsMaximum(log: seq<Seen>, start: nat)
    requires start < |log| && OpensEpisode(log[start]) && forall i :: start < i < |log| ==> !OpensEpisode(log[i])
    ensures forall i :: start <= i < |log| ==> log[i].age <= EpisodeMax(log)
    ensures exists i :: start <= i < |log| && log[i].age == EpisodeMax(log)
  {
    var n := |log| - 1;
    if start == n {
    } else {
      var before := log[..n];
      EpisodeMaxIsMaximum(before, start);
      var i :| start <= i < |before| && before[i].age == EpisodeMax(before);
      assert log[i].age == EpisodeMax(before);
      assert log[n].age == log[|log| - 1].age;
      forall k | start <= k < n ensures log[k].age <= EpisodeMax(before) { assert log[k] == before[k]; }
    }
  }

  /** An announced, unfinished episode of the current run. */
  predicate Open(h: Handle) { h.staleSince.Some? && h.staleRun == Some(RunIdOf(h)) }

  ghost predicate SoundCheck(log: seq<Seen>, i: nat, spec: Spec, cfg: Config)
    requires i < |log|
  {
    forall k :: 0 <= k < |log[i].events| ==>
      match log[i].events[k]
      case Stale(age) => age == log[i].age > cfg.timeout
      case Recovered(age, duration, maxAge) =>
        age == log[i].age <= cfg.timeout && maxAge == Some(EpisodeMax(log[..i])) &&
        duration == Max(0.0, log[i].now - EpisodeStart(log[..i]))
      case Failed(age) => age == log[i].age >= HardTimeout(spec, cfg) && age > cfg.timeout
      case RestartScheduled => spec.restartOnTimeout
  }

  /** The handle and the announcements agree. */
  ghost predicate Agree(w: Watch, run: RunId, spec: Spec, cfg: Config) {
    var phase := PhaseAfter(Announced(w.log));
    (forall i :: 0 <= i < |w.log| ==> SoundCheck(w.log, i, spec, cfg)) &&
    (if w.h.state == RUNNING then
       RunIdOf(w.h) == run && phase == (if Open(w.h) then InEpisode else Calm) &&
       (Open(w.h) ==>
          w.h.staleMax == Some(EpisodeMax(w.log)) && w.h.staleMax.value >= 0.0 &&
          w.h.staleSince == Some(EpisodeStart(w.log)))
     else phase == Dead || phase == Scheduled)
  }

  lemma SoundCheckPrefix(log: seq<Seen>, s: Seen, i: nat, spec: Spec, cfg: Config)
    requires i < |log| && SoundCheck(log, i, spec, cfg)
    ensures SoundCheck(log + [s], i, spec, cfg)
  {
    assert (log + [s])[..i] == log[..i];
  }

  lemma AnnouncedSnoc(log: seq<Seen>, s: Seen)
    ensures Announced(log + [s]) == Announced(log) + s.events
    ensures EpisodeMax(log + [s]) == if OpensEpisode(s) then s.age else Max(s.age, EpisodeMax(log))
    ensures EpisodeStart(log + [s]) == if OpensEpisode(s) then s.now else EpisodeStart(log)
  {
    assert (log + [s])[..|log|] == log;
  }

  /** Phases over the at most three events of one check. */
  lemma PhaseOfCheck(ev: seq<Event>, more: seq<Event>)
    ensures |more| == 0 ==> PhaseAfter(ev + more) == PhaseAfter(ev)
    ensures |more| == 1 ==> PhaseAfter(ev + more) == NextPhase(PhaseAfter(ev), more[0])
    ensures |more| == 2 ==> PhaseAfter(ev + more) == NextPhase(NextPhase(PhaseAfter(ev), more[0]), more[1])
    ensures |more| == 3 ==>
      PhaseAfter(ev + more) == NextPhase(NextPhase(NextPhase(PhaseAfter(ev), more[0]), more[1]), more[2])
  {
    hide PhaseAfter, NextPhase;
    if |more| == 0 {
      assert ev + more == ev;
    } else if |more| == 1 {
      PhaseSnoc(ev, more[0]);
      assert ev + more == ev + [more[0]];
    } else if |more| == 2 {
      PhaseSnoc(ev, more[0]);
      PhaseSnoc(ev + [more[0]], more[1]);
      assert ev + more == ev + [more[0]] + [more[1]];
    } else if |more| == 3 {
      PhaseSnoc(ev, more[0]);
      PhaseSnoc(ev + [more[0]], more[1]);
      PhaseSnoc(ev + [more[0]] + [more[1]], more[2]);
      assert ev + more == ev + [more[0]] + [more[1]] + [more[2]];
    }
  }

  /** The four ways a check can go. */
  datatype Verdict = Quiet | Recovery | Soft | Hard

  function VerdictOf(h: Handle, age: real, spec: Spec, cfg: Config): Verdict {
    if age <= cfg.timeout then (if Open(h) then Recovery else Quiet)
    else if age < HardTimeout(spec, cfg) then Soft else Hard
  }

  /** Events and resulting handle of a check, by verdict. */
  lemma CheckByVerdict(h: Handle, spec: Spec, cfg: Config, now: real)
    requires h.state == RUNNING && Age(h, now).Some?
    ensures var age := Age(h, now).value;
            var (h', ev) := Enforced(h, spec, cfg, now);
            var opening := if Open(h) then [] else [Stale(age)];
            var max' := if Open(h) then Max(age, if h.staleMax.Some? then h.staleMax.value else 0.0) else age;
            age >= 0.0 &&
            match VerdictOf(h, age, spec, cfg)
            case Quiet =>
              ev == [] && h'.state == RUNNING && RunIdOf(h') == RunIdOf(h) && h'.staleSince == None
            case Recovery =>
              ev == [Recovered(age, Max(0.0, now - h.staleSince.value), h.staleMax)] &&
              h'.state == RUNNING && RunIdOf(h') == RunIdOf(h) && h'.staleSince == None
            case Soft =>
              ev == opening && h'.state == RUNNING && RunIdOf(h') == RunIdOf(h) && Open(h') &&
              h'.staleMax == Some(max') && h'.staleSince == (if Open(h) then h.staleSince else Some(now))
            case Hard =>
              ev == opening + [Failed(age)] + (if spec.restartOnTimeout then [RestartScheduled] else []) &&
              h'.state == FAILED && h'.runningSince == None &&
              h'.staleSince.Some? && h'.staleRun == Some(RunIdOf(h))
  {
    hide Reference;
  }

  /** One more check keeps the earlier ones sound. */
  lemma SoundChecksGrow(log: seq<Seen>, s: Seen, spec: Spec, cfg: Config)
    requires forall i :: 0 <= i < |log| ==> SoundCheck(log, i, spec, cfg)
    requires SoundCheck(log + [s], |log|, spec, cfg)
    ensures forall i :: 0 <= i < |log + [s]| ==> SoundCheck(log + [s], i, spec, cfg)
  {
    forall i | 0 <= i < |log + [s]| ensures SoundCheck(log + [s], i, spec, cfg) {
      if i < |log| { SoundCheckPrefix(log, s, i, spec, cfg); }
    }
    hide SoundCheck;
  }

  /** The check that `s` records is sound, by verdict. */
  lemma QuietIsSound(log: seq<Seen>, s: Seen, spec: Spec, cfg: Config)
    requires s.events == []
    ensures SoundCheck(log + [s], |log|, spec, cfg)
  {}

  lemma RecoveryIsSound(log: seq<Seen>, s: Seen, spec: Spec, cfg: Config)
    requires |s.events| == 1 && s.events[0].Recovered? && s.events[0].age == s.age <= cfg.timeout
    requires s.events[0].maxAge == Some(EpisodeMax(log))
    requires s.events[0].duration == Max(0.0, s.now - EpisodeStart(log))
    ensures SoundCheck(log + [s], |log|, spec, cfg)
  {
    hide EpisodeMax, EpisodeStart;
    assert (log + [s])[..|log|] == log;
  }

  lemma AlarmIsSound(log: seq<Seen>, s: Seen, opening: seq<Event>, rest: seq<Event>, spec: Spec, cfg: Config)
    requires s.age > cfg.timeout && s.events == opening + rest && (opening == [] || opening == [Stale(s.age)])
    requires rest == [] || (s.age >= HardTimeout(spec, cfg) &&
               rest == [Failed(s.age)] + if spec.restartOnTimeout then [RestartScheduled] else [])
    ensures SoundCheck(log + [s], |log|, spec, cfg)
  {
    hide EpisodeMax, EpisodeStart;
    assert forall k :: 0 <= k < |s.events| ==>
      s.events[k] == if k < |opening| then opening[k] else rest[k - |opening|];
  }

  /** What a check needs to know of the announcements so far. */
  ghost predicate Before(w: Watch, run: RunId, spec: Spec, cfg: Config) {
    Agree(w, run, spec, cfg) && w.h.state == RUNNING
  }

  lemma CalmCheckAgrees(w: Watch, s: Seen, h': Handle, run: RunId, spec: Spec, cfg: Config)
    requires Before(w, run, spec, cfg) && h'.state == RUNNING && RunIdOf(h') == run && h'.staleSince == None
    requires (s.events == [] && !Open(w.h)) ||
             (Open(w.h) && s.age <= cfg.timeout &&
              s.events == [Recovered(s.age, Max(0.0, s.now - w.h.staleSince.value), w.h.staleMax)])
    ensures Agree(Watch(h', w.log + [s]), run, spec, cfg)
  {
    AnnouncedSnoc(w.log, s);
    PhaseOfCheck(Announced(w.log), s.events);
    if s.events == [] { QuietIsSound(w.log, s, spec, cfg); } else { RecoveryIsSound(w.log, s, spec, cfg); }
    SoundChecksGrow(w.log, s, spec, cfg);
    hide SoundCheck, PhaseAfter, Announced, EpisodeMax, EpisodeStart;
  }

  lemma SoftCheckAgrees(w: Watch, s: Seen, h': Handle, run: RunId, spec: Spec, cfg: Config)
    requires Before(w, run, spec, cfg) && h'.state == RUNNING && RunIdOf(h') == run && Open(h') && s.age > cfg.timeout
    requires s.events == (if Open(w.h) then [] else [Stale(s.age)]) && s.age >= 0.0
    requires h'.staleMax == Some(if Open(w.h) then Max(s.age, w.h.staleMax.value) else s.age)
    requires h'.staleSince == if Open(w.h) then w.h.staleSince else Some(s.now)
    ensures Agree(Watch(h', w.log + [s]), run, spec, cfg)
  {
    hide SoundCheck, PhaseAfter, Announced, EpisodeMax, EpisodeStart;
    AnnouncedSnoc(w.log, s);
    PhaseAfterAlarm(Announced(w.log), s.age, Open(w.h));
    assert s.events + [] == s.events;
    AlarmIsSound(w.log, s, s.events, [], spec, cfg);
    SoundChecksGrow(w.log, s, spec, cfg);
  }

  /** An alarm leaves an episode open, opening it where needed. */
  lemma PhaseAfterAlarm(ev: seq<Event>, age: real, open: bool)
    requires PhaseAfter(ev) == (if open then InEpisode else Calm)
    ensures PhaseAfter(ev + if open then [] else [Stale(age)]) == InEpisode
  {
    PhaseOfCheck(ev, if open then [] else [Stale(age)]);
    hide PhaseAfter;
  }

  /** A failure ends the episode, opening it first where needed. */
  lemma PhaseAfterFailure(ev: seq<Event>, more: seq<Event>, age: real, open: bool, restart: bool)
    requires PhaseAfter(ev) == (if open then InEpisode else Calm)
    requires more == (if open then [] else [Stale(age)]) + [Failed(age)] + (if restart then [RestartScheduled] else [])
    ensures PhaseAfter(ev + more) == if restart then Scheduled else Dead
  {
    PhaseOfCheck(ev, more);
    hide PhaseAfter;
    assert NextPhase(Calm, Stale(age)) == InEpisode && NextPhase(InEpisode, Failed(age)) == Dead;
    assert NextPhase(Dead, RestartScheduled) == Scheduled;
  }

  lemma HardCheckAgrees(w: Watch, s: Seen, h': Handle, run: RunId, spec: Spec, cfg: Config)
    requires Before(w, run, spec, cfg) && h'.state != RUNNING && s.age > cfg.timeout && s.age >= HardTimeout(spec, cfg)
    requires s.events == (if Open(w.h) then [] else [Stale(s.age)]) + [Failed(s.age)] +
               (if spec.restartOnTimeout then [RestartScheduled] else [])
    ensures Agree(Watch(h', w.log + [s]), run, spec, cfg)
  {
    var opening := if Open(w.h) then [] else [Stale(s.age)];
    var rest := [Failed(s.age)] + if spec.restartOnTimeout then [RestartScheduled] else [];
    hide SoundCheck, PhaseAfter, Announced, EpisodeMax, EpisodeStart;
    assert s.events == opening + rest;
    AnnouncedSnoc(w.log, s);
    PhaseAfterFailure(Announced(w.log), s.events, s.age, Open(w.h), spec.restartOnTimeout);
    AlarmIsSound(w.log, s, opening, rest, spec, cfg);
    SoundChecksGrow(w.log, s, spec, cfg);
  }

  lemma CheckAgrees(w: Watch, now: real, run: RunId, spec: Spec, cfg: Config)
    requires Agree(w, run, spec, cfg) && w.h.state == RUNNING && Age(w.h, now).Some?
    ensures Agree(Step(w, Check(now), spec, cfg), run, spec, cfg)
  {
    CheckByVerdict(w.h, spec, cfg, now);
    hide Enforced, Age, SoundCheck, PhaseAfter, Announced, EpisodeMax, EpisodeStart;
    var age := Age(w.h, now).value;
    var (h', ev) := Enforced(w.h, spec, cfg, now);
    var s := Seen(now, age, ev);
    match VerdictOf(w.h, age, spec, cfg) {
      case Quiet => CalmCheckAgrees(w, s, h', run, spec, cfg);
      case Recovery => CalmCheckAgrees(w, s, h', run, spec, cfg);
      case Soft => SoftCheckAgrees(w, s, h', run, spec, cfg);
      case Hard => HardCheckAgrees(w, s, h', run, spec, cfg);
    }
  }

  lemma {:induction false} RunAgrees(h: Handle, ops: seq<Op>, spec: Spec, cfg: Config)
    requires h.state == RUNNING && !Open(h)
    ensures Agree(Run(h, ops, spec, cfg), RunIdOf(h), spec, cfg)
  {
    hide Agree;
    if ops == [] {
      StartAgrees(h, spec, cfg);
    } else {
      var w, op := Run(h, ops[..|ops| - 1], spec, cfg), ops[|ops| - 1];
      RunAgrees(h, ops[..|ops| - 1], spec, cfg);
      if op.Beat? {
        BeatAgrees(w, op.at, op.reachable, RunIdOf(h), spec, cfg);
      } else if w.h.state == RUNNING && Age(w.h, op.now).Some? {
        CheckAgrees(w, op.now, RunIdOf(h), spec, cfg);
      }
    }
  }

  lemma StartAgrees(h: Handle, spec: Spec, cfg: Config)
    requires h.state == RUNNING && !Open(h)
    ensures Agree(Watch(h, []), RunIdOf(h), spec, cfg)
  {}

  lemma BeatAgrees(w: Watch, at: real, reachable: bool, run: RunId, spec: Spec, cfg: Config)
    requires Agree(w, run, spec, cfg)
    ensures Agree(Step(w, Beat(at, reachable), spec, cfg), run, spec, cfg)
  {}

  /** The announcements of one driver run, for every pattern of heartbeats and checks and without
      any assumption on the clock or the two timeouts: they match the grammar; a failure comes
      only at an age of at least the hard timeout and inside an announced episode; and a recovery
      reports the maximum age over the checks of its episode. */
  lemma RunAnnouncesEpisodes(h: Handle, ops: seq<Op>, spec: Spec, cfg: Config)
    requires h.state == RUNNING && !Open(h)
    ensures var w := Run(h, ops, spec, cfg);
            Matches(Announced(w.log)) && forall i :: 0 <= i < |w.log| ==> SoundCheck(w.log, i, spec, cfg)
  {
    RunAgrees(h, ops, spec, cfg);
    var ev := Announced(Run(h, ops, spec, cfg).log);
    PhaseBothWays(ev);
    UnbrokenMatches(ev);
  }

  // ---------------------------------------------------------------- checks from the history alone

  /** When the last heartbeat of these steps was received. */
  function LastBeat(ops: seq<Op>): Option<real> {
    if ops == [] then None
    else if ops[|ops| - 1].Beat? then Some(ops[|ops| - 1].at)
    else LastBeat(ops[..|ops| - 1])
  }

  lemma CheckKeepsBeat(h: Handle, now: real, spec: Spec, cfg: Config)
    ensures var h' := Enforced(h, spec, cfg, now).0;
            h'.hbRecv == h.hbRecv && (h'.state == RUNNING ==> h'.runningSince == h.runningSince)
  {}

  lemma {:induction false} RunKeepsBeat(h: Handle, ops: seq<Op>, spec: Spec, cfg: Config)
    ensures var h' := Run(h, ops, spec, cfg).h;
            h'.hbRecv == (if LastBeat(ops).Some? then LastBeat(ops) else h.hbRecv) &&
            (h'.state == RUNNING ==> h.state == RUNNING && h'.runningSince == h.runningSince)
  {
    if ops == [] {
    } else {
      hide Enforced, Age;
      var op := ops[|ops| - 1];
      RunKeepsBeat(h, ops[..|ops| - 1], spec, cfg);
      if op.Check? {
        CheckKeepsBeat(Run(h, ops[..|ops| - 1], spec, cfg).h, op.now, spec, cfg);
        NotRunningStays(Run(h, ops[..|ops| - 1], spec, cfg).h, op.now, spec, cfg);
      }
    }
  }

  lemma NotRunningStays(h: Handle, now: real, spec: Spec, cfg: Config)
    ensures Enforced(h, spec, cfg, now).0.state == RUNNING ==> h.state == RUNNING
  {}

  /** A driver run at its start: no heartbeat of it has been received yet. */
  predicate Fresh(h: Handle, since: real) {
    h.state == RUNNING && h.runningSince == Some(since) && !Open(h) && (h.hbRecv.None? || h.hbRecv.value < since)
  }

  /** How long the driver has been silent: since its last heartbeat, if that belongs to this run, or
      else since the run began. */
  function Silence(ops: seq<Op>, since: real, now: real): real {
    var heard := if LastBeat(ops).Some? && since <= LastBeat(ops).value then LastBeat(ops).value else since;
    Max(0.0, now - heard)
  }

  /** What a check must announce, given the silence and the checks before it. */
  function Expected(log: seq<Seen>, silence: real, now: real, spec: Spec, cfg: Config): seq<Event> {
    var open := PhaseAfter(Announced(log)) == InEpisode;
    if silence <= cfg.timeout then
      if open then [Recovered(silence, Max(0.0, now - EpisodeStart(log)), Some(EpisodeMax(log)))] else []
    else
      (if open then [] else [Stale(silence)]) +
      (if TooLong(silence, spec, cfg)
       then [Failed(silence)] + (if spec.restartOnTimeout then [RestartScheduled] else []) else [])
  }

  /** The hard timeout of the device, where it has one of its own, overrides the manager's. */
  predicate TooLong(silence: real, spec: Spec, cfg: Config) {
    silence > cfg.timeout &&
    match spec.hardTimeout
    case Some(own) => silence >= own
    case None => silence >= cfg.hardTimeout
  }

  lemma CheckSeesSilence(h: Handle, ops: seq<Op>, since: real, now: real, spec: Spec, cfg: Config)
    requires Fresh(h, since) && Run(h, ops, spec, cfg).h.state == RUNNING
    ensures Age(Run(h, ops, spec, cfg).h, now) == Some(Silence(ops, since, now))
  {
    RunKeepsBeat(h, ops, spec, cfg);
    hide Run;
  }

  lemma RunSnoc(h: Handle, ops: seq<Op>, op: Op, spec: Spec, cfg: Config)
    ensures Run(h, ops + [op], spec, cfg) == Step(Run(h, ops, spec, cfg), op, spec, cfg)
  {
    assert (ops + [op])[..|ops|] == ops;
  }

  lemma ExpectedByVerdict(w: Watch, now: real, silence: real, run: RunId, spec: Spec, cfg: Config)
    requires Agree(w, run, spec, cfg) && w.h.state == RUNNING && Age(w.h, now) == Some(silence)
    ensures var (h', ev) := Enforced(w.h, spec, cfg, now);
            ev == Expected(w.log, silence, now, spec, cfg) &&
            h'.state == (if TooLong(silence, spec, cfg) then FAILED else RUNNING)
  {
    CheckByVerdict(w.h, spec, cfg, now);
    hide Enforced, Age, SoundCheck, PhaseAfter, Announced, EpisodeMax, EpisodeStart;
  }

  /** Over every pattern of heartbeats and checks of a driver run, what a check reports, announces and
      does follows from the history alone. */
  lemma CheckFollowsHistory(h: Handle, ops: seq<Op>, since: real, now: real, spec: Spec, cfg: Config)
    requires Fresh(h, since) && Run(h, ops, spec, cfg).h.state == RUNNING
    ensures var w, silence := Run(h, ops, spec, cfg), Silence(ops, since, now);
            var w' := Run(h, ops + [Check(now)], spec, cfg);
            w'.log == w.log + [Seen(now, silence, Expected(w.log, silence, now, spec, cfg))] &&
            w'.h.state == (if TooLong(silence, spec, cfg) then FAILED else RUNNING)
  {
    var w, silence := Run(h, ops, spec, cfg), Silence(ops, since, now);
    CheckSeesSilence(h, ops, since, now, spec, cfg);
    RunAgrees(h, ops, spec, cfg);
    RunSnoc(h, ops, Check(now), spec, cfg);
    ExpectedByVerdict(w, now, silence, RunIdOf(h), spec, cfg);
    hide Run, Enforced, Age, Agree, Expected;
  }

  /** A check within the soft timeout of the last heartbeat of the run raises no alarm. */
  lemma HeardDriverIsLeftAlone(h: Handle, ops: seq<Op>, since: real, now: real, spec: Spec, cfg: Config)
    requires Fresh(h, since) && Run(h, ops, spec, cfg).h.state == RUNNING && cfg.timeout >= 0.0
    requires LastBeat(ops).Some? && since <= LastBeat(ops).value && now - LastBeat(ops).value <= cfg.timeout
    ensures var w' := Run(h, ops + [Check(now)], spec, cfg);
            w'.h.state == RUNNING && w'.log != [] &&
            forall e :: e in w'.log[|w'.log| - 1].events ==> e.Recovered?
  {
    CheckFollowsHistory(h, ops, since, now, spec, cfg);
    hide Run, PhaseAfter, Announced, EpisodeMax, EpisodeStart;
  }
}
