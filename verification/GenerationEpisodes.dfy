/** The staged heartbeat policy read per driver generation. A driver may register again within its
    generation, which restarts the run that the policy watches; this module says exactly when the
    announcements of a generation still follow the grammar. */
module GenerationEpisodes {
  import opened Options
  import opened DriverHandle
  import G = Generations
  import E = HeartbeatEpisodes
  import H = HeartbeatHistory

  /** The announcements made while the handle was at one generation. */
  datatype Chapter = Chapter(generation: nat, events: seq<Event>)

  predicate Current(chapters: seq<Chapter>, generation: nat) {
    chapters != [] && chapters[|chapters| - 1].generation == generation
  }

  function Add(chapters: seq<Chapter>, generation: nat, ev: seq<Event>): seq<Chapter> {
    if Current(chapters, generation) then
      var n := |chapters| - 1;
      chapters[..n] + [Chapter(generation, chapters[n].events + ev)]
    else chapters + [Chapter(generation, ev)]
  }

  function Chapters(ops: seq<G.Op>, spec: Spec, cfg: Config): seq<Chapter> {
    if ops == [] then []
    else
      var before, op := ops[..|ops| - 1], ops[|ops| - 1];
      var h, chapters := G.Run(before, spec, cfg).h, Chapters(before, spec, cfg);
      if op.Check? then Add(chapters, h.generation, Enforced(h, spec, cfg, op.now).1) else chapters
  }

  // ---------------------------------------------------------------- the condition

  /** The check announces a new episode. */
  predicate Announces(h: Handle, op: G.Op, spec: Spec, cfg: Config) {
    H.Sees(h, op) && Age(h, op.now).value > cfg.timeout && !E.Open(h)
  }

  /** What the history says of the current generation: the generation in which the latest episode
      was announced, and whether since the current generation began the driver registered anew
      while an episode of that same generation was open or had ended in failure. */
  datatype Past = Past(announced: Option<nat>, renewed: bool)

  /** The registration is accepted and makes the driver run. */
  predicate Reanchors(h: Handle, op: G.Op, cfg: Config) {
    op.Register? && !Obsolete(h, op.reg) &&
    (op.alive || h.state == STARTING || (h.hbRecv.Some? && op.now - h.hbRecv.value <= cfg.timeout))
  }

  function NextPast(p: Past, h: Handle, op: G.Op, h': Handle, spec: Spec, cfg: Config): Past {
    if h'.generation != h.generation then p.(renewed := false)
    else if Announces(h, op, spec, cfg) then p.(announced := Some(h.generation))
    else if Reanchors(h, op, cfg) && h.staleSince.Some? && p.announced == Some(h.generation) then p.(renewed := true)
    else p
  }

  function PastOf(ops: seq<G.Op>, spec: Spec, cfg: Config): Past {
    if ops == [] then Past(None, false)
    else
      var before := ops[..|ops| - 1];
      NextPast(PastOf(before, spec, cfg), G.Run(before, spec, cfg).h, ops[|ops| - 1],
               G.Run(ops, spec, cfg).h, spec, cfg)
  }

  /** No episode is announced in a generation after such a renewed registration. */
  predicate NeverRestarted(ops: seq<G.Op>, spec: Spec, cfg: Config) {
    ops == [] ||
    var before := ops[..|ops| - 1];
    NeverRestarted(before, spec, cfg) &&
    !(PastOf(before, spec, cfg).renewed && Announces(G.Run(before, spec, cfg).h, ops[|ops| - 1], spec, cfg))
  }

  // ---------------------------------------------------------------- invariant

  function PhaseOf(chapters: seq<Chapter>, generation: nat): E.Phase {
    if Current(chapters, generation) then E.PhaseAfter(chapters[|chapters| - 1].events) else E.Calm
  }

  ghost predicate AllUnbroken(chapters: seq<Chapter>) {
    forall i :: 0 <= i < |chapters| ==> E.PhaseAfter(chapters[i].events) != E.Broken
  }

  /** Clock and identities. */
  ghost predicate Timed(h: Handle, t: real) {
    (h.state == RUNNING ==> h.runningSince.Some?) && (h.runningSince.Some? ==> h.runningSince.value <= t) &&
    (h.staleSince.Some? ==> h.staleRun.Some? && h.staleRun.value.since.Some? && h.staleRun.value.since.value < t)
  }

  /** How handle, history and the phase of the current generation go together. */
  ghost predicate Told(h: Handle, p: Past, phase: E.Phase) {
    var own := h.staleSince.Some? && p.announced == Some(h.generation);
    (p.announced.Some? ==> p.announced.value <= h.generation) &&
    if p.renewed then
      phase != E.Calm && (phase != E.Broken && h.state == RUNNING ==> !E.Open(h))
    else if own then
      (phase == E.InEpisode && (h.state == RUNNING ==> E.Open(h))) ||
      ((phase == E.Dead || phase == E.Scheduled) && h.state != RUNNING)
    else
      phase == E.Calm && (h.state == RUNNING ==> !E.Open(h))
  }

  ghost predicate Recent(chapters: seq<Chapter>, h: Handle) {
    chapters != [] ==> chapters[|chapters| - 1].generation <= h.generation
  }

  ghost predicate Good(ops: seq<G.Op>, t: real, spec: Spec, cfg: Config) {
    var h, chapters := G.Run(ops, spec, cfg).h, Chapters(ops, spec, cfg);
    Timed(h, t) && Recent(chapters, h) &&
    (AllUnbroken(chapters) <==> NeverRestarted(ops, spec, cfg)) &&
    (NeverRestarted(ops, spec, cfg) ==> Told(h, PastOf(ops, spec, cfg), PhaseOf(chapters, h.generation)))
  }

  // ---------------------------------------------------------------- checks

  /** What one check announces, as phases, and how it leaves the handle. */
  lemma CheckTells(h: Handle, p: Past, phase: E.Phase, ev0: seq<Event>, op: G.Op, t: real, spec: Spec, cfg: Config)
    requires H.Sees(h, op) && Timed(h, t) && t <= op.now && cfg.timeout >= 0.0
    requires Told(h, p, phase) && phase != E.Broken && E.PhaseAfter(ev0) == phase
    ensures var (h', ev) := Enforced(h, spec, cfg, op.now);
            var phase' := E.PhaseAfter(ev0 + ev);
            h'.generation == h.generation &&
            (phase' == E.Broken <==> p.renewed && Announces(h, op, spec, cfg)) &&
            (phase' != E.Broken ==> Told(h', NextPast(p, h, op, h', spec, cfg), phase'))
  {
    E.CheckByVerdict(h, spec, cfg, op.now);
    G.EnforcedKeepsGeneration(h, spec, cfg, op.now);
    var (h', ev) := Enforced(h, spec, cfg, op.now);
    E.PhaseOfCheck(ev0, ev);
    hide Enforced, Age, E.PhaseAfter;
  }

  // ---------------------------------------------------------------- other steps

  /** What the other steps may do to the handle. */
  ghost predicate Passes(h: Handle, op: G.Op, h': Handle, cfg: Config) {
    h'.staleSince == h.staleSince && h'.staleRun == h.staleRun && h'.generation >= h.generation &&
    (h'.generation != h.generation ==> h'.state != RUNNING && !op.Register?) &&
    (if Reanchors(h, op, cfg) then h'.runningSince == Some(op.now)
     else
       (h'.state == RUNNING ==> h.state == RUNNING && RunIdOf(h') == RunIdOf(h)) &&
       (h'.runningSince == None || h'.runningSince == h.runningSince))
  }

  lemma OtherStepPasses(s: G.System, op: G.Op, spec: Spec, cfg: Config)
    requires !H.Sees(s.h, op)
    ensures Passes(s.h, op, G.Step(s, op, spec, cfg).h, cfg)
  {
    if op.Check? { H.UnseenCheck(s.h, op.now, spec, cfg); }
    hide Enforced, Reference;
  }

  lemma PassTells(h: Handle, p: Past, phase: E.Phase, op: G.Op, h': Handle, t: real, t': real, spec: Spec, cfg: Config)
    requires Timed(h, t) && t <= t' && (op.Register? ==> op.now == t')
    requires !H.Sees(h, op) && Passes(h, op, h', cfg)
    ensures Timed(h', t')
    ensures Told(h, p, phase) ==>
      Told(h', NextPast(p, h, op, h', spec, cfg), if h'.generation == h.generation then phase else E.Calm)
  {
    hide H.Sees;
  }

  // ---------------------------------------------------------------- runs

  lemma AddUnbroken(chapters: seq<Chapter>, generation: nat, ev: seq<Event>)
    ensures var ev0 := if Current(chapters, generation) then chapters[|chapters| - 1].events else [];
            var after := Add(chapters, generation, ev);
            Current(after, generation) && after[|after| - 1].events == ev0 + ev &&
            E.PhaseAfter(ev0) == PhaseOf(chapters, generation) &&
            (AllUnbroken(after) <==> AllUnbroken(chapters) && E.PhaseAfter(ev0 + ev) != E.Broken)
  {
    var after, n := Add(chapters, generation, ev), |chapters| - 1;
    hide E.PhaseAfter;
    if Current(chapters, generation) {
      if E.PhaseAfter(chapters[n].events) == E.Broken { BrokenStays(chapters[n].events, ev); }
      assert chapters == chapters[..n] + [chapters[n]];
      assert forall i :: 0 <= i < n ==> after[i] == chapters[i];
    } else {
      EmptyPhase();
      assert [] + ev == ev;
      assert forall i :: 0 <= i < |chapters| ==> after[i] == chapters[i];
    }
  }

  lemma EmptyPhase()
    ensures E.PhaseAfter([]) == E.Calm
  {}

  lemma {:induction false} BrokenStays(ev: seq<Event>, more: seq<Event>)
    requires E.PhaseAfter(ev) == E.Broken
    ensures E.PhaseAfter(ev + more) == E.Broken
  {
    if more == [] {
      assert ev + more == ev;
    } else {
      var n := |more| - 1;
      BrokenStays(ev, more[..n]);
      E.PhaseSnoc(ev + more[..n], more[n]);
      assert ev + more == (ev + more[..n]) + [more[n]];
    }
  }

  lemma CheckTimed(h: Handle, now: real, t: real, spec: Spec, cfg: Config)
    requires h.state == RUNNING && Age(h, now).Some? && Timed(h, t) && t <= now && cfg.timeout >= 0.0
    ensures Timed(Enforced(h, spec, cfg, now).0, now)
    ensures Enforced(h, spec, cfg, now).0.generation == h.generation
  {
    G.EnforcedKeepsGeneration(h, spec, cfg, now);
    if Age(h, now).value > cfg.timeout { H.FailureIsLater(h, now, cfg); }
    hide Age;
  }

  lemma CheckGood(ops: seq<G.Op>, t: real, spec: Spec, cfg: Config)
    requires ops != [] && ops[|ops| - 1].Check? && t <= ops[|ops| - 1].now && cfg.timeout >= 0.0
    requires Good(ops[..|ops| - 1], t, spec, cfg)
    ensures Good(ops, ops[|ops| - 1].now, spec, cfg)
  {
    var before, op := ops[..|ops| - 1], ops[|ops| - 1];
    var s, chapters, p := G.Run(before, spec, cfg), Chapters(before, spec, cfg), PastOf(before, spec, cfg);
    var h, phase, now := s.h, PhaseOf(chapters, s.h.generation), op.now;
    var (h', ev) := Enforced(h, spec, cfg, now);
    assert G.Run(ops, spec, cfg).h == h';
    AddUnbroken(chapters, h.generation, ev);
    hide Add, G.Step;
    var ev0 := if Current(chapters, h.generation) then chapters[|chapters| - 1].events else [];
    if H.Sees(h, op) {
      CheckTimed(h, now, t, spec, cfg);
      if NeverRestarted(before, spec, cfg) { CheckTells(h, p, phase, ev0, op, t, spec, cfg); }
    } else {
      H.UnseenCheck(h, now, spec, cfg);
      assert ev0 + [] == ev0;
      OtherStepPasses(s, op, spec, cfg);
      PassTells(h, p, phase, op, h', t, now, spec, cfg);
    }
    hide Enforced, E.PhaseAfter, Told, Timed, NextPast;
  }

  lemma PhaseLater(chapters: seq<Chapter>, h: Handle, h': Handle)
    requires Recent(chapters, h) && h.generation <= h'.generation
    ensures Recent(chapters, h')
    ensures PhaseOf(chapters, h'.generation) ==
      if h'.generation == h.generation then PhaseOf(chapters, h.generation) else E.Calm
  {}

  lemma OtherGood(ops: seq<G.Op>, t: real, t': real, spec: Spec, cfg: Config)
    requires ops != [] && !ops[|ops| - 1].Check? && t <= t'
    requires ops[|ops| - 1].Register? ==> ops[|ops| - 1].now == t'
    requires Good(ops[..|ops| - 1], t, spec, cfg)
    ensures Good(ops, t', spec, cfg)
  {
    var before, op := ops[..|ops| - 1], ops[|ops| - 1];
    var s, chapters, p := G.Run(before, spec, cfg), Chapters(before, spec, cfg), PastOf(before, spec, cfg);
    OtherStepPasses(s, op, spec, cfg);
    hide G.Step, Told, Timed, NextPast, AllUnbroken, PhaseOf, Recent, Enforced, Age;
    PhaseLater(chapters, s.h, G.Step(s, op, spec, cfg).h);
    PassTells(s.h, p, PhaseOf(chapters, s.h.generation), op, G.Step(s, op, spec, cfg).h, t, t', spec, cfg);
  }

  lemma GoodInitially(t: real, spec: Spec, cfg: Config)
    ensures Good([], t, spec, cfg)
  {}

  lemma {:induction false} RunGood(ops: seq<G.Op>, t: real, spec: Spec, cfg: Config)
    requires H.Monotone(ops, t) && cfg.timeout >= 0.0
    ensures Good(ops, H.Latest(ops, t), spec, cfg)
  {
    hide Good;
    if ops == [] {
      GoodInitially(t, spec, cfg);
    } else {
      var before, op := ops[..|ops| - 1], ops[|ops| - 1];
      RunGood(before, t, spec, cfg);
      if op.Check? {
        CheckGood(ops, H.Latest(before, t), spec, cfg);
      } else {
        OtherGood(ops, H.Latest(before, t), H.Latest(ops, t), spec, cfg);
      }
    }
  }

  /** Over every run with a monotone clock, the announcements of every generation match the grammar
      if and only if no episode is announced in a generation after the driver registered anew
      while an episode of that generation was open or had ended in failure. */
  lemma GenerationsMatchIff(ops: seq<G.Op>, t: real, spec: Spec, cfg: Config)
    requires H.Monotone(ops, t) && cfg.timeout >= 0.0
    ensures (forall i :: 0 <= i < |Chapters(ops, spec, cfg)| ==> E.Matches(Chapters(ops, spec, cfg)[i].events)) <==>
      NeverRestarted(ops, spec, cfg)
  {
    hide E.Matches, Good;
    RunGood(ops, t, spec, cfg);
    GoodSays(ops, H.Latest(ops, t), spec, cfg);
    AllMatchIff(Chapters(ops, spec, cfg));
  }

  lemma GoodSays(ops: seq<G.Op>, t: real, spec: Spec, cfg: Config)
    requires Good(ops, t, spec, cfg)
    ensures AllUnbroken(Chapters(ops, spec, cfg)) <==> NeverRestarted(ops, spec, cfg)
  {}

  lemma AllMatchIff(chapters: seq<Chapter>)
    ensures AllUnbroken(chapters) <==> forall i :: 0 <= i < |chapters| ==> E.Matches(chapters[i].events)
  {
    hide E.Matches, E.PhaseAfter;
    forall i | 0 <= i < |chapters|
      ensures E.Matches(chapters[i].events) <==> E.PhaseAfter(chapters[i].events) != E.Broken
    {
      E.MatchesIff(chapters[i].events);
    }
  }

  /** A registration repeated after a late acknowledgement, while an episode is open: the generation
      announces stale twice. */
  lemma RepeatedRegistrationRestarts(spec: Spec)
    requires spec.hardTimeout == None
    ensures var cfg, reg := Config(1.0, 10.0), Registration(Some(1), "tcp://driver");
            var ops := [G.Start(false, Some(7)), G.Register(reg, true, false, 0.0), G.Check(2.0),
                        G.Register(reg, true, false, 3.0), G.Check(5.0)];
            Chapters(ops, spec, cfg) == [Chapter(1, [Stale(2.0), Stale(2.0)])]
  {
    var cfg, reg := Config(1.0, 10.0), Registration(Some(1), "tcp://driver");
    var ops := [G.Start(false, Some(7)), G.Register(reg, true, false, 0.0), G.Check(2.0),
                G.Register(reg, true, false, 3.0), G.Check(5.0)];
    hide G.Run, Chapters, Enforced;
    RunAt(ops, 0, spec, cfg);
    RunAt(ops, 1, spec, cfg);
    RunAt(ops, 2, spec, cfg);
    RunAt(ops, 3, spec, cfg);
    RunAt(ops, 4, spec, cfg);
    RunInitially(spec, cfg);
    assert ops[..0] == [] && ops[..5] == ops;
    var started := Started(NEW_HANDLE, false, Some(7));
    var first := Registered(started, reg, true, cfg, 0.0);
    FirstStale(first, 0.0, spec, cfg);
    var again := Registered(Enforced(first, spec, cfg, 2.0).0, reg, true, cfg, 3.0);
    FirstStale(again, 3.0, spec, cfg);
    assert [Stale(2.0)] + [Stale(2.0)] == [Stale(2.0), Stale(2.0)];
  }

  lemma RunAt(ops: seq<G.Op>, k: nat, spec: Spec, cfg: Config)
    requires k < |ops|
    ensures G.Run(ops[..k + 1], spec, cfg) == G.Step(G.Run(ops[..k], spec, cfg), ops[k], spec, cfg)
    ensures var h, chapters := G.Run(ops[..k], spec, cfg).h, Chapters(ops[..k], spec, cfg);
            Chapters(ops[..k + 1], spec, cfg) ==
              if ops[k].Check? then Add(chapters, h.generation, Enforced(h, spec, cfg, ops[k].now).1) else chapters
  {
    assert ops[..k + 1][..k] == ops[..k];
  }

  lemma RunInitially(spec: Spec, cfg: Config)
    ensures G.Run([], spec, cfg) == G.INITIAL && Chapters([], spec, cfg) == []
  {}

  /** Two seconds without a heartbeat, counted from the registration. */
  lemma FirstStale(h: Handle, since: real, spec: Spec, cfg: Config)
    requires h.state == RUNNING && h.runningSince == Some(since) && h.hbRecv == None && !E.Open(h)
    requires cfg == Config(1.0, 10.0) && spec.hardTimeout == None
    ensures var (h', ev) := Enforced(h, spec, cfg, since + 2.0);
            ev == [Stale(2.0)] && h'.generation == h.generation && h'.state == RUNNING && h'.hbRecv == None &&
            h'.staleRun == Some(RunIdOf(h)) && h'.popenPid == h.popenPid
  {
    E.CheckByVerdict(h, spec, cfg, since + 2.0);
  }
}
