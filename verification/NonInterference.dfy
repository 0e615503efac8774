// Publishing cannot be noticed by anything that commands the arm: two runs that differ only in
// status and diagnostics ticks put the same commands on the link and answer every request alike.
module NonInterference {
  import opened Sdk
  import opened DriverSpec
  import opened Supervisor
  import opened Sends

  predicate IsTick(e: Event) {
    e.StatusTick? || e.DiagnosticsTick?
  }

  // The run without its ticks.
  function Untick(events: seq<Event>): seq<Event> {
    if events == [] then []
    else
      var front, e := Untick(events[..|events| - 1]), events[|events| - 1];
      if IsTick(e) then front else front + [e]
  }

  // Taking the ticks out leaves no tick, and every other event in its place.
  lemma {:induction false} UntickLeavesTheRest(a: seq<Event>, b: seq<Event>)
    ensures Untick(a + b) == Untick(a) + Untick(b)
  {
    if b == [] {
      assert a + b == a;
    } else {
      var front, e := b[..|b| - 1], b[|b| - 1];
      UntickLeavesTheRest(a, front);
      assert a + b == a + front + [e] && b == front + [e];
      UntickSnoc(a + front, e);
      UntickSnoc(front, e);
    }
  }

  lemma UntickSnoc(h: seq<Event>, e: Event)
    ensures Untick(h + [e]) == Untick(h) + (if e.StatusTick? || e.DiagnosticsTick? then [] else [e])
  {
    assert (h + [e])[..|h|] == h;
  }

  // What requests were answered, in order.
  function Responses(events: seq<Event>): seq<Response> {
    if events == [] then []
    else
      var front, e := events[..|events| - 1], events[|events| - 1];
      var output := Step(Run(front), e).output;
      if output.Answer? then Responses(front) + [output.response] else Responses(front)
  }

  // One answer for each request that reached the node, none for anything else.
  lemma ResponsesSnoc(h: seq<Event>, e: Event)
    ensures var output := Step(Run(h), e).output;
            && Responses(h + [e]) == Responses(h) + (if output.Answer? then [output.response] else [])
            && (output.Answer? <==> e.Request? && Offers(Run(h).s, ServiceOf(e.call)))
  {
    assert (h + [e])[..|h|] == h;
  }

  // Equal but for the cached frame, its stamp and whether there is one.
  predicate AlikeStates(s: State, t: State) {
    && s.setup == t.setup && s.wire == t.wire
    && s.memory == t.memory.(haveState := s.memory.haveState, lastState := s.memory.lastState, stamp := s.memory.stamp)
  }

  predicate Alike(a: System, b: System) {
    a.primary == b.primary && AlikeStates(a.s, b.s)
  }

  // A tick moves nothing but the cache, sends nothing, and answers nobody.
  lemma TickTouchesOnlyTheCache(sys: System, e: Event)
    requires IsTick(e)
    ensures Alike(Step(sys, e).sys, sys)
    ensures !Step(sys, e).output.Answer?
  {
  }

  lemma GatesIgnoreTheCache(s: State, t: State, call: Call, env: Env)
    requires AlikeStates(s, t)
    ensures Admission(s, call, env) == Admission(t, call, env)
    ensures Connected(s, env) == Connected(t, env)
    ensures CommandOf(s, call, env) == CommandOf(t, call, env)
  {
  }

  // A get_status answer is built from the frame it fetched, never from the one cached before.
  lemma EffectsStayAlike(s: State, t: State, call: Call, env: Env)
    requires AlikeStates(s, t)
    ensures var s', t' := Effect(s, call, env), Effect(t, call, env);
            && AlikeStates(s', t')
            && (call.GetStatus? && env.outcome.Returns? ==> s' == t' || s'.memory == t'.memory)
  {
  }

  lemma AnswersStayAlike(s: State, t: State, call: Call, env: Env)
    requires AlikeStates(s, t)
    requires call.GetStatus? && env.outcome.Returns? ==> s.memory == t.memory
    ensures AnswerAfter(s, call, env) == AnswerAfter(t, call, env)
  {
  }

  lemma ServeStaysAlike(s: State, t: State, call: Call, env: Env)
    requires AlikeStates(s, t)
    ensures AlikeStates(Serve(s, call, env).state, Serve(t, call, env).state)
    ensures Serve(s, call, env).response == Serve(t, call, env).response
  {
    GatesIgnoreTheCache(s, t, call, env);
    var s1, t1 := Issue(s, call, env), Issue(t, call, env);
    EffectsStayAlike(s1, t1, call, env);
    if !call.Reconnect? {
      AnswersStayAlike(Effect(s1, call, env), Effect(t1, call, env), call, env);
    }
  }

  lemma ActivateStaysAlike(s: State, t: State, env: Env)
    requires AlikeStates(s, t)
    ensures AlikeStates(OnActivate(s, env).state, OnActivate(t, env).state)
    ensures OnActivate(s, env).result == OnActivate(t, env).result
  {
  }

  lemma DeactivateStaysAlike(s: State, t: State, env: Env)
    requires AlikeStates(s, t)
    ensures AlikeStates(OnDeactivate(s, env).state, OnDeactivate(t, env).state)
  {
  }

  lemma CleanupStaysAlike(s: State, t: State, env: Env)
    requires AlikeStates(s, t)
    ensures AlikeStates(OnCleanup(s, env).state, OnCleanup(t, env).state)
  {
  }

  lemma AdoptingStaysAlike(s: State, t: State, env: Env)
    requires AlikeStates(s, t)
    ensures AlikeStates(Blank(ReadParameters(s)), Blank(ReadParameters(t)))
    ensures AlikeStates(AdoptArm(Blank(ReadParameters(s)), env), AdoptArm(Blank(ReadParameters(t)), env))
  {
  }

  lemma SettingUpStaysAlike(s: State, t: State, env: Env)
    requires AlikeStates(s, t) && s.setup.arm.Some?
    ensures AlikeStates(DropArm(s), DropArm(t))
    ensures AlikeStates(ConnectArm(s, env), ConnectArm(t, env))
    ensures AlikeStates(NameJoints(s, env), NameJoints(t, env))
    ensures AlikeStates(RefreshLicense(s, env), RefreshLicense(t, env))
    ensures AlikeStates(CreatePublishers(s, env), CreatePublishers(t, env))
  {
  }

  lemma OpeningStaysAlike(s: State, t: State, env: Env)
    requires AlikeStates(s, t) && s.setup.arm.Some?
    ensures AlikeStates(Opening(s, env).state, Opening(t, env).state)
    ensures Opening(s, env).result == Opening(t, env).result
  {
    SettingUpStaysAlike(s, t, env);
    var s1, t1 := NameJoints(s, env), NameJoints(t, env);
    SettingUpStaysAlike(s1, t1, env);
    SettingUpStaysAlike(RefreshLicense(s1, env), RefreshLicense(t1, env), env);
  }

  lemma ConfigureStaysAlike(s: State, t: State, env: Env)
    requires AlikeStates(s, t)
    ensures AlikeStates(OnConfigure(s, env).state, OnConfigure(t, env).state)
    ensures OnConfigure(s, env).result == OnConfigure(t, env).result
  {
    AdoptingStaysAlike(s, t, env);
    var s1, t1 := AdoptArm(Blank(ReadParameters(s)), env), AdoptArm(Blank(ReadParameters(t)), env);
    if s1.setup.arm.Some? {
      SettingUpStaysAlike(s1, t1, env);
      OpeningStaysAlike(ConnectArm(s1, env), ConnectArm(t1, env), env);
    }
  }

  // Any other event takes alike states to alike states with the same answer.
  lemma StepStaysAlike(a: System, b: System, e: Event)
    requires Alike(a, b) && !IsTick(e)
    ensures Alike(Step(a, e).sys, Step(b, e).sys)
    ensures Step(a, e).output == Step(b, e).output
  {
    match e
    case Configure(env) => ConfigureStaysAlike(a.s, b.s, env);
    case Activate(env) => ActivateStaysAlike(a.s, b.s, env);
    case Deactivate(env) => DeactivateStaysAlike(a.s, b.s, env);
    case Cleanup(env) => CleanupStaysAlike(a.s, b.s, env);
    case Shutdown(env) => CleanupStaysAlike(a.s, b.s, env);
    case Request(call, env) => ServeStaysAlike(a.s, b.s, call, env);
    case _ =>
  }

  // For every run: erase all ticks, and the wire log, every response and the whole state but the
  // cache stay what they were.
  lemma {:induction false} PublishingIsInvisible(events: seq<Event>)
    ensures Alike(Run(events), Run(Untick(events)))
    ensures Log(events) == Log(Untick(events))
    ensures Responses(events) == Responses(Untick(events))
  {
    if events == [] {
    } else {
      var front, e := events[..|events| - 1], events[|events| - 1];
      PublishingIsInvisible(front);
      if IsTick(e) {
        TickTouchesOnlyTheCache(Run(front), e);
      } else {
        StepStaysAlike(Run(front), Run(Untick(front)), e);
        assert Untick(events)[..|Untick(events)| - 1] == Untick(front);
      }
    }
  }
}
