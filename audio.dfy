/** The audio system: WAV clips decoded from their header, audio events queued by the manager, and
  * the handler that routes them to sources. OpenAL sources are modelled by the commands they receive;
  * whether a temporary source is playing is the OpenAL state the handler queries. */
module AudioSystem {
  import opened Java

  const MAX_SOURCES: int := 256
  const MAX_LOOP_SOURCES: int := 10
  const MAX_TEMP_SOURCES: int := MAX_SOURCES - MAX_LOOP_SOURCES

  const EVENT_PLAY: int := 0
  const EVENT_PAUSE: int := 1
  const EVENT_STOP: int := 2
  const EVENT_PLAY_FADE: int := 3
  const EVENT_PAUSE_FADE: int := 4
  const EVENT_STOP_FADE: int := 5
  const EVENT_FADE_GAIN: int := 6
  const EVENT_FADE_PITCH: int := 7

  /** A loaded clip, by its OpenAL buffer id. */
  datatype Sound = Sound(id: int)

  /** An event: the clip (`None` plays `null`), whether it is for a loop source, its code, its parameters. */
  datatype AudioEvent = AudioEvent(audio: Option<Sound>, loop: bool, event: int, params: seq<real>)

  /** A call on an audio source. */
  datatype Command =
    | SetGain(gain: real)
    | SetPitch(pitch: real)
    | Play(sound: Sound)
    | Pause
    | Stop
    | FadeGain(target: real, time: real)
    | FadePitch(target: real, time: real)
    | SetZeroStop(stop: bool)

  /** A command to temporary source `source` or to loop source `source`. */
  datatype Effect = TempCommand(source: int, c: Command) | LoopCommand(source: int, c: Command)

  // ---------------------------------------------------------------- routing

  /** The events `queue` sends to the loop queue, in order. */
  function LoopEvents(events: seq<AudioEvent>): (r: seq<AudioEvent>)
    ensures |r| <= |events|
  {
    if events == [] then []
    else LoopEvents(events[..|events| - 1]) + (if events[|events| - 1].loop then [events[|events| - 1]] else [])
  }

  /** The events `queue` sends to the temporary queue, in order. */
  function TempEvents(events: seq<AudioEvent>): (r: seq<AudioEvent>)
    ensures |r| <= |events|
  {
    if events == [] then []
    else TempEvents(events[..|events| - 1]) + (if events[|events| - 1].loop then [] else [events[|events| - 1]])
  }

  /** Routing splits the events: every event goes to exactly one queue, the one its flag names. */
  lemma {:induction false} RoutingPartitions(events: seq<AudioEvent>)
    ensures |LoopEvents(events)| + |TempEvents(events)| == |events|
    ensures multiset(LoopEvents(events)) + multiset(TempEvents(events)) == multiset(events)
    ensures forall e :: e in LoopEvents(events) ==> e.loop
    ensures forall e :: e in TempEvents(events) ==> !e.loop
    ensures forall e :: e in events ==> (e in LoopEvents(events) <==> e.loop) && (e in TempEvents(events) <==> !e.loop)
  {
    if events != [] {
      var init := events[..|events| - 1];
      RoutingPartitions(init);
      assert events == init + [events[|events| - 1]];
    }
  }

  lemma {:induction false} RoutingAppend(a: seq<AudioEvent>, b: seq<AudioEvent>)
    ensures LoopEvents(a + b) == LoopEvents(a) + LoopEvents(b)
    ensures TempEvents(a + b) == TempEvents(a) + TempEvents(b)
  {
    if b == [] {
      assert a + b == a;
    } else {
      assert (a + b)[..|a + b| - 1] == a + b[..|b| - 1];
      RoutingAppend(a, b[..|b| - 1]);
    }
  }

  // ---------------------------------------------------------------- what an event does to its source

  /** An argument of a source call: a constant, or parameter `k` of the event. */
  datatype Arg = Value(v: real) | Param(k: nat)

  /** One source call of an event's handling. */
  datatype Step =
    | GainStep(a: Arg)
    | PitchStep(a: Arg)
    | PlayStep
    | PauseStep
    | StopStep
    | FadeGainStep(target: Arg, time: Arg)
    | FadePitchStep(target: Arg, time: Arg)
    | ZeroStopStep(stop: bool)

  /** The calls a temporary-source event makes; its parameters start at index 0. */
  function TempPlan(event: int): seq<Step>
  {
    if event == EVENT_PLAY then [GainStep(Param(0)), PitchStep(Param(1)), PlayStep]
    else if event == EVENT_PLAY_FADE then [GainStep(Value(0.0)), PitchStep(Param(1)), PlayStep, FadeGainStep(Param(0), Param(2))]
    else if event == EVENT_PAUSE then [PauseStep]
    else if event == EVENT_PAUSE_FADE then [FadeGainStep(Value(0.0), Param(0))]
    else if event == EVENT_STOP then [StopStep]
    else if event == EVENT_STOP_FADE then [FadeGainStep(Value(0.0), Param(0))]
    else []
  }

  /** The calls a loop-source event makes; parameter 0 names the source, so its own start at index 1. */
  function LoopPlan(event: int): seq<Step>
  {
    if event == EVENT_PLAY then [GainStep(Param(1)), PitchStep(Param(2)), PlayStep]
    else if event == EVENT_PLAY_FADE then [GainStep(Value(0.0)), PitchStep(Param(2)), PlayStep, FadeGainStep(Param(1), Param(3))]
    else if event == EVENT_PAUSE then [PauseStep]
    else if event == EVENT_PAUSE_FADE then [ZeroStopStep(false), FadeGainStep(Value(0.0), Param(1))]
    else if event == EVENT_STOP then [StopStep]
    else if event == EVENT_STOP_FADE then [ZeroStopStep(true), FadeGainStep(Value(0.0), Param(1))]
    else if event == EVENT_FADE_GAIN then [FadeGainStep(Param(1), Param(2))]
    else if event == EVENT_FADE_PITCH then [FadePitchStep(Param(1), Param(2))]
    else []
  }

  function ArgValue(a: Arg, params: seq<real>): (r: Result<real>)
    ensures r.Throws? <==> a.Param? && a.k >= |params|
    ensures r.Throws? ==> r.ex == IndexOutOfBounds
  {
    match a
    case Value(v) => Ok(v)
    case Param(k) => if k < |params| then Ok(params[k]) else Throws(IndexOutOfBounds)
  }

  /** One call, its arguments evaluated left to right; playing `null` dereferences it. */
  function StepCommand(s: Step, ev: AudioEvent): (r: Result<Command>)
    ensures r.Throws? ==> r.ex in {IndexOutOfBounds, NullPointer}
  {
    match s
    case GainStep(a) => var v := ArgValue(a, ev.params); if v.Throws? then Throws(v.ex) else Ok(SetGain(v.value))
    case PitchStep(a) => var v := ArgValue(a, ev.params); if v.Throws? then Throws(v.ex) else Ok(SetPitch(v.value))
    case PlayStep => if ev.audio.None? then Throws(NullPointer) else Ok(Play(ev.audio.value))
    case PauseStep => Ok(Pause)
    case StopStep => Ok(Stop)
    case FadeGainStep(t, d) =>
      var tv := ArgValue(t, ev.params);
      if tv.Throws? then Throws(tv.ex)
      else var dv := ArgValue(d, ev.params); if dv.Throws? then Throws(dv.ex) else Ok(FadeGain(tv.value, dv.value))
    case FadePitchStep(t, d) =>
      var tv := ArgValue(t, ev.params);
      if tv.Throws? then Throws(tv.ex)
      else var dv := ArgValue(d, ev.params); if dv.Throws? then Throws(dv.ex) else Ok(FadePitch(tv.value, dv.value))
    case ZeroStopStep(b) => Ok(SetZeroStop(b))
  }

  /** The commands issued by a plan up to its first failure, and that failure. */
  datatype Run = Run(commands: seq<Command>, failure: Option<Exception>)

  function Execute(plan: seq<Step>, ev: AudioEvent): (r: Run)
    ensures |r.commands| <= |plan|
    ensures r.failure.None? ==> |r.commands| == |plan|
    ensures r.failure.Some? ==> r.failure.value in {IndexOutOfBounds, NullPointer}
  {
    if plan == [] then Run([], None)
    else
      var c := StepCommand(plan[0], ev);
      if c.Throws? then Run([], Some(c.ex))
      else var rest := Execute(plan[1..], ev); Run([c.value] + rest.commands, rest.failure)
  }

  /** How many parameters a temporary event's handling reads. */
  function TempArity(event: int): nat
  {
    if event == EVENT_PLAY then 2
    else if event == EVENT_PLAY_FADE then 3
    else if event == EVENT_PAUSE_FADE || event == EVENT_STOP_FADE then 1
    else 0
  }

  /** How many parameters a loop event's handling reads, the source number included. */
  function LoopArity(event: int): nat
  {
    if event == EVENT_PLAY || event == EVENT_FADE_GAIN || event == EVENT_FADE_PITCH then 3
    else if event == EVENT_PLAY_FADE then 4
    else if event == EVENT_PAUSE_FADE || event == EVENT_STOP_FADE then 2
    else 1
  }

  predicate IsPlay(event: int)
  {
    event == EVENT_PLAY || event == EVENT_PLAY_FADE
  }

  lemma ExecuteCons(s: Step, rest: seq<Step>, ev: AudioEvent)
    ensures Execute([s] + rest, ev) ==
      (var c := StepCommand(s, ev);
       if c.Throws? then Run([], Some(c.ex)) else Run([c.value] + Execute(rest, ev).commands, Execute(rest, ev).failure))
  {
    assert ([s] + rest)[1..] == rest;
  }

  lemma ExecuteOne(a: Step, ev: AudioEvent)
    ensures var run := Execute([a], ev);
      (run.failure.None? <==> StepCommand(a, ev).Ok?) &&
      (run.failure.None? ==> run.commands == [StepCommand(a, ev).value])
  {
    ExecuteCons(a, [], ev);
  }

  lemma ExecuteTwo(a: Step, b: Step, ev: AudioEvent)
    ensures var run := Execute([a, b], ev);
      (run.failure.None? <==> StepCommand(a, ev).Ok? && StepCommand(b, ev).Ok?) &&
      (run.failure.None? ==> run.commands == [StepCommand(a, ev).value, StepCommand(b, ev).value])
  {
    ExecuteOne(b, ev);
    ExecuteCons(a, [b], ev);
  }

  lemma ExecuteThree(a: Step, b: Step, c: Step, ev: AudioEvent)
    ensures var run := Execute([a, b, c], ev);
      (run.failure.None? <==> StepCommand(a, ev).Ok? && StepCommand(b, ev).Ok? && StepCommand(c, ev).Ok?) &&
      (run.failure.None? ==> run.commands == [StepCommand(a, ev).value, StepCommand(b, ev).value, StepCommand(c, ev).value])
  {
    ExecuteTwo(b, c, ev);
    ExecuteCons(a, [b, c], ev);
  }

  lemma ExecuteFour(a: Step, b: Step, c: Step, d: Step, ev: AudioEvent)
    ensures var run := Execute([a, b, c, d], ev);
      (run.failure.None? <==> StepCommand(a, ev).Ok? && StepCommand(b, ev).Ok? && StepCommand(c, ev).Ok? && StepCommand(d, ev).Ok?) &&
      (run.failure.None? ==> run.commands == [StepCommand(a, ev).value, StepCommand(b, ev).value, StepCommand(c, ev).value, StepCommand(d, ev).value])
  {
    ExecuteThree(b, c, d, ev);
    ExecuteCons(a, [b, c, d], ev);
  }

  /** A temporary event is handled to the end exactly when its parameters are all there and, if it
    * plays, its clip is not `null`; the calls it makes are the ones listed for its code. */
  lemma TempRunOutcome(ev: AudioEvent)
    ensures var run := Execute(TempPlan(ev.event), ev);
      (run.failure.None? <==> |ev.params| >= TempArity(ev.event) && (IsPlay(ev.event) ==> ev.audio.Some?)) &&
      (run.failure.None? && ev.event == EVENT_PLAY ==>
        run.commands == [SetGain(ev.params[0]), SetPitch(ev.params[1]), Play(ev.audio.value)]) &&
      (run.failure.None? && ev.event == EVENT_PLAY_FADE ==>
        run.commands == [SetGain(0.0), SetPitch(ev.params[1]), Play(ev.audio.value), FadeGain(ev.params[0], ev.params[2])])
  {
    var plan := TempPlan(ev.event);
    if ev.event == EVENT_PLAY {
      ExecuteThree(plan[0], plan[1], plan[2], ev);
      assert plan == [plan[0], plan[1], plan[2]];
    } else if ev.event == EVENT_PLAY_FADE {
      ExecuteFour(plan[0], plan[1], plan[2], plan[3], ev);
      assert plan == [plan[0], plan[1], plan[2], plan[3]];
    } else if plan != [] {
      ExecuteOne(plan[0], ev);
      assert plan == [plan[0]];
    }
  }

  /** The steps of a loop event run to the end exactly when the parameters they read are there and,
    * if it plays, its clip is not `null`; a play is its third call. */
  lemma LoopPlanOutcome(ev: AudioEvent)
    ensures var run := Execute(LoopPlan(ev.event), ev);
      (run.failure.None? <==> (LoopPlan(ev.event) == [] || ev.event in {EVENT_PAUSE, EVENT_STOP} || |ev.params| >= LoopArity(ev.event)) &&
                              (IsPlay(ev.event) ==> ev.audio.Some?)) &&
      (run.failure.None? && IsPlay(ev.event) ==> run.commands[2] == Play(ev.audio.value))
  {
    var plan := LoopPlan(ev.event);
    if ev.event == EVENT_PLAY {
      ExecuteThree(plan[0], plan[1], plan[2], ev);
      assert plan == [plan[0], plan[1], plan[2]];
    } else if ev.event == EVENT_PLAY_FADE {
      ExecuteFour(plan[0], plan[1], plan[2], plan[3], ev);
      assert plan == [plan[0], plan[1], plan[2], plan[3]];
    } else if ev.event == EVENT_PAUSE_FADE || ev.event == EVENT_STOP_FADE {
      ExecuteTwo(plan[0], plan[1], ev);
      assert plan == [plan[0], plan[1]];
    } else if plan != [] {
      ExecuteOne(plan[0], ev);
      assert plan == [plan[0]];
    }
  }

  function CountPlays(cs: seq<Command>): (n: nat)
    ensures n <= |cs|
  {
    if cs == [] then 0 else (if cs[0].Play? then 1 else 0) + CountPlays(cs[1..])
  }

  /** Each play command comes from a play step of the plan. */
  lemma {:induction false} PlaysFromPlaySteps(plan: seq<Step>, ev: AudioEvent)
    ensures CountPlays(Execute(plan, ev).commands) <= CountPlaySteps(plan)
  {
    if plan != [] {
      PlaysFromPlaySteps(plan[1..], ev);
      var c := StepCommand(plan[0], ev);
      if c.Ok? {
        assert c.value.Play? ==> plan[0].PlayStep?;
        assert Execute(plan, ev).commands[1..] == Execute(plan[1..], ev).commands;
      }
    }
  }

  lemma {:induction false} PlayCounted(cs: seq<Command>, i: int)
    requires 0 <= i < |cs| && cs[i].Play?
    ensures CountPlays(cs) >= 1
  {
    if i > 0 {
      PlayCounted(cs[1..], i - 1);
    }
  }

  function CountPlaySteps(plan: seq<Step>): nat
  {
    if plan == [] then 0 else (if plan[0].PlayStep? then 1 else 0) + CountPlaySteps(plan[1..])
  }

  function PlayIndicator(s: Step): nat
  {
    if s.PlayStep? then 1 else 0
  }

  lemma CountPlayStepsCons(s: Step, rest: seq<Step>)
    ensures CountPlaySteps([s] + rest) == PlayIndicator(s) + CountPlaySteps(rest)
  {
    assert ([s] + rest)[1..] == rest;
  }

  lemma CountPlayStepsFour(a: Step, b: Step, c: Step, d: Step)
    ensures CountPlaySteps([a]) == PlayIndicator(a)
    ensures CountPlaySteps([a, b]) == PlayIndicator(a) + PlayIndicator(b)
    ensures CountPlaySteps([a, b, c]) == PlayIndicator(a) + PlayIndicator(b) + PlayIndicator(c)
    ensures CountPlaySteps([a, b, c, d]) == PlayIndicator(a) + PlayIndicator(b) + PlayIndicator(c) + PlayIndicator(d)
  {
    CountPlayStepsCons(a, []);
    CountPlayStepsCons(b, []);
    CountPlayStepsCons(c, []);
    CountPlayStepsCons(d, []);
    CountPlayStepsCons(a, [b]);
    CountPlayStepsCons(b, [c]);
    CountPlayStepsCons(c, [d]);
    CountPlayStepsCons(a, [b, c]);
    CountPlayStepsCons(b, [c, d]);
    CountPlayStepsCons(a, [b, c, d]);
  }

  /** Only the two play codes play, once each, on either kind of source. */
  lemma PlansPlayAtMostOnce(event: int)
    ensures CountPlaySteps(TempPlan(event)) == (if IsPlay(event) then 1 else 0)
    ensures CountPlaySteps(LoopPlan(event)) == (if IsPlay(event) then 1 else 0)
  {
    TempPlanPlays(event);
    LoopPlanPlays(event);
  }

  lemma TempPlanPlays(event: int)
    ensures CountPlaySteps(TempPlan(event)) == (if IsPlay(event) then 1 else 0)
  {
    var t := TempPlan(event);
    if event == EVENT_PLAY {
      CountPlayStepsFour(t[0], t[1], t[2], PlayStep);
      assert t == [t[0], t[1], t[2]];
    } else if event == EVENT_PLAY_FADE {
      CountPlayStepsFour(t[0], t[1], t[2], t[3]);
      assert t == [t[0], t[1], t[2], t[3]];
    } else if t != [] {
      CountPlayStepsFour(t[0], PlayStep, PlayStep, PlayStep);
      assert t == [t[0]];
    }
  }

  lemma LoopPlanPlays(event: int)
    ensures CountPlaySteps(LoopPlan(event)) == (if IsPlay(event) then 1 else 0)
  {
    var l := LoopPlan(event);
    if event == EVENT_PLAY {
      CountPlayStepsFour(l[0], l[1], l[2], PlayStep);
      assert l == [l[0], l[1], l[2]];
    } else if event == EVENT_PLAY_FADE {
      CountPlayStepsFour(l[0], l[1], l[2], l[3]);
      assert l == [l[0], l[1], l[2], l[3]];
    } else if event == EVENT_PAUSE_FADE || event == EVENT_STOP_FADE {
      CountPlayStepsFour(l[0], l[1], PlayStep, PlayStep);
      assert l == [l[0], l[1]];
    } else if l != [] {
      CountPlayStepsFour(l[0], PlayStep, PlayStep, PlayStep);
      assert l == [l[0]];
    }
  }

  /** A temporary event plays at most once. */
  lemma TempPlanPlaysAtMostOnce(ev: AudioEvent)
    ensures CountPlays(Execute(TempPlan(ev.event), ev).commands) <= 1
  {
    PlaysFromPlaySteps(TempPlan(ev.event), ev);
    PlansPlayAtMostOnce(ev.event);
  }

  function Temp(i: int, cs: seq<Command>): (r: seq<Effect>)
    ensures |r| == |cs| && forall k :: 0 <= k < |r| ==> r[k] == TempCommand(i, cs[k])
  {
    seq(|cs|, k requires 0 <= k < |cs| => TempCommand(i, cs[k]))
  }

  function Loop(i: int, cs: seq<Command>): (r: seq<Effect>)
    ensures |r| == |cs| && forall k :: 0 <= k < |r| ==> r[k] == LoopCommand(i, cs[k])
  {
    seq(|cs|, k requires 0 <= k < |cs| => LoopCommand(i, cs[k]))
  }

  // ---------------------------------------------------------------- the temporary pass

  /** The lowest temporary source that is not playing. */
  function FirstFree(playing: seq<bool>): (r: Option<int>)
    ensures r.Some? ==> 0 <= r.value < |playing| && !playing[r.value] && forall j :: 0 <= j < r.value ==> playing[j]
    ensures r.None? <==> forall j :: 0 <= j < |playing| ==> playing[j]
  {
    if playing == [] then None
    else if !playing[0] then Some(0)
    else var r := FirstFree(playing[1..]); if r.None? then None else Some(r.value + 1)
  }

  function CountFree(playing: seq<bool>): (n: nat)
    ensures n <= |playing|
  {
    if playing == [] then 0 else (if playing[0] then 0 else 1) + CountFree(playing[1..])
  }

  lemma {:induction false} CountFreeTake(playing: seq<bool>, i: int)
    requires 0 <= i < |playing| && !playing[i]
    ensures CountFree(playing[i := true]) + 1 == CountFree(playing)
  {
    if i > 0 {
      assert playing[i := true][1..] == playing[1..][i - 1 := true];
      CountFreeTake(playing[1..], i - 1);
    }
  }

  /** The handling of temporary events: the sources issued, the OpenAL state after, and a failure. */
  datatype Pass = Pass(effects: seq<Effect>, playing: seq<bool>, failure: Option<Exception>)

  /** The state a temporary source is left in by a run: playing once it was told to play. */
  function AfterRun(playing: seq<bool>, i: int, run: Run): (r: seq<bool>)
    requires 0 <= i < |playing|
    ensures |r| == |playing|
  {
    if CountPlays(run.commands) > 0 then playing[i := true] else playing
  }

  /** Each event goes to the lowest free temporary source; when none is free, it and every later
    * event of the pass are dropped. */
  function TempPass(queue: seq<AudioEvent>, playing: seq<bool>): (p: Pass)
    ensures |p.playing| == |playing|
  {
    if queue == [] then Pass([], playing, None)
    else
      var free := FirstFree(playing);
      if free.None? then Pass([], playing, None)
      else
        var i := free.value;
        var run := Execute(TempPlan(queue[0].event), queue[0]);
        var after := AfterRun(playing, i, run);
        if run.failure.Some? then Pass(Temp(i, run.commands), after, run.failure)
        else
          var rest := TempPass(queue[1..], after);
          Pass(Temp(i, run.commands) + rest.effects, rest.playing, rest.failure)
  }

  function CountPlayEffects(fx: seq<Effect>): nat
  {
    if fx == [] then 0 else (if fx[0].c.Play? then 1 else 0) + CountPlayEffects(fx[1..])
  }

  lemma {:induction false} CountPlayEffectsAppend(a: seq<Effect>, b: seq<Effect>)
    ensures CountPlayEffects(a + b) == CountPlayEffects(a) + CountPlayEffects(b)
  {
    if a == [] {
      assert a + b == b;
    } else {
      assert (a + b)[1..] == a[1..] + b;
      CountPlayEffectsAppend(a[1..], b);
    }
  }

  lemma {:induction false} CountPlaysTemp(i: int, cs: seq<Command>)
    ensures CountPlayEffects(Temp(i, cs)) == CountPlays(cs)
  {
    if cs != [] {
      assert Temp(i, cs)[1..] == Temp(i, cs[1..]);
      CountPlaysTemp(i, cs[1..]);
    }
  }

  /** Every play in a pass takes one free temporary source: plays issued plus sources still free is
    * the number free at the start. */
  lemma {:induction false} PlaysUseFreeSources(queue: seq<AudioEvent>, playing: seq<bool>)
    ensures CountPlayEffects(TempPass(queue, playing).effects) + CountFree(TempPass(queue, playing).playing) == CountFree(playing)
  {
    if queue != [] && FirstFree(playing).Some? {
      var i := FirstFree(playing).value;
      var run := Execute(TempPlan(queue[0].event), queue[0]);
      var after := AfterRun(playing, i, run);
      TempPlanPlaysAtMostOnce(queue[0]);
      CountPlaysTemp(i, run.commands);
      if CountPlays(run.commands) > 0 {
        CountFreeTake(playing, i);
      }
      if run.failure.None? {
        var rest := TempPass(queue[1..], after);
        PlaysUseFreeSources(queue[1..], after);
        CountPlayEffectsAppend(Temp(i, run.commands), rest.effects);
      }
    }
  }

  /** With every temporary source playing, the pass drops all its events. */
  lemma AllBusyDropsEverything(queue: seq<AudioEvent>, playing: seq<bool>)
    requires forall j :: 0 <= j < |playing| ==> playing[j]
    ensures TempPass(queue, playing) == Pass([], playing, None)
  {
  }

  // ---------------------------------------------------------------- the loop pass

  /** `(int)` of a Java `float`: rounded toward zero and clamped to the `int` range. */
  function FloatToInt(x: real): (n: int)
    ensures IsInt32(n)
    ensures 0.0 <= x <= INT_MAX as real ==> n == x.Floor
  {
    var t := if x >= 0.0 then x.Floor else -((-x).Floor);
    if t < INT_MIN then INT_MIN else if t > INT_MAX then INT_MAX else t
  }

  /** An `int` stored in a `float` parameter and cast back: exact for every magnitude up to 2^24, where a
    * `float` still holds each integer. */
  lemma FloatToIntExact(n: int)
    requires -0x100_0000 <= n <= 0x100_0000
    ensures FloatToInt(n as real) == n
  {
  }

  lemma LoopRunExecutes(ev: AudioEvent)
    requires |ev.params| > 0 && 0 <= FloatToInt(ev.params[0]) < MAX_LOOP_SOURCES
    ensures LoopRun(ev) == (FloatToInt(ev.params[0]), Execute(LoopPlan(ev.event), ev))
  {
  }

  /** One loop event: parameter 0 names the source, which must exist once the event code uses it. */
  function LoopRun(ev: AudioEvent): (r: (int, Run))
  {
    if |ev.params| == 0 then (0, Run([], Some(IndexOutOfBounds)))
    else
      var source := FloatToInt(ev.params[0]);
      var plan := LoopPlan(ev.event);
      if plan != [] && !(0 <= source < MAX_LOOP_SOURCES) then (source, Run([], Some(IndexOutOfBounds)))
      else (source, Execute(plan, ev))
  }

  function LoopPass(queue: seq<AudioEvent>): (p: Pass)
  {
    if queue == [] then Pass([], [], None)
    else
      var (source, run) := LoopRun(queue[0]);
      if run.failure.Some? then Pass(Loop(source, run.commands), [], run.failure)
      else var rest := LoopPass(queue[1..]); Pass(Loop(source, run.commands) + rest.effects, [], rest.failure)
  }

  /** Loop events only command loop sources that exist. */
  lemma {:induction false} LoopPassTargetsLoopSources(queue: seq<AudioEvent>)
    ensures forall k :: 0 <= k < |LoopPass(queue).effects| ==>
      LoopPass(queue).effects[k].LoopCommand? && 0 <= LoopPass(queue).effects[k].source < MAX_LOOP_SOURCES
  {
    if queue != [] {
      var (source, run) := LoopRun(queue[0]);
      assert run.commands != [] ==> 0 <= source < MAX_LOOP_SOURCES;
      LoopPassTargetsLoopSources(queue[1..]);
    }
  }

  // ---------------------------------------------------------------- the handler

  class AudioHandler {
    var tempQueue: seq<AudioEvent>
    var loopQueue: seq<AudioEvent>
    var running: bool
    var error: int
    /** The commands issued to sources so far. */
    var effects: seq<Effect>

    constructor ()
      ensures tempQueue == [] && loopQueue == [] && running && error == 0 && effects == []
    {
      tempQueue, loopQueue, running, error, effects := [], [], true, 0, [];
    }

    /** Queues events: loop events to the loop queue, the rest to the temporary queue, in order. */
    method Queue(events: seq<AudioEvent>)
      modifies this`tempQueue, this`loopQueue
      ensures loopQueue == old(loopQueue) + LoopEvents(events)
      ensures tempQueue == old(tempQueue) + TempEvents(events)
    {
      var i := 0;
      while i < |events|
        invariant 0 <= i <= |events|
        invariant loopQueue == old(loopQueue) + LoopEvents(events[..i])
        invariant tempQueue == old(tempQueue) + TempEvents(events[..i])
      {
        assert events[..i + 1] == events[..i] + [events[i]];
        RoutingAppend(events[..i], [events[i]]);
        if events[i].loop {
          loopQueue := loopQueue + [events[i]];
        } else {
          tempQueue := tempQueue + [events[i]];
        }
        i := i + 1;
      }
      assert events[..i] == events;
    }

    method SetError(error: int)
      modifies this`error
      ensures this.error == error
    {
      this.error := error;
    }

    /** The search for a free temporary source: the lowest one not playing, `None` when all play. */
    static method FindFree(playing: seq<bool>) returns (r: Option<int>)
      requires |playing| == MAX_TEMP_SOURCES
      ensures r == FirstFree(playing)
    {
      var i := 0;
      while i < MAX_TEMP_SOURCES
        invariant 0 <= i <= MAX_TEMP_SOURCES
        invariant forall j :: 0 <= j < i ==> playing[j]
      {
        if !playing[i] {
          return Some(i);
        } else if i >= MAX_TEMP_SOURCES - 1 {
          return None;
        }
        i := i + 1;
      }
      r := None;
    }

    /** The temporary half of `handleEvents`, on values. */
    static method RunTempQueue(queue: seq<AudioEvent>, playing: seq<bool>) returns (p: Pass)
      requires |playing| == MAX_TEMP_SOURCES
      ensures p == TempPass(queue, playing)
    {
      var fx: seq<Effect> := [];
      var pl := playing;
      var n := 0;
      while n < |queue|
        invariant 0 <= n <= |queue| && |pl| == MAX_TEMP_SOURCES
        invariant TempPass(queue, playing) == (var rest := TempPass(queue[n..], pl); Pass(fx + rest.effects, rest.playing, rest.failure))
      {
        var free := FindFree(pl);
        if free.None? {
          assert TempPass(queue[n..], pl) == Pass([], pl, None);
          return Pass(fx, pl, None);
        }
        var i := free.value;
        var ev := queue[n];
        var run := Execute(TempPlan(ev.event), ev);
        var before := pl;
        pl := AfterRun(pl, i, run);
        assert queue[n..][0] == ev && queue[n..][1..] == queue[n + 1..];
        if run.failure.Some? {
          return Pass(fx + Temp(i, run.commands), pl, run.failure);
        }
        ghost var rest := TempPass(queue[n + 1..], pl);
        assert TempPass(queue[n..], before) == Pass(Temp(i, run.commands) + rest.effects, rest.playing, rest.failure);
        AppendShift(fx, Temp(i, run.commands), rest.effects);
        fx := fx + Temp(i, run.commands);
        n := n + 1;
      }
      assert TempPass(queue[n..], pl) == Pass([], pl, None);
      p := Pass(fx, pl, None);
    }

    /** The loop half of `handleEvents`, on values. */
    static method RunLoopQueue(queue: seq<AudioEvent>) returns (p: Pass)
      ensures p == LoopPass(queue)
    {
      var fx: seq<Effect> := [];
      var n := 0;
      while n < |queue|
        invariant 0 <= n <= |queue|
        invariant LoopPass(queue) == (var rest := LoopPass(queue[n..]); Pass(fx + rest.effects, [], rest.failure))
      {
        var (source, run) := LoopRun(queue[n]);
        assert queue[n..][0] == queue[n] && queue[n..][1..] == queue[n + 1..];
        if run.failure.Some? {
          return Pass(fx + Loop(source, run.commands), [], run.failure);
        }
        ghost var rest := LoopPass(queue[n + 1..]);
        AppendShift(fx, Loop(source, run.commands), rest.effects);
        fx := fx + Loop(source, run.commands);
        n := n + 1;
      }
      assert LoopPass(queue[n..]) == Pass([], [], None);
      p := Pass(fx, [], None);
    }

    /** Handles both queues. `playing` is whether each temporary source plays when the pass starts;
      * the result says the same after it. A failure escapes before the queue it came from is cleared. */
    method HandleEvents(playing: seq<bool>) returns (o: Outcome, playingAfter: seq<bool>)
      requires |playing| == MAX_TEMP_SOURCES
      modifies this`tempQueue, this`loopQueue, this`effects
      ensures var t := TempPass(old(tempQueue), playing); var l := LoopPass(old(loopQueue));
        playingAfter == t.playing &&
        (t.failure.Some? ==> o == Thrown(t.failure.value) && effects == old(effects) + t.effects &&
                             tempQueue == old(tempQueue) && loopQueue == old(loopQueue)) &&
        (t.failure.None? ==> tempQueue == [] && effects == old(effects) + t.effects + l.effects &&
                             (l.failure.Some? ==> o == Thrown(l.failure.value) && loopQueue == old(loopQueue)) &&
                             (l.failure.None? ==> o == Normal && loopQueue == []))
    {
      var t := RunTempQueue(tempQueue, playing);
      playingAfter := t.playing;
      effects := effects + t.effects;
      if t.failure.Some? {
        return Thrown(t.failure.value), playingAfter;
      }
      tempQueue := [];
      var l := RunLoopQueue(loopQueue);
      effects := effects + l.effects;
      if l.failure.Some? {
        return Thrown(l.failure.value), playingAfter;
      }
      loopQueue := [];
      o := Normal;
    }
  }

  lemma AppendShift<T>(a: seq<T>, b: seq<T>, c: seq<T>)
    ensures a + b + c == a + (b + c)
  {
  }

  /** A pass over events whose parameters and clips are all there never fails: every temporary event
    * it reaches is handled to the end. */
  lemma {:induction false} WellFormedTempPassSucceeds(queue: seq<AudioEvent>, playing: seq<bool>)
    requires forall k :: 0 <= k < |queue| ==>
      |queue[k].params| >= TempArity(queue[k].event) && (IsPlay(queue[k].event) ==> queue[k].audio.Some?)
    ensures TempPass(queue, playing).failure.None?
  {
    if queue != [] && FirstFree(playing).Some? {
      TempRunOutcome(queue[0]);
      var i := FirstFree(playing).value;
      var run := Execute(TempPlan(queue[0].event), queue[0]);
      assert forall k :: 0 <= k < |queue[1..]| ==> queue[1..][k] == queue[k + 1];
      WellFormedTempPassSucceeds(queue[1..], AfterRun(playing, i, run));
    }
  }

  // ---------------------------------------------------------------- the manager

  /** The events the manager builds. */
  function FadeLoopGainEvents(target: real, duration: real, sources: seq<int>): (r: seq<AudioEvent>)
    ensures |r| == |sources|
    ensures forall k :: 0 <= k < |r| ==> r[k] == AudioEvent(None, true, EVENT_FADE_GAIN, [sources[k] as real, target, duration])
  {
    seq(|sources|, k requires 0 <= k < |sources| => AudioEvent(None, true, EVENT_FADE_GAIN, [sources[k] as real, target, duration]))
  }

  function FadeLoopPitchEvents(target: real, duration: real, sources: seq<int>): (r: seq<AudioEvent>)
    ensures |r| == |sources|
    ensures forall k :: 0 <= k < |r| ==> r[k] == AudioEvent(None, true, EVENT_FADE_PITCH, [sources[k] as real, target, duration])
  {
    seq(|sources|, k requires 0 <= k < |sources| => AudioEvent(None, true, EVENT_FADE_PITCH, [sources[k] as real, target, duration]))
  }

  /** Loop control events with only a source parameter, or a source and a duration. */
  function LoopControlEvents(event: int, duration: Option<real>, sources: seq<int>): (r: seq<AudioEvent>)
    ensures |r| == |sources|
    ensures forall k :: 0 <= k < |r| ==> (r[k].loop && r[k].event == event && r[k].audio == None &&
      r[k].params == [sources[k] as real] + (if duration.Some? then [duration.value] else []))
  {
    seq(|sources|, k requires 0 <= k < |sources| =>
      AudioEvent(None, true, event, [sources[k] as real] + (if duration.Some? then [duration.value] else [])))
  }

  /** A loop-control event from the manager commands the named source to the end when the source exists,
    * and fails with `IndexOutOfBounds` before any call when it does not. */
  lemma ManagerLoopEventsTargetSource(event: int, duration: Option<real>, sources: seq<int>, k: int)
    requires 0 <= k < |sources| && IsInt32(sources[k])
    requires (event in {EVENT_PAUSE, EVENT_STOP} && duration.None?) || (event in {EVENT_PAUSE_FADE, EVENT_STOP_FADE} && duration.Some?)
    ensures var (source, run) := LoopRun(LoopControlEvents(event, duration, sources)[k]);
      source == sources[k] &&
      (0 <= sources[k] < MAX_LOOP_SOURCES ==> run.failure.None? && |run.commands| == |LoopPlan(event)|) &&
      (!(0 <= sources[k] < MAX_LOOP_SOURCES) ==> run == Run([], Some(IndexOutOfBounds)))
  {
    var ev := LoopControlEvents(event, duration, sources)[k];
    assert (sources[k] as real).Floor == sources[k];
    assert FloatToInt(ev.params[0]) == sources[k];
    LoopPlanOutcome(ev);
  }

  /** `AudioLibrary.getAudio`: an unregistered name shuts the audio down with error 1 and throws. */
  function LibraryAudio(library: map<string, Sound>, name: string): (r: Result<Sound>)
    ensures r.Ok? <==> name in library
    ensures r.Ok? ==> r.value == library[name]
    ensures r.Throws? ==> r.ex == IllegalArgument
  {
    if name in library then Ok(library[name]) else Throws(IllegalArgument)
  }

  class AudioManager {
    /** `null` until started. */
    var handler: AudioHandler?

    constructor ()
      ensures handler == null
    {
      handler := null;
    }

    /** Creates the handler; its thread is not modelled. */
    method Start()
      modifies this`handler
      ensures handler != null && fresh(handler)
      ensures handler.tempQueue == [] && handler.loopQueue == [] && handler.running && handler.error == 0 && handler.effects == []
    {
      handler := new AudioHandler();
    }

    /** Queues events one by one; without a handler the first one dereferences `null`. */
    method QueueEach(events: seq<AudioEvent>) returns (o: Outcome)
      modifies handler
      ensures o.Thrown? <==> handler == null && events != []
      ensures o.Thrown? ==> o.ex == NullPointer
      ensures handler != null ==> (handler.loopQueue == old(handler.loopQueue) + LoopEvents(events) &&
        handler.tempQueue == old(handler.tempQueue) + TempEvents(events) &&
        handler.running == old(handler.running) && handler.error == old(handler.error) && handler.effects == old(handler.effects))
    {
      if events != [] && handler == null {
        return Thrown(NullPointer);
      }
      var i := 0;
      while i < |events|
        invariant 0 <= i <= |events|
        invariant handler != null ==> (handler.loopQueue == old(handler.loopQueue) + LoopEvents(events[..i]) &&
          handler.tempQueue == old(handler.tempQueue) + TempEvents(events[..i]) &&
          handler.running == old(handler.running) && handler.error == old(handler.error) && handler.effects == old(handler.effects))
      {
        assert events[..i + 1] == events[..i] + [events[i]];
        RoutingAppend(events[..i], [events[i]]);
        handler.Queue([events[i]]);
        i := i + 1;
      }
      assert events[..i] == events;
      o := Normal;
    }

    method FadeLoopGain(target: real, duration: real, sources: seq<int>) returns (o: Outcome)
      modifies handler
      ensures o.Thrown? <==> handler == null && sources != []
      ensures handler != null ==> (handler.loopQueue == old(handler.loopQueue) + FadeLoopGainEvents(target, duration, sources) &&
        handler.tempQueue == old(handler.tempQueue) &&
        handler.running == old(handler.running) && handler.error == old(handler.error) && handler.effects == old(handler.effects))
    {
      var events := FadeLoopGainEvents(target, duration, sources);
      AllLoop(events);
      o := QueueEach(events);
    }

    method FadeLoopPitch(target: real, duration: real, sources: seq<int>) returns (o: Outcome)
      modifies handler
      ensures o.Thrown? <==> handler == null && sources != []
      ensures handler != null ==> (handler.loopQueue == old(handler.loopQueue) + FadeLoopPitchEvents(target, duration, sources) &&
        handler.tempQueue == old(handler.tempQueue) &&
        handler.running == old(handler.running) && handler.error == old(handler.error) && handler.effects == old(handler.effects))
    {
      var events := FadeLoopPitchEvents(target, duration, sources);
      AllLoop(events);
      o := QueueEach(events);
    }

    /** Setting a loop gain is fading to it in no time. */
    method SetLoopGain(target: real, sources: seq<int>) returns (o: Outcome)
      modifies handler
      ensures o.Thrown? <==> handler == null && sources != []
      ensures handler != null ==> (handler.loopQueue == old(handler.loopQueue) + FadeLoopGainEvents(target, 0.0, sources) &&
        handler.tempQueue == old(handler.tempQueue) &&
        handler.running == old(handler.running) && handler.error == old(handler.error) && handler.effects == old(handler.effects))
    {
      o := FadeLoopGain(target, 0.0, sources);
    }

    method SetLoopPitch(target: real, sources: seq<int>) returns (o: Outcome)
      modifies handler
      ensures o.Thrown? <==> handler == null && sources != []
      ensures handler != null ==> (handler.loopQueue == old(handler.loopQueue) + FadeLoopPitchEvents(target, 0.0, sources) &&
        handler.tempQueue == old(handler.tempQueue) &&
        handler.running == old(handler.running) && handler.error == old(handler.error) && handler.effects == old(handler.effects))
    {
      o := FadeLoopPitch(target, 0.0, sources);
    }

    /** `stopLoop(s…)` with `duration == None`, `stopLoop(d, s…)` otherwise. */
    method StopLoop(duration: Option<real>, sources: seq<int>) returns (o: Outcome)
      modifies handler
      ensures o.Thrown? <==> handler == null && sources != []
      ensures handler != null ==> (handler.tempQueue == old(handler.tempQueue) &&
        handler.loopQueue == old(handler.loopQueue) + LoopControlEvents(if duration.None? then EVENT_STOP else EVENT_STOP_FADE, duration, sources) &&
        handler.running == old(handler.running) && handler.error == old(handler.error) && handler.effects == old(handler.effects))
    {
      var events := LoopControlEvents(if duration.None? then EVENT_STOP else EVENT_STOP_FADE, duration, sources);
      AllLoop(events);
      o := QueueEach(events);
    }

    /** `pauseLoop(s…)` with `duration == None`, `pauseLoop(d, s…)` otherwise. */
    method PauseLoop(duration: Option<real>, sources: seq<int>) returns (o: Outcome)
      modifies handler
      ensures o.Thrown? <==> handler == null && sources != []
      ensures handler != null ==> (handler.tempQueue == old(handler.tempQueue) &&
        handler.loopQueue == old(handler.loopQueue) + LoopControlEvents(if duration.None? then EVENT_PAUSE else EVENT_PAUSE_FADE, duration, sources) &&
        handler.running == old(handler.running) && handler.error == old(handler.error) && handler.effects == old(handler.effects))
    {
      var events := LoopControlEvents(if duration.None? then EVENT_PAUSE else EVENT_PAUSE_FADE, duration, sources);
      AllLoop(events);
      o := QueueEach(events);
    }

    /** Plays the named clips on temporary sources: `play(gain, pitch, names…)` with `duration ==
      * None`, `play(gain, pitch, duration, names…)` otherwise. An unregistered name shuts the audio
      * down and throws; the names before it stay queued. Without a handler even that shutdown
      * dereferences `null`. */
    method PlayClips(gain: real, pitch: real, duration: Option<real>, names: seq<string>, library: map<string, Sound>) returns (o: Outcome)
      modifies handler
      ensures handler != null && (forall n :: n in names ==> n in library) ==>
        (o == Normal && handler.loopQueue == old(handler.loopQueue) &&
         handler.tempQueue == old(handler.tempQueue) + PlayEvents(gain, pitch, duration, names, library) &&
         handler.running == old(handler.running) && handler.error == old(handler.error) && handler.effects == old(handler.effects))
      ensures handler != null && (exists n :: n in names && n !in library) ==>
        (o == Thrown(IllegalArgument) && !handler.running && handler.error == 1 && handler.loopQueue == old(handler.loopQueue) &&
         handler.effects == old(handler.effects))
      ensures handler != null ==>
        handler.tempQueue == old(handler.tempQueue) + PlayEvents(gain, pitch, duration, names[..FirstMissing(names, library)], library)
      ensures handler == null ==> o == (if names == [] then Normal else Thrown(NullPointer))
    {
      if handler == null {
        return if names == [] then Normal else Thrown(NullPointer);
      }
      ghost var stop := FirstMissing(names, library);
      var i := 0;
      while i < |names|
        invariant 0 <= i <= |names|
        invariant forall k :: 0 <= k < i ==> names[k] in library
        invariant i <= stop
        invariant handler.loopQueue == old(handler.loopQueue)
        invariant handler.running == old(handler.running) && handler.error == old(handler.error) && handler.effects == old(handler.effects)
        invariant handler.tempQueue == old(handler.tempQueue) + PlayEvents(gain, pitch, duration, names[..i], library)
      {
        var audio := LibraryAudio(library, names[i]);
        if audio.Throws? {
          handler.SetError(1);
          handler.running := false;
          return Thrown(IllegalArgument);
        }
        var e := PlayEvent(gain, pitch, duration, audio.value);
        assert PlayEvents(gain, pitch, duration, names[..i + 1], library) == PlayEvents(gain, pitch, duration, names[..i], library) + [e];
        handler.Queue([e]);
        i := i + 1;
      }
      assert names[..i] == names;
      assert stop == |names|;
      o := Normal;
    }

    /** Plays a clip on loop source `source`: `playLoop(source, gain, pitch, name)` with `duration ==
      * None`, `playLoop(source, gain, pitch, duration, name)` otherwise. */
    method PlayLoop(source: int, gain: real, pitch: real, duration: Option<real>, name: string, library: map<string, Sound>) returns (o: Outcome)
      modifies handler
      ensures handler == null ==> o == Thrown(NullPointer)
      ensures handler != null && name !in library ==>
        (o == Thrown(IllegalArgument) && !handler.running && handler.error == 1 &&
         handler.tempQueue == old(handler.tempQueue) && handler.loopQueue == old(handler.loopQueue) &&
         handler.effects == old(handler.effects))
      ensures handler != null && name in library ==>
        (o == Normal && handler.tempQueue == old(handler.tempQueue) &&
         handler.loopQueue == old(handler.loopQueue) + [LoopPlayEvent(source, gain, pitch, duration, library[name])] &&
         handler.running == old(handler.running) && handler.error == old(handler.error) && handler.effects == old(handler.effects))
    {
      if handler == null {
        return Thrown(NullPointer);
      }
      var audio := LibraryAudio(library, name);
      if audio.Throws? {
        handler.SetError(1);
        handler.running := false;
        return Thrown(IllegalArgument);
      }
      handler.Queue([LoopPlayEvent(source, gain, pitch, duration, audio.value)]);
      o := Normal;
    }

    /** Stops the handler's loop, recording `error`. */
    method Destroy(error: int) returns (o: Outcome)
      modifies handler
      ensures handler == null ==> o == Thrown(NullPointer)
      ensures handler != null ==> (o == Normal && handler.error == error && !handler.running &&
        handler.tempQueue == old(handler.tempQueue) && handler.loopQueue == old(handler.loopQueue) && handler.effects == old(handler.effects))
    {
      if handler == null {
        return Thrown(NullPointer);
      }
      handler.SetError(error);
      handler.running := false;
      o := Normal;
    }
  }

  lemma {:induction false} AllLoop(events: seq<AudioEvent>)
    requires forall k :: 0 <= k < |events| ==> events[k].loop
    ensures LoopEvents(events) == events && TempEvents(events) == []
  {
    if events != [] {
      AllLoop(events[..|events| - 1]);
    }
  }

  /** The temporary event `play` queues for one clip. */
  function PlayEvent(gain: real, pitch: real, duration: Option<real>, sound: Sound): AudioEvent
  {
    if duration.None? then AudioEvent(Some(sound), false, EVENT_PLAY, [gain, pitch])
    else AudioEvent(Some(sound), false, EVENT_PLAY_FADE, [gain, pitch, duration.value])
  }

  /** The loop event `playLoop` queues. */
  function LoopPlayEvent(source: int, gain: real, pitch: real, duration: Option<real>, sound: Sound): AudioEvent
  {
    if duration.None? then AudioEvent(Some(sound), true, EVENT_PLAY, [source as real, gain, pitch])
    else AudioEvent(Some(sound), true, EVENT_PLAY_FADE, [source as real, gain, pitch, duration.value])
  }

  /** A loop source that exists is played to the end by the event `playLoop` queues for it. */
  lemma LoopPlayEventRuns(source: int, gain: real, pitch: real, duration: Option<real>, sound: Sound)
    requires 0 <= source < MAX_LOOP_SOURCES
    ensures var (target, run) := LoopRun(LoopPlayEvent(source, gain, pitch, duration, sound));
      target == source && run.failure.None? && CountPlays(run.commands) == 1
  {
    var ev := LoopPlayEvent(source, gain, pitch, duration, sound);
    assert IsPlay(ev.event) && |ev.params| >= LoopArity(ev.event);
    FloatToIntExact(source);
    LoopRunExecutes(ev);
    var plan := LoopPlan(ev.event);
    LoopPlanOutcome(ev);
    PlaysFromPlaySteps(plan, ev);
    PlansPlayAtMostOnce(ev.event);
    PlayCounted(Execute(plan, ev).commands, 2);
  }


  /** The index of the first name with no registered clip, or the number of names when every one is
    * registered. */
  function FirstMissing(names: seq<string>, library: map<string, Sound>): (i: nat)
    ensures i <= |names|
    ensures forall k :: 0 <= k < i ==> names[k] in library
    ensures i < |names| ==> names[i] !in library
  {
    if names == [] || names[0] !in library then 0 else 1 + FirstMissing(names[1..], library)
  }

  /** The temporary events `play` queues for registered names, one per name in order. */
  function PlayEvents(gain: real, pitch: real, duration: Option<real>, names: seq<string>, library: map<string, Sound>): (r: seq<AudioEvent>)
    requires forall n :: n in names ==> n in library
    ensures |r| == |names|
    ensures forall k :: 0 <= k < |r| ==> r[k] == PlayEvent(gain, pitch, duration, library[names[k]])
  {
    seq(|names|, k requires 0 <= k < |names| => PlayEvent(gain, pitch, duration, library[names[k]]))
  }

  /** Events built by `play` are handled to the end, whatever sources are playing. */
  lemma PlayEventsComplete(gain: real, pitch: real, duration: Option<real>, names: seq<string>, library: map<string, Sound>, playing: seq<bool>)
    requires forall n :: n in names ==> n in library
    ensures TempPass(PlayEvents(gain, pitch, duration, names, library), playing).failure.None?
  {
    WellFormedTempPassSucceeds(PlayEvents(gain, pitch, duration, names, library), playing);
  }

  // ---------------------------------------------------------------- WAV clips

  newtype byte = x: int | 0 <= x < 256

  /** The OpenAL buffer formats. */
  datatype Format = MONO8 | STEREO8 | MONO16 | STEREO16

  /** What a clip gives OpenAL: format, sample rate, channels, bits per sample and samples. */
  datatype Wav = Wav(format: Format, frequency: int, channels: int, bitrate: int, data: seq<byte>)

  const WAV_HEADER_SIZE: int := 44
  const WAV_SAMPLE_RATE_OFFSET: int := 24
  const WAV_NUM_CHANNELS_OFFSET: int := 22
  const WAV_BITS_PER_SAMPLE_OFFSET: int := 34

  /** `ByteBuffer.getShort(off)` in little-endian order: a signed 16-bit value. */
  function Int16LE(b: seq<byte>, off: int): (r: int)
    requires 0 <= off && off + 2 <= |b|
    ensures -0x8000 <= r < 0x8000
  {
    var u := b[off] as int + 0x100 * b[off + 1] as int;
    if u >= 0x8000 then u - 0x1_0000 else u
  }

  /** `ByteBuffer.getInt(off)` in little-endian order: a signed 32-bit value. */
  function Int32LE(b: seq<byte>, off: int): (r: int)
    requires 0 <= off && off + 4 <= |b|
    ensures IsInt32(r)
  {
    var u := b[off] as int + 0x100 * b[off + 1] as int + 0x1_0000 * b[off + 2] as int + 0x100_0000 * b[off + 3] as int;
    if u >= 0x8000_0000 then u - 0x1_0000_0000 else u
  }

  /** `Audio.createAudio` on the file's bytes: the rate at 24, channels at 22 and bits per sample at 34
    * are read in that order, the samples start at 44, and the format follows from channels and bits.
    * The tags of the header are not checked. */
  function DecodeWav(b: seq<byte>): (r: Result<Wav>)
    ensures r.Ok? ==> |b| >= WAV_HEADER_SIZE && r.value.data == b[WAV_HEADER_SIZE..]
    ensures r.Ok? ==> r.value.frequency == Int32LE(b, 24) && r.value.channels == Int16LE(b, 22) && r.value.bitrate == Int16LE(b, 34)
    ensures r.Ok? ==> (r.value.bitrate == 8 || r.value.bitrate == 16)
    ensures r.Ok? ==> (r.value.format in {MONO8, MONO16} <==> r.value.channels == 1)
    ensures r.Ok? ==> (r.value.format in {MONO8, STEREO8} <==> r.value.bitrate == 8)
    ensures |b| < 36 ==> r == Throws(IndexOutOfBounds)
    ensures 36 <= |b| < WAV_HEADER_SIZE ==> r == Throws(IllegalArgument)
    ensures |b| >= WAV_HEADER_SIZE ==> (r.Throws? <==> Int16LE(b, 34) != 8 && Int16LE(b, 34) != 16)
    ensures |b| >= WAV_HEADER_SIZE && r.Throws? ==> r.ex == IllegalState
  {
    if |b| < WAV_SAMPLE_RATE_OFFSET + 4 then Throws(IndexOutOfBounds)
    else
      var frequency := Int32LE(b, WAV_SAMPLE_RATE_OFFSET);
      var channels := Int16LE(b, WAV_NUM_CHANNELS_OFFSET);
      if |b| < WAV_BITS_PER_SAMPLE_OFFSET + 2 then Throws(IndexOutOfBounds)
      else
        var bitrate := Int16LE(b, WAV_BITS_PER_SAMPLE_OFFSET);
        if |b| < WAV_HEADER_SIZE then Throws(IllegalArgument)
        else if bitrate == 8 then Ok(Wav(if channels == 1 then MONO8 else STEREO8, frequency, channels, bitrate, b[WAV_HEADER_SIZE..]))
        else if bitrate == 16 then Ok(Wav(if channels == 1 then MONO16 else STEREO16, frequency, channels, bitrate, b[WAV_HEADER_SIZE..]))
        else Throws(IllegalState)
  }

  function LE16(n: int): (r: seq<byte>)
    ensures |r| == 2
  {
    [(n % 0x100) as byte, ((n / 0x100) % 0x100) as byte]
  }

  function LE32(n: int): (r: seq<byte>)
    ensures |r| == 4
  {
    [(n % 0x100) as byte, ((n / 0x100) % 0x100) as byte, ((n / 0x1_0000) % 0x100) as byte, ((n / 0x100_0000) % 0x100) as byte]
  }

  function Tag(s: string): seq<byte>
    requires forall k :: 0 <= k < |s| ==> s[k] as int < 256
  {
    seq(|s|, k requires 0 <= k < |s| => s[k] as int as byte)
  }

  /** The canonical 44-byte header of PCM audio (the Waveform Audio File Format of the Multimedia
    * Programming Interface and Data Specifications 1.0), followed by the samples. */
  function CanonicalWav(rate: int, channels: int, bits: int, data: seq<byte>): (b: seq<byte>)
    ensures |b| == WAV_HEADER_SIZE + |data|
    ensures b[..4] == Tag("RIFF") && b[8..12] == Tag("WAVE") && b[36..40] == Tag("data")
    ensures b[WAV_HEADER_SIZE..] == data
  {
    Tag("RIFF") + LE32(36 + |data|) + Tag("WAVE") + Tag("fmt ") + LE32(16) + LE16(1) + LE16(channels) +
    LE32(rate) + LE32(rate * channels * bits / 8) + LE16(channels * bits / 8) + LE16(bits) +
    Tag("data") + LE32(|data|) + data
  }

  lemma LE16RoundTrip(n: int, b: seq<byte>, off: int)
    requires 0 <= n < 0x8000 && 0 <= off && off + 2 <= |b| && b[off..off + 2] == LE16(n)
    ensures Int16LE(b, off) == n
  {
    assert b[off] == LE16(n)[0] && b[off + 1] == LE16(n)[1];
  }

  lemma LE32RoundTrip(n: int, b: seq<byte>, off: int)
    requires 0 <= n <= INT_MAX && 0 <= off && off + 4 <= |b| && b[off..off + 4] == LE32(n)
    ensures Int32LE(b, off) == n
  {
    assert b[off] == LE32(n)[0] && b[off + 1] == LE32(n)[1] && b[off + 2] == LE32(n)[2] && b[off + 3] == LE32(n)[3];
    var q1, q2, q3 := n / 0x100, n / 0x1_0000, n / 0x100_0000;
    assert q2 == q1 / 0x100 && q3 == q2 / 0x100;
    assert q3 < 0x80;
  }

  /** The header fields of a canonical file decode to what was written, whatever the samples. */
  lemma DecodeCanonical(rate: int, channels: int, bits: int, data: seq<byte>)
    requires 0 <= rate <= INT_MAX && 0 <= channels < 0x8000 && (bits == 8 || bits == 16)
    ensures var r := DecodeWav(CanonicalWav(rate, channels, bits, data));
      r.Ok? && r.value.frequency == rate && r.value.channels == channels && r.value.bitrate == bits && r.value.data == data &&
      r.value.format == (if bits == 8 then (if channels == 1 then MONO8 else STEREO8) else (if channels == 1 then MONO16 else STEREO16))
  {
    var b := CanonicalWav(rate, channels, bits, data);
    var head := Tag("RIFF") + LE32(36 + |data|) + Tag("WAVE") + Tag("fmt ") + LE32(16) + LE16(1);
    assert |head| == 22;
    var h2 := head + LE16(channels);
    var h3 := h2 + LE32(rate);
    var h4 := h3 + LE32(rate * channels * bits / 8) + LE16(channels * bits / 8);
    var h5 := h4 + LE16(bits);
    var h6 := h5 + Tag("data") + LE32(|data|);
    assert |h6| == 44;
    assert b == h6 + data;
    assert b[22..24] == LE16(channels);
    assert b[24..28] == LE32(rate);
    assert b[34..36] == LE16(bits);
    assert b[44..] == data;
    LE16RoundTrip(channels, b, 22);
    LE32RoundTrip(rate, b, 24);
    LE16RoundTrip(bits, b, 34);
  }

  class Audio {
    var id: int
    var frequency: int
    var channels: int
    var bitrate: int
    /** What was handed to OpenAL: `None` until a clip is decoded. */
    var buffer: Option<Wav>

    /** Loads a clip into OpenAL buffer `id`. `file` is the file's bytes, `None` when reading it
      * failed with an `IOException`, which is reported and leaves the clip empty. */
    constructor (id: int, file: Option<seq<byte>>)
      requires file.Some? ==> DecodeWav(file.value).Ok?
      ensures this.id == id
      ensures file.None? ==> frequency == 0 && channels == 0 && bitrate == 0 && buffer == None
      ensures file.Some? ==> (buffer == Some(DecodeWav(file.value).value) &&
        frequency == buffer.value.frequency && channels == buffer.value.channels && bitrate == buffer.value.bitrate)
    {
      this.id := id;
      frequency, channels, bitrate, buffer := 0, 0, 0, None;
      if file.Some? {
        var w := DecodeWav(file.value);
        frequency, channels, bitrate := w.value.frequency, w.value.channels, w.value.bitrate;
        buffer := Some(w.value);
      }
    }
  }

  /** `new Audio(path)`: the constructor throws before the object escapes when the header is bad. */
  method CreateAudio(id: int, file: Option<seq<byte>>) returns (r: Result<Audio>)
    ensures file.Some? && DecodeWav(file.value).Throws? ==> r == Throws(DecodeWav(file.value).ex)
    ensures r.Ok? ==> fresh(r.value) && r.value.id == id
    ensures r.Ok? && file.Some? ==> r.value.buffer == Some(DecodeWav(file.value).value)
    ensures r.Ok? && file.None? ==> r.value.buffer == None
    ensures file.None? || DecodeWav(file.value).Ok? ==> r.Ok?
  {
    if file.Some? && DecodeWav(file.value).Throws? {
      return Throws(DecodeWav(file.value).ex);
    }
    var a := new Audio(id, file);
    r := Ok(a);
  }
}
