/**
 * The continuous-loop attack template and its default implementation
 * (adept/attacks/_continous_loop.py).
 *
 * Every iteration retrieves the physical scene, lets the controller compute
 * the target control input for the planner's path, lets the physical loop
 * turn the scene into an adversarial one aimed at that target, lets the
 * vehicle compute its control input from the adversarial scene and applies
 * it. `DefaultContinuousLoop` stops when the time counter passes the final
 * time or when the planner says the vehicle's state is final.
 *
 * The environment, vehicle, planner, controller and physical loop are
 * collaborators the source calls through; their combined state is an
 * abstract world `W` and each call is a function on it.
 */
module ContinuousLoops {
  import opened Lookup
  import opened TemplateLoop

  datatype Collaborators<!W, !Sc, !St, !Pa, !C> = Collaborators(
    /** `env.scene_retrieve()` */
    sceneRetrieve: W -> (W, Sc),
    /** `vehicle.get_state()` */
    getState: W -> St,
    /** `planner.get_target_path()` */
    getTargetPath: W -> Pa,
    /** `controller.path_following(state, target_path)` */
    pathFollowing: (W, St, Pa) -> (W, C),
    /** `phys_loop.loop(phys_scene, target_input)` */
    physLoop: (W, Sc, C) -> (W, Sc),
    /** `vehicle.get_control_input(phys_scene)` */
    getControlInput: (W, Sc) -> C,
    /** `vehicle.apply_control(input)` */
    applyControl: (W, C) -> W,
    /** `planner.in_final_states(state)` */
    inFinalStates: (W, St) -> bool)

  /** One step of an iteration, with what it read and produced. */
  datatype ContEvent<Sc, St, Pa, C> =
    | SceneRetrieved(scene: Sc)
    | TargetComputed(state: St, path: Pa, target: C)
    | AdvSceneGenerated(scene: Sc, targetOutput: C, advScene: Sc)
    | ControlComputed(advScene: Sc, input: C)
    | ControlApplied(input: C)

  /** The fields of `DefaultContinuousLoop` the loop reads and writes, with the world. */
  datatype LoopState<W, St> = LoopState(world: W, time: int, finalTime: int, state: St)

  /** `loop_init`: time 0, final time the lifetime, the vehicle's current state. */
  function LoopInit<W, Sc, St, Pa, C>(c: Collaborators<W, Sc, St, Pa, C>, world: W, maxTime: int): (s: LoopState<W, St>)
    ensures s.time == 0 && s.finalTime == maxTime && s.world == world && s.state == c.getState(world)
  {
    LoopState(world, 0, maxTime, c.getState(world))
  }

  /** `task_failed`. */
  function TaskFailed<W, St>(s: LoopState<W, St>): (r: bool)
    ensures r <==> TimeLeft(s) == 0
  {
    s.time > s.finalTime
  }

  /** `task_succeeded`: the planner's verdict on the vehicle's current state. */
  function TaskSucceeded<W, Sc, St, Pa, C>(c: Collaborators<W, Sc, St, Pa, C>, s: LoopState<W, St>): (r: bool)
    ensures r == c.inFinalStates(s.world, c.getState(s.world))
  {
    c.inFinalStates(s.world, c.getState(s.world))
  }

  /** The verdict ignores the `state` field `loop_update` stored: the planner sees a freshly retrieved state. */
  lemma SucceededReadsFreshState<W, Sc, St, Pa, C>(c: Collaborators<W, Sc, St, Pa, C>, s: LoopState<W, St>, st: St)
    ensures TaskSucceeded(c, s) == TaskSucceeded(c, s.(state := st))
  {
  }

  /** `loop_update`: advance the clock by one and refresh the state. */
  function LoopUpdate<W, Sc, St, Pa, C>(c: Collaborators<W, Sc, St, Pa, C>, s: LoopState<W, St>): (r: LoopState<W, St>)
    ensures r.time == s.time + 1 && r.finalTime == s.finalTime && r.world == s.world
  {
    s.(time := s.time + 1, state := c.getState(s.world))
  }

  /** Steps 1 to 5 of an iteration of `loop`. */
  function Body<W, Sc, St, Pa, C>(c: Collaborators<W, Sc, St, Pa, C>, s: LoopState<W, St>): (r: (LoopState<W, St>, seq<ContEvent<Sc, St, Pa, C>>))
    ensures r.0.time == s.time && r.0.finalTime == s.finalTime && r.0.state == s.state
    ensures IterationShape(r.1)
  {
    var (w1, scene) := c.sceneRetrieve(s.world);
    var state := c.getState(w1);
    var path := c.getTargetPath(w1);
    var (w2, target) := c.pathFollowing(w1, state, path);
    var (w3, advScene) := c.physLoop(w2, scene, target);
    var input := c.getControlInput(w3, advScene);
    var w4 := c.applyControl(w3, input);
    (s.(world := w4),
     [SceneRetrieved(scene), TargetComputed(state, path, target), AdvSceneGenerated(scene, target, advScene),
      ControlComputed(advScene, input), ControlApplied(input)])
  }

  /** The time left before `task_failed` holds. */
  function TimeLeft<W, St>(s: LoopState<W, St>): nat
  {
    if s.time <= s.finalTime then s.finalTime - s.time + 1 else 0
  }

  function LoopDriver<W, Sc, St, Pa, C>(c: Collaborators<W, Sc, St, Pa, C>): Driver<LoopState<W, St>, ContEvent<Sc, St, Pa, C>>
  {
    Driver(TaskFailed, s => Body(c, s), s => TaskSucceeded(c, s), s => LoopUpdate(c, s), TimeLeft)
  }

  /** The clock bounds the loop: unlike the other two templates it needs no extra assumption to terminate. */
  lemma LoopBounded<W(!new), Sc, St(!new), Pa, C>(c: Collaborators<W, Sc, St, Pa, C>)
    ensures Bounded(LoopDriver(c))
  {
    var d := LoopDriver(c);
    forall s | Continues(d, s) ensures d.budget(d.update(d.body(s).0)) < d.budget(s) {
      assert d.body(s).0.time == s.time && d.body(s).0.finalTime == s.finalTime;
    }
  }

  /** The template driver run from a loop state, which always terminates. */
  function DriveFrom<W(!new), Sc, St(!new), Pa, C>(c: Collaborators<W, Sc, St, Pa, C>, s: LoopState<W, St>): Run<LoopState<W, St>, ContEvent<Sc, St, Pa, C>>
  {
    LoopBounded(c);
    Drive(LoopDriver(c), s)
  }

  datatype ContOutcome<W, Sc, St, Pa, C> = ContOutcome(
    result: bool, final: LoopState<W, St>, trace: seq<Step<ContEvent<Sc, St, Pa, C>>>, iterations: seq<seq<ContEvent<Sc, St, Pa, C>>>)

  /** The specification of `DefaultContinuousLoop.loop` from a world, for a lifetime `maxTime`. */
  function ContinuousRun<W(!new), Sc, St(!new), Pa, C>(c: Collaborators<W, Sc, St, Pa, C>, world: W, maxTime: int): (r: ContOutcome<W, Sc, St, Pa, C>)
    ensures r.result ==> c.inFinalStates(r.final.world, c.getState(r.final.world))
    ensures !r.result ==> TaskFailed(r.final)
    ensures r.iterations == [] <==> maxTime < 0
  {
    LoopBounded(c);
    var run := DriveFrom(c, LoopInit(c, world, maxTime));
    ContOutcome(run.done, run.final, run.trace, run.blocks)
  }

  /** The shape of one iteration: which value flows into which call. */
  ghost predicate IterationShape<Sc, St, Pa, C>(es: seq<ContEvent<Sc, St, Pa, C>>)
  {
    && |es| == 5
    && es[0].SceneRetrieved? && es[1].TargetComputed?
    && es[2].AdvSceneGenerated? && es[2].scene == es[0].scene && es[2].targetOutput == es[1].target
    && es[3].ControlComputed? && es[3].advScene == es[2].advScene
    && es[4].ControlApplied? && es[4].input == es[3].input
  }

  /**
   * Every iteration retrieves the scene, computes the target input, generates
   * the adversarial scene from both, computes the vehicle's input from the
   * adversarial scene and applies that input; the target input only reaches
   * the physical loop.
   */
  lemma IterationsShaped<W(!new), Sc, St(!new), Pa, C>(c: Collaborators<W, Sc, St, Pa, C>, world: W, maxTime: int)
    ensures var r := ContinuousRun(c, world, maxTime);
            forall k :: 0 <= k < |r.iterations| ==> IterationShape(r.iterations[k])
  {
    LoopBounded(c);
    DriveBlocks(LoopDriver(c), LoopInit(c, world, maxTime), IterationShape);
  }

  /** The applied input is the vehicle's input for the adversarial scene, whatever the target was. */
  lemma AppliedInputFromAdvScene<W, Sc, St, Pa, C>(c: Collaborators<W, Sc, St, Pa, C>, s: LoopState<W, St>)
    ensures var (s', es) := Body(c, s);
            var (w1, scene) := c.sceneRetrieve(s.world);
            var (w2, target) := c.pathFollowing(w1, c.getState(w1), c.getTargetPath(w1));
            var (w3, advScene) := c.physLoop(w2, scene, target);
            && es[2] == AdvSceneGenerated(scene, target, advScene)
            && es[4] == ControlApplied(c.getControlInput(w3, advScene))
            && s'.world == c.applyControl(w3, c.getControlInput(w3, advScene))
  {
  }

  lemma {:induction false} AdvanceTime<W, Sc, St, Pa, C>(c: Collaborators<W, Sc, St, Pa, C>, s: LoopState<W, St>, k: nat)
    ensures Advance(LoopDriver(c), s, k).time == s.time + k && Advance(LoopDriver(c), s, k).finalTime == s.finalTime
    decreases k
  {
    if k > 0 {
      var d := LoopDriver(c);
      assert d.update(d.body(s).0).time == s.time + 1;
      AdvanceTime(c, d.update(d.body(s).0), k - 1);
    }
  }

  /**
   * When the vehicle never reaches a final state and the lifetime is M >= 0,
   * the body runs M + 1 times, the clock stops at M + 1 and the loop
   * reports failure.
   */
  lemma NeverFinal<W(!new), Sc, St(!new), Pa, C>(c: Collaborators<W, Sc, St, Pa, C>, world: W, maxTime: nat)
    requires forall w, st :: !c.inFinalStates(w, st)
    ensures var r := ContinuousRun(c, world, maxTime);
            !r.result && |r.iterations| == maxTime + 1 && r.final.time == maxTime + 1
  {
    var d := LoopDriver(c);
    LoopBounded(c);
    var s := LoopInit(c, world, maxTime);
    forall k | 0 <= k < maxTime + 1 ensures Continues(d, Advance(d, s, k)) {
      AdvanceTime(c, s, k);
      assert !d.succeeded(d.body(Advance(d, s, k)).0);
    }
    AdvanceTime(c, s, maxTime + 1);
    DriveExhausts(d, s, maxTime + 1);
  }

  /**
   * The clock counts the iterations that did not succeed: it rises by one on
   * every update and stays where it was when an iteration succeeds.
   */
  lemma {:induction false} TimeCounts<W(!new), Sc, St(!new), Pa, C>(c: Collaborators<W, Sc, St, Pa, C>, s: LoopState<W, St>)
    ensures var r := DriveFrom(c, s);
            r.final.time == s.time + |r.blocks| - (if r.done then 1 else 0) && r.final.finalTime == s.finalTime
    ensures var r := DriveFrom(c, s);
            r.done ==> r.final.time <= r.final.finalTime
    decreases TimeLeft(s)
  {
    LoopBounded(c);
    var d := LoopDriver(c);
    DriveUnfold(d, s);
    if Continues(d, s) {
      TimeCounts(c, d.update(d.body(s).0));
    }
  }

  /**
   * A success in the iteration entered at time k ends the loop with result
   * true and the clock still at k, since `loop_update` is skipped.
   */
  lemma SuccessKeepsTime<W(!new), Sc, St(!new), Pa, C>(c: Collaborators<W, Sc, St, Pa, C>, world: W, maxTime: int)
    ensures var r := ContinuousRun(c, world, maxTime);
            r.result ==> r.final.time == |r.iterations| - 1
    ensures var r := ContinuousRun(c, world, maxTime);
            !r.result ==> r.final.time == |r.iterations|
    ensures var r := ContinuousRun(c, world, maxTime);
            r.final.finalTime == maxTime && (r.result ==> r.final.time <= maxTime) && (!r.result ==> r.final.time > maxTime)
  {
    TimeCounts(c, LoopInit(c, world, maxTime));
  }

  /**
   * The result is the planner's last answer, and false when the body never
   * ran because the lifetime was negative.
   */
  lemma ResultIsLastAnswer<W(!new), Sc, St(!new), Pa, C>(c: Collaborators<W, Sc, St, Pa, C>, world: W, maxTime: int)
    ensures var r := ContinuousRun(c, world, maxTime);
            LastAnswer(r.trace) == (if maxTime < 0 then None else Some(r.result))
    ensures maxTime < 0 ==> !ContinuousRun(c, world, maxTime).result
  {
    LoopBounded(c);
    DriveLastAnswer(LoopDriver(c), LoopInit(c, world, maxTime));
  }

  // ---------------------------------------------------------------- the loop object

  /** `DefaultContinuousLoop`; its collaborators' state is the world. */
  class DefaultContinuousLoop<W(!new), Sc, St(!new), Pa, C> {
    const collaborators: Collaborators<W, Sc, St, Pa, C>
    /** The lifetime of one loop object. */
    const maxTime: int
    var world: W
    var time: int
    var finalTime: int
    var done: bool
    var state: St
    /** The calls of the latest `loop`, in order. */
    ghost var trace: seq<Step<ContEvent<Sc, St, Pa, C>>>

    constructor(collaborators: Collaborators<W, Sc, St, Pa, C>, world: W, maxTime: int := 3600)
      ensures this.collaborators == collaborators && this.world == world && this.maxTime == maxTime
      ensures trace == []
    {
      this.collaborators := collaborators;
      this.world := world;
      this.maxTime := maxTime;
      time, finalTime, done := 0, 0, false;
      state := collaborators.getState(world);
      trace := [];
    }

    function Fields(): LoopState<W, St>
      reads this
    {
      LoopState(world, time, finalTime, state)
    }

    /** Steps 1 to 5 of an iteration: the five collaborator calls of the loop body, in order. */
    method Iteration(s: LoopState<W, St>) returns (next: LoopState<W, St>, ghost events: seq<ContEvent<Sc, St, Pa, C>>)
      ensures (next, events) == Body(collaborators, s)
      ensures next.time == s.time && next.finalTime == s.finalTime && IterationShape(events)
    {
      var c := collaborators;
      var (w1, scene) := c.sceneRetrieve(s.world);
      var current := c.getState(w1);
      var path := c.getTargetPath(w1);
      var (w2, target) := c.pathFollowing(w1, current, path);
      var (w3, advScene) := c.physLoop(w2, scene, target);
      var input := c.getControlInput(w3, advScene);
      var w4 := c.applyControl(w3, input);
      next := s.(world := w4);
      events := [SceneRetrieved(scene), TargetComputed(current, path, target), AdvSceneGenerated(scene, target, advScene),
                 ControlComputed(advScene, input), ControlApplied(input)];
    }

    /** The `while` loop of `loop` from the state `loop_init` leaves, on local copies of the fields. */
    method Iterate(init: LoopState<W, St>) returns (finished: bool, s: LoopState<W, St>, ghost tr: seq<Step<ContEvent<Sc, St, Pa, C>>>)
      ensures DriveFrom(collaborators, init).done == finished
      ensures DriveFrom(collaborators, init).final == s
      ensures DriveFrom(collaborators, init).trace == tr
    {
      var c := collaborators;
      LoopBounded(c);
      ghost var d := LoopDriver(c);
      ghost var run := Drive(d, init);
      s := init;
      tr := [];
      ghost var bl: seq<seq<ContEvent<Sc, St, Pa, C>>> := [];
      finished := false;
      while !TaskFailed(s)
        invariant run == Then(tr, bl, Drive(d, s))
        invariant !finished
        decreases TimeLeft(s)
      {
        var next, es := Iteration(s);
        finished := c.inFinalStates(next.world, c.getState(next.world));
        assert d.body(s) == (next, es) && d.succeeded(next) == finished && d.update(next) == LoopUpdate(c, next);
        if finished {
          ThenSucceeded(d, tr, bl, s, run);
          s := next;
          tr, bl := tr + ([FailedQuery(false)] + Hooks(es) + [SucceededQuery(true)]), bl + [es];
          break;
        }
        ThenContinues(d, tr, bl, s, run);
        s := next.(time := next.time + 1, state := c.getState(next.world));
        tr, bl := tr + ([FailedQuery(false)] + Hooks(es) + [SucceededQuery(false), UpdateCall]), bl + [es];
      }
      if !finished {
        ThenFailed(d, tr, bl, s, run);
        tr := tr + [FailedQuery(true)];
      }
    }

    /** `loop`. */
    method Loop() returns (result: bool)
      modifies this
      ensures var r := ContinuousRun(collaborators, old(world), maxTime);
              && result == r.result && done == r.result && Fields() == r.final && trace == r.trace
    {
      var s;
      ghost var tr;
      result, s, tr := Iterate(LoopInit(collaborators, world, maxTime));
      done := result;
      world, time, finalTime, state := s.world, s.time, s.finalTime, s.state;
      trace := tr;
    }
  }
}
