/**
 * The physical-loop attack template (adept/attacks/_physical_loop.py).
 *
 * `PhysicalLoop.loop` captures the physical scene once, extracts the
 * attack target and generates a perturbation, then runs `_inner_loop`
 * (apply, digital replace, physical replace, recapture, optimise) until
 * the inner-loop failure or success hook says to stop, and finishes with
 * one more `_inner_loop` pass that does not optimise and whose physical
 * scene is returned.
 *
 * The hooks are abstract: each is a function of the template's hidden
 * state `P` (the attacker's internal state, inner-loop counters) that
 * returns the next hidden state with its result; scenes, masks, targets
 * and perturbations are values of an abstract type `V`.
 */
module PhysicalLoops {
  import opened Lookup
  import opened TemplateLoop

  /** One hook call, with the arguments it received and the value it returned. */
  datatype PhysEvent<V> =
    | SensorCapture(physScene: V, digScene: V)
    | MaskTargetGenerate(scene: V, mask: V)
    | RegionExtract(scene: V, mask: V, target: V)
    | MaskAdvGenerate(target: V, mask: V)
    | PerbGenerate(target: V, mask: V, perb: V)
    | PerbApply(target: V, mask: V, perb: V, advTarget: V)
    | DigReplace(scene: V, advTarget: V, mask: V, advScene: V)
    | PhysReplace(digScene: V, physScene: V)
    | PerbOptimize(scene: V, targetOutput: V, done: bool)

  datatype PhysHooks<!P, !V> = PhysHooks(
    sensorCapture: (P, V) -> (P, V),
    maskTargetGenerate: (P, V) -> (P, V),
    regionExtract: (P, V, V) -> (P, V),
    maskAdvGenerate: (P, V) -> (P, V),
    perbGenerate: (P, V, V) -> (P, V),
    perbApply: (P, V, V, V) -> (P, V),
    digReplace: (P, V, V, V) -> (P, V),
    physReplace: (P, V) -> (P, V),
    perbOptimize: (P, V, V) -> (P, bool),
    innerLoopFailed: P -> bool,
    innerLoopSucceeded: P -> bool,
    innerLoopUpdate: P -> P,
    /** Not in the source: a bound on the remaining inner iterations, so the loop terminates. */
    budget: P -> nat)

  /** The values `loop` computes during setup and hands to every `_inner_loop` call. */
  datatype Context<V> = Context(digScene: V, targetMask: V, targetOutput: V, digTarget: V, advMask: V, advPerb: V)

  /** What `_inner_loop` returns: the optimiser's flag, or the physical scene on the final pass. */
  datatype PassResult<V> = Done(done: bool) | Scene(scene: V)

  datatype Pass<P, V> = Pass(state: P, events: seq<PhysEvent<V>>, result: PassResult<V>)

  /** The shape of an optimising `_inner_loop` pass: every argument comes from the context or the previous step. */
  ghost predicate IterationShape<V>(ctx: Context<V>, es: seq<PhysEvent<V>>)
  {
    && |es| == 5
    && es[0].PerbApply? && es[0].target == ctx.digTarget && es[0].mask == ctx.advMask && es[0].perb == ctx.advPerb
    && es[1].DigReplace? && es[1].scene == ctx.digScene && es[1].advTarget == es[0].advTarget && es[1].mask == ctx.targetMask
    && es[2].PhysReplace? && es[2].digScene == es[1].advScene
    && es[3].SensorCapture? && es[3].physScene == es[2].physScene
    && es[4].PerbOptimize? && es[4].scene == es[3].digScene && es[4].targetOutput == ctx.targetOutput
  }

  /** The shape of the final, non-optimising pass. */
  ghost predicate FinalShape<V>(ctx: Context<V>, es: seq<PhysEvent<V>>)
  {
    && |es| == 3
    && es[0].PerbApply? && es[0].target == ctx.digTarget && es[0].mask == ctx.advMask && es[0].perb == ctx.advPerb
    && es[1].DigReplace? && es[1].scene == ctx.digScene && es[1].advTarget == es[0].advTarget && es[1].mask == ctx.targetMask
    && es[2].PhysReplace? && es[2].digScene == es[1].advScene
  }

  /** `_inner_loop`: apply, replace digitally, replace physically, and optionally recapture and optimise. */
  function InnerPass<P, V>(h: PhysHooks<P, V>, ctx: Context<V>, p: P, requiredOptimize: bool): Pass<P, V>
  {
    var (p1, advTarget) := h.perbApply(p, ctx.digTarget, ctx.advMask, ctx.advPerb);
    var (p2, advDigScene) := h.digReplace(p1, ctx.digScene, advTarget, ctx.targetMask);
    var (p3, advPhysScene) := h.physReplace(p2, advDigScene);
    var replaced := [PerbApply(ctx.digTarget, ctx.advMask, ctx.advPerb, advTarget),
                     DigReplace(ctx.digScene, advTarget, ctx.targetMask, advDigScene),
                     PhysReplace(advDigScene, advPhysScene)];
    if requiredOptimize then
      var (p4, recaptured) := h.sensorCapture(p3, advPhysScene);
      var (p5, done) := h.perbOptimize(p4, recaptured, ctx.targetOutput);
      Pass(p5, replaced + [SensorCapture(advPhysScene, recaptured), PerbOptimize(recaptured, ctx.targetOutput, done)], Done(done))
    else
      Pass(p3, replaced, Scene(advPhysScene))
  }

  /**
   * An optimising pass makes the five calls of an iteration and returns the
   * optimiser's flag; the final pass makes the first three and returns the
   * physical scene its `phys_replace` produced.
   */
  lemma InnerPassShape<P, V>(h: PhysHooks<P, V>, ctx: Context<V>, p: P, requiredOptimize: bool)
    ensures var r := InnerPass(h, ctx, p, requiredOptimize);
            if requiredOptimize then IterationShape(ctx, r.events) && r.result == Done(r.events[4].done)
            else FinalShape(ctx, r.events) && r.result == Scene(r.events[2].physScene)
  {
  }

  function Iteration<P, V>(h: PhysHooks<P, V>, ctx: Context<V>, p: P): (P, seq<PhysEvent<V>>)
  {
    var q := InnerPass(h, ctx, p, true);
    (q.state, q.events)
  }

  /** The inner `while` loop of `loop` as an instance of the template driver. */
  function Inner<P, V>(h: PhysHooks<P, V>, ctx: Context<V>): Driver<P, PhysEvent<V>>
  {
    Driver(h.innerLoopFailed,
           p => Iteration(h, ctx, p),
           h.innerLoopSucceeded, h.innerLoopUpdate, h.budget)
  }

  /** The inner loop terminates whatever the setup computed. */
  ghost predicate Terminates<P(!new), V(!new)>(h: PhysHooks<P, V>)
  {
    forall ctx :: Bounded(Inner(h, ctx))
  }

  datatype Setup<P, V> = Setup(state: P, ctx: Context<V>, events: seq<PhysEvent<V>>)

  /** Steps 1 to 3 of `loop`: capture, extract the target, generate the perturbation. */
  function SetupPass<P, V>(h: PhysHooks<P, V>, physScene: V, targetOutput: V, p: P): (r: Setup<P, V>)
    ensures |r.events| == 5 && r.ctx.targetOutput == targetOutput
    ensures r.events[0] == SensorCapture(physScene, r.ctx.digScene)
    ensures r.events[1] == MaskTargetGenerate(r.ctx.digScene, r.ctx.targetMask)
    ensures r.events[2] == RegionExtract(r.ctx.digScene, r.ctx.targetMask, r.ctx.digTarget)
    ensures r.events[3] == MaskAdvGenerate(r.ctx.digTarget, r.ctx.advMask)
    ensures r.events[4] == PerbGenerate(r.ctx.digTarget, r.ctx.advMask, r.ctx.advPerb)
  {
    var (p1, digScene) := h.sensorCapture(p, physScene);
    var (p2, targetMask) := h.maskTargetGenerate(p1, digScene);
    var (p3, digTarget) := h.regionExtract(p2, digScene, targetMask);
    var (p4, advMask) := h.maskAdvGenerate(p3, digTarget);
    var (p5, advPerb) := h.perbGenerate(p4, digTarget, advMask);
    Setup(p5, Context(digScene, targetMask, targetOutput, digTarget, advMask, advPerb),
          [SensorCapture(physScene, digScene), MaskTargetGenerate(digScene, targetMask),
           RegionExtract(digScene, targetMask, digTarget), MaskAdvGenerate(digTarget, advMask),
           PerbGenerate(digTarget, advMask, advPerb)])
  }

  datatype PhysOutcome<P, V> = PhysOutcome(
    advPhysScene: V, final: P, ctx: Context<V>,
    trace: seq<Step<PhysEvent<V>>>, setup: seq<PhysEvent<V>>, iterations: seq<seq<PhysEvent<V>>>, last: seq<PhysEvent<V>>)

  /** The specification of `loop(phys_scene, target_output)` from hidden state `p`. */
  function PhysicalRun<P(!new), V(!new)>(h: PhysHooks<P, V>, physScene: V, targetOutput: V, p: P): (r: PhysOutcome<P, V>)
    requires Terminates(h)
    ensures FinalShape(r.ctx, r.last) && r.advPhysScene == r.last[2].physScene
    ensures |r.setup| == 5 && r.setup[0] == SensorCapture(physScene, r.ctx.digScene)
  {
    var setup := SetupPass(h, physScene, targetOutput, p);
    assert Bounded(Inner(h, setup.ctx));
    var run := Drive(Inner(h, setup.ctx), setup.state);
    var last := InnerPass(h, setup.ctx, run.final, false);
    InnerPassShape(h, setup.ctx, run.final, false);
    PhysOutcome(last.result.scene, last.state, setup.ctx,
                Hooks(setup.events) + run.trace + Hooks(last.events),
                setup.events, run.blocks, last.events)
  }

  /** Every optimising pass of a run has the iteration shape over the run's single context. */
  lemma IterationsShaped<P(!new), V(!new)>(h: PhysHooks<P, V>, physScene: V, targetOutput: V, p: P)
    requires Terminates(h)
    ensures var r := PhysicalRun(h, physScene, targetOutput, p);
            forall k :: 0 <= k < |r.iterations| ==> IterationShape(r.ctx, r.iterations[k])
  {
    var setup := SetupPass(h, physScene, targetOutput, p);
    var d := Inner(h, setup.ctx);
    assert Bounded(d);
    forall s' ensures IterationShape(setup.ctx, d.body(s').1) {
      InnerPassShape(h, setup.ctx, s', true);
    }
    DriveBlocks(d, setup.state, es => IterationShape(setup.ctx, es));
  }

  /**
   * The hook calls of a run, in order: the five setup calls, the five calls
   * of each inner iteration, and the three calls of the final pass.
   */
  lemma PhysicalEvents<P(!new), V(!new)>(h: PhysHooks<P, V>, physScene: V, targetOutput: V, p: P)
    requires Terminates(h)
    ensures var r := PhysicalRun(h, physScene, targetOutput, p);
            Events(r.trace) == r.setup + Flatten(r.iterations) + r.last
  {
    var setup := SetupPass(h, physScene, targetOutput, p);
    var d := Inner(h, setup.ctx);
    assert Bounded(d);
    var run := Drive(d, setup.state);
    var last := InnerPass(h, setup.ctx, run.final, false);
    DriveEvents(d, setup.state);
    EventsAppend(Hooks(setup.events) + run.trace, Hooks(last.events));
    EventsAppend(Hooks(setup.events), run.trace);
    EventsOfHooks(setup.events);
    EventsOfHooks(last.events);
  }

  /** The calls that belong to the setup of `loop` (every one but `sensor_capture`). */
  predicate IsSetupCall<V>(e: PhysEvent<V>)
  {
    e.MaskTargetGenerate? || e.RegionExtract? || e.MaskAdvGenerate? || e.PerbGenerate?
  }

  lemma {:induction false} NoSetupInIterations<V>(ctx: Context<V>, blocks: seq<seq<PhysEvent<V>>>)
    requires forall k :: 0 <= k < |blocks| ==> IterationShape(ctx, blocks[k])
    ensures forall e :: e in Flatten(blocks) ==> !IsSetupCall(e)
  {
    if blocks != [] {
      assert IterationShape(ctx, blocks[0]);
      NoSetupInIterations(ctx, blocks[1..]);
    }
  }

  /** Past a five-call prefix, a sequence of calls none of which is a setup call has none. */
  lemma NoSetupAfterPrefix<V>(setup: seq<PhysEvent<V>>, middle: seq<PhysEvent<V>>, last: seq<PhysEvent<V>>)
    requires |setup| == 5
    requires forall e :: e in middle ==> !IsSetupCall(e)
    requires forall i :: 0 <= i < |last| ==> !IsSetupCall(last[i])
    ensures (setup + middle + last)[..5] == setup
    ensures forall i :: 5 <= i < |setup + middle + last| ==> !IsSetupCall((setup + middle + last)[i])
  {
    var es := setup + middle + last;
    forall i | 5 <= i < |es| ensures !IsSetupCall(es[i]) {
      if i - 5 < |middle| {
        assert es[i] == middle[i - 5];
      } else {
        assert es[i] == last[i - 5 - |middle|];
      }
    }
    assert es[..5] == setup;
  }

  /**
   * The setup calls run once each, in the order target mask, region
   * extraction, perturbation mask, perturbation, right after the first
   * capture, and never again.
   */
  lemma SetupOnce<P(!new), V(!new)>(h: PhysHooks<P, V>, physScene: V, targetOutput: V, p: P)
    requires Terminates(h)
    ensures var r := PhysicalRun(h, physScene, targetOutput, p);
            var es := Events(r.trace);
            && |es| >= 8 && es[..5] == r.setup && es[0].SensorCapture?
            && es[1].MaskTargetGenerate? && es[2].RegionExtract? && es[3].MaskAdvGenerate? && es[4].PerbGenerate?
            && forall i :: 5 <= i < |es| ==> !IsSetupCall(es[i])
  {
    var r := PhysicalRun(h, physScene, targetOutput, p);
    PhysicalEvents(h, physScene, targetOutput, p);
    IterationsShaped(h, physScene, targetOutput, p);
    NoSetupInIterations(r.ctx, r.iterations);
    var setup := SetupPass(h, physScene, targetOutput, p);
    assert r.setup == setup.events;
    assert forall i :: 0 <= i < |r.last| ==> !IsSetupCall(r.last[i]);
    NoSetupAfterPrefix(r.setup, Flatten(r.iterations), r.last);
  }

  /**
   * The run ends with the final pass: apply, digital replace, physical
   * replace over the setup's values, and `loop` returns that physical scene.
   */
  lemma FinalPass<P(!new), V(!new)>(h: PhysHooks<P, V>, physScene: V, targetOutput: V, p: P)
    requires Terminates(h)
    ensures var r := PhysicalRun(h, physScene, targetOutput, p);
            var es := Events(r.trace); var n := |es|;
            && n >= 8 && es[n - 3..] == r.last
            && es[n - 3] == PerbApply(r.ctx.digTarget, r.ctx.advMask, r.ctx.advPerb, es[n - 2].advTarget)
            && es[n - 2] == DigReplace(r.ctx.digScene, es[n - 3].advTarget, r.ctx.targetMask, es[n - 1].digScene)
            && es[n - 1] == PhysReplace(es[n - 2].advScene, r.advPhysScene)
  {
    var r := PhysicalRun(h, physScene, targetOutput, p);
    PhysicalEvents(h, physScene, targetOutput, p);
    var es := Events(r.trace);
    assert es == (r.setup + Flatten(r.iterations)) + r.last;
  }

  /** The number of `sensor_capture` calls among some hook calls. */
  function Captures<V>(es: seq<PhysEvent<V>>): (n: nat)
    ensures n <= |es|
  {
    if es == [] then 0 else Capture(es[0]) + Captures(es[1..])
  }

  function Capture<V>(e: PhysEvent<V>): nat
  {
    if e.SensorCapture? then 1 else 0
  }

  lemma {:induction false} CapturesAppend<V>(a: seq<PhysEvent<V>>, b: seq<PhysEvent<V>>)
    ensures Captures(a + b) == Captures(a) + Captures(b)
  {
    if a == [] {
      assert a + b == b;
    } else {
      assert (a + b)[1..] == a[1..] + b;
      CapturesAppend(a[1..], b);
    }
  }

  lemma CapturesFrom<V>(es: seq<PhysEvent<V>>, i: nat)
    requires i < |es|
    ensures Captures(es[i..]) == Capture(es[i]) + Captures(es[i + 1..])
  {
    assert es[i..][1..] == es[i + 1..];
  }

  /** The captures of a sequence of three or five calls, position by position. */
  lemma CapturesOfShort<V>(es: seq<PhysEvent<V>>)
    requires |es| == 3 || |es| == 5
    ensures |es| == 3 ==> Captures(es) == Capture(es[0]) + Capture(es[1]) + Capture(es[2])
    ensures |es| == 5 ==> Captures(es) == Capture(es[0]) + Capture(es[1]) + Capture(es[2]) + Capture(es[3]) + Capture(es[4])
  {
    assert es[0..] == es;
    assert es[|es|..] == [];
    CapturesFrom(es, 0);
    CapturesFrom(es, 1);
    CapturesFrom(es, 2);
    if |es| == 5 {
      CapturesFrom(es, 3);
      CapturesFrom(es, 4);
    }
  }

  lemma {:induction false} CapturesOfIterations<V>(ctx: Context<V>, blocks: seq<seq<PhysEvent<V>>>)
    requires forall k :: 0 <= k < |blocks| ==> IterationShape(ctx, blocks[k])
    ensures Captures(Flatten(blocks)) == |blocks|
  {
    if blocks != [] {
      var b := blocks[0];
      assert IterationShape(ctx, b);
      CapturesOfShort(b);
      CapturesAppend(b, Flatten(blocks[1..]));
      CapturesOfIterations(ctx, blocks[1..]);
    }
  }

  /** `sensor_capture` runs once during setup and once per inner iteration, never in the final pass. */
  lemma CaptureCount<P(!new), V(!new)>(h: PhysHooks<P, V>, physScene: V, targetOutput: V, p: P)
    requires Terminates(h)
    ensures var r := PhysicalRun(h, physScene, targetOutput, p);
            Captures(Events(r.trace)) == 1 + |r.iterations|
  {
    var r := PhysicalRun(h, physScene, targetOutput, p);
    PhysicalEvents(h, physScene, targetOutput, p);
    IterationsShaped(h, physScene, targetOutput, p);
    CapturesAppend(r.setup + Flatten(r.iterations), r.last);
    CapturesAppend(r.setup, Flatten(r.iterations));
    CapturesOfIterations(r.ctx, r.iterations);
    CapturesOfShort(r.setup);
    CapturesOfShort(r.last);
  }

  /** When the inner loop fails on entry the run is the setup followed directly by the final pass. */
  lemma FailedOnEntry<P(!new), V(!new)>(h: PhysHooks<P, V>, physScene: V, targetOutput: V, p: P)
    requires Terminates(h)
    requires h.innerLoopFailed(SetupPass(h, physScene, targetOutput, p).state)
    ensures var r := PhysicalRun(h, physScene, targetOutput, p);
            r.iterations == [] && Events(r.trace) == r.setup + r.last && Captures(Events(r.trace)) == 1
  {
    var setup := SetupPass(h, physScene, targetOutput, p);
    var d := Inner(h, setup.ctx);
    assert Bounded(d);
    DriveUnfold(d, setup.state);
    PhysicalEvents(h, physScene, targetOutput, p);
    CaptureCount(h, physScene, targetOutput, p);
    assert Flatten<PhysEvent<V>>([]) == [];
    assert setup.events + [] == setup.events;
  }

  /**
   * The trace of the inner loop obeys the template's call discipline: the
   * update hook runs exactly after a false success check.
   */
  lemma InnerLoopDisciplined<P(!new), V(!new)>(h: PhysHooks<P, V>, physScene: V, targetOutput: V, p: P)
    requires Terminates(h)
    ensures var setup := SetupPass(h, physScene, targetOutput, p);
            Disciplined(Drive(Inner(h, setup.ctx), setup.state).trace)
  {
    var setup := SetupPass(h, physScene, targetOutput, p);
    assert Bounded(Inner(h, setup.ctx));
    DriveDisciplined(Inner(h, setup.ctx), setup.state);
  }

  /**
   * The flag `perb_optimize` returns is discarded: two hook sets that differ
   * only in that flag produce the same scene, the same final state and the
   * same number of inner iterations.
   */
  lemma DoneDiscarded<P(!new), V(!new)>(h1: PhysHooks<P, V>, h2: PhysHooks<P, V>, physScene: V, targetOutput: V, p: P)
    requires Terminates(h1) && Terminates(h2)
    requires h1.(perbOptimize := h2.perbOptimize) == h2
    requires forall q, a, b :: h1.perbOptimize(q, a, b).0 == h2.perbOptimize(q, a, b).0
    ensures var r1 := PhysicalRun(h1, physScene, targetOutput, p);
            var r2 := PhysicalRun(h2, physScene, targetOutput, p);
            r1.advPhysScene == r2.advPhysScene && r1.final == r2.final && |r1.iterations| == |r2.iterations|
  {
    var setup := SetupPass(h1, physScene, targetOutput, p);
    assert SetupPass(h2, physScene, targetOutput, p) == setup;
    var d1, d2 := Inner(h1, setup.ctx), Inner(h2, setup.ctx);
    assert Bounded(d1) && Bounded(d2);
    forall s' ensures d1.body(s').0 == d2.body(s').0 {
      var ctx := setup.ctx;
      var (p1, advTarget) := h1.perbApply(s', ctx.digTarget, ctx.advMask, ctx.advPerb);
      var (p2, advDigScene) := h1.digReplace(p1, ctx.digScene, advTarget, ctx.targetMask);
      var (p3, advPhysScene) := h1.physReplace(p2, advDigScene);
      var (p4, recaptured) := h1.sensorCapture(p3, advPhysScene);
      assert InnerPass(h1, ctx, s', true).state == h1.perbOptimize(p4, recaptured, ctx.targetOutput).0;
      assert InnerPass(h2, ctx, s', true).state == h2.perbOptimize(p4, recaptured, ctx.targetOutput).0;
    }
    DriveIgnoresEvents(d1, d2, setup.state);
  }

  // ---------------------------------------------------------------- DefaultPhysicalLoop

  /**
   * `DefaultPhysicalLoop.mask_generate`: "whole" keeps the whole scene, an
   * all-ones mask shaped like it; the "box" branch only reads the box and
   * returns no mask, whether or not a box was given; any other template
   * raises `KeyError`.
   */
  function MaskGenerate<V, M>(onesLike: V -> M, scene: V, template: string, box: Option<V>): (r: Result<Option<M>>)
    ensures template == "whole" ==> r == Ok(Some(onesLike(scene)))
    ensures template == "box" ==> r == Ok(None)
    ensures r.Err? <==> template != "whole" && template != "box"
    ensures r.Err? ==> r.error == KeyError
  {
    if template == "whole" then Ok(Some(onesLike(scene)))
    else if template == "box" then Ok(None)
    else Err(KeyError)
  }

  /** `DefaultPhysicalLoop.sensor_capture`: the vehicle's front camera output. */
  function DefaultSensorCapture<V>(getSensorOutput: (V, string, string) -> V, physScene: V): (r: V)
    ensures r == getSensorOutput(physScene, "camera", "front")
  {
    getSensorOutput(physScene, "camera", "front")
  }

  /** The default target mask is the box template; the default perturbation mask covers the whole target. */
  lemma DefaultMasks<V, M>(onesLike: V -> M, scene: V, box: V)
    ensures MaskGenerate(onesLike, scene, "box", Some(box)) == MaskGenerate(onesLike, scene, "box", None) == Ok(None)
    ensures MaskGenerate(onesLike, scene, "whole", None) == Ok(Some(onesLike(scene)))
  {
  }

  // ---------------------------------------------------------------- the loop object

  class PhysicalLoop<P(!new), V(!new)> {
    const hooks: PhysHooks<P, V>
    /** The hidden state the hooks read and write. */
    var state: P
    /** The hook calls of the latest `loop`, in order. */
    ghost var trace: seq<Step<PhysEvent<V>>>

    constructor(hooks: PhysHooks<P, V>, state: P)
      ensures this.hooks == hooks && this.state == state && trace == []
    {
      this.hooks := hooks;
      this.state := state;
      trace := [];
    }

    /** `_inner_loop`. */
    method InnerLoop(ctx: Context<V>, requiredOptimize: bool) returns (r: PassResult<V>, ghost events: seq<PhysEvent<V>>)
      modifies this`state
      ensures var q := InnerPass(hooks, ctx, old(state), requiredOptimize);
              state == q.state && r == q.result && events == q.events
    {
      var (p1, advTarget) := hooks.perbApply(state, ctx.digTarget, ctx.advMask, ctx.advPerb);
      var (p2, advDigScene) := hooks.digReplace(p1, ctx.digScene, advTarget, ctx.targetMask);
      var (p3, advPhysScene) := hooks.physReplace(p2, advDigScene);
      events := [PerbApply(ctx.digTarget, ctx.advMask, ctx.advPerb, advTarget),
                 DigReplace(ctx.digScene, advTarget, ctx.targetMask, advDigScene),
                 PhysReplace(advDigScene, advPhysScene)];
      if requiredOptimize {
        var (p4, recaptured) := hooks.sensorCapture(p3, advPhysScene);
        var (p5, done) := hooks.perbOptimize(p4, recaptured, ctx.targetOutput);
        events := events + [SensorCapture(advPhysScene, recaptured), PerbOptimize(recaptured, ctx.targetOutput, done)];
        state, r := p5, Done(done);
      } else {
        state, r := p3, Scene(advPhysScene);
      }
    }

    /** The inner `while` loop of `loop`, over the context the setup computed. */
    method InnerWhile(ctx: Context<V>) returns (ghost tr: seq<Step<PhysEvent<V>>>, ghost bl: seq<seq<PhysEvent<V>>>)
      requires Bounded(Inner(hooks, ctx))
      modifies this`state
      ensures var run := Drive(Inner(hooks, ctx), old(state));
              state == run.final && tr == run.trace && bl == run.blocks
    {
      ghost var d := Inner(hooks, ctx);
      ghost var run := Drive(d, state);
      tr, bl := [], [];
      while true
        invariant run == Then(tr, bl, Drive(d, state))
        decreases hooks.budget(state)
      {
        if hooks.innerLoopFailed(state) {
          ThenFailed(d, tr, bl, state, run);
          tr := tr + [FailedQuery(true)];
          break;
        }
        ghost var before := state;
        var done, es := InnerLoop(ctx, true);
        assert d.body(before) == (state, es);
        if hooks.innerLoopSucceeded(state) {
          ThenSucceeded(d, tr, bl, before, run);
          tr, bl := tr + ([FailedQuery(false)] + Hooks(es) + [SucceededQuery(true)]), bl + [es];
          break;
        }
        ThenContinues(d, tr, bl, before, run);
        state := hooks.innerLoopUpdate(state);
        tr, bl := tr + ([FailedQuery(false)] + Hooks(es) + [SucceededQuery(false), UpdateCall]), bl + [es];
      }
    }

    /** `loop(phys_scene, target_output)`. */
    method Loop(physScene: V, targetOutput: V) returns (advPhysScene: V)
      requires Terminates(hooks)
      modifies this
      ensures var r := PhysicalRun(hooks, physScene, targetOutput, old(state));
              advPhysScene == r.advPhysScene && state == r.final && trace == r.trace
    {
      ghost var setup := SetupPass(hooks, physScene, targetOutput, state);
      var (p1, digScene) := hooks.sensorCapture(state, physScene);
      var (p2, targetMask) := hooks.maskTargetGenerate(p1, digScene);
      var (p3, digTarget) := hooks.regionExtract(p2, digScene, targetMask);
      var (p4, advMask) := hooks.maskAdvGenerate(p3, digTarget);
      var (p5, advPerb) := hooks.perbGenerate(p4, digTarget, advMask);
      var ctx := Context(digScene, targetMask, targetOutput, digTarget, advMask, advPerb);
      assert ctx == setup.ctx && p5 == setup.state;
      assert Bounded(Inner(hooks, ctx));
      state := p5;
      ghost var tr, bl := InnerWhile(ctx);
      var last, lastEvents := InnerLoop(ctx, false);
      advPhysScene := last.scene;
      trace := Hooks(setup.events) + tr + Hooks(lastEvents);
    }
  }
}
