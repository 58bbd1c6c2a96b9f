/**
 * `Attacker._attack` (adept/attacks/_attack.py): initialise the
 * perturbation, then optimise until the attack fails or succeeds, and
 * return whether it succeeded together with the retrieved perturbation.
 *
 * Every hook of the class is abstract (FGSM and PGD only stub them), so the
 * hooks are a record of functions over the attacker's internal state `S`;
 * `P` is the type of what `attack_retrieve` returns.
 */
module Attacks {
  import opened Lookup
  import opened TemplateLoop

  /** The hook calls of an attack other than the loop's own queries and updates. */
  datatype AttackEvent = Init | Optimize | Retrieve

  datatype AttackHooks<!S, P> = AttackHooks(
    init: S -> S,
    failed: S -> bool,
    optimizer: S -> S,
    succeeded: S -> bool,
    update: S -> S,
    retrieve: S -> P,
    budget: S -> nat)

  /** The loop of `_attack` as an instance of the shared skeleton: the body is one optimiser step. */
  function Loop<S, P>(h: AttackHooks<S, P>): Driver<S, AttackEvent>
  {
    Driver(h.failed, s => (h.optimizer(s), [Optimize]), h.succeeded, h.update, h.budget)
  }

  datatype Outcome<S, P> = Outcome(done: bool, perb: P, final: S, trace: seq<Step<AttackEvent>>, iterations: nat)

  /** The specification of `_attack` from the attacker's state `s`. */
  function AttackRun<S(!new), P>(h: AttackHooks<S, P>, s: S): (r: Outcome<S, P>)
    requires Bounded(Loop(h))
    ensures |r.trace| >= 3 && r.trace[0] == Hook(Init) && r.trace[|r.trace| - 1] == Hook(Retrieve)
    ensures r.perb == h.retrieve(r.final)
    ensures r.done ==> h.succeeded(r.final) && r.iterations > 0
    ensures !r.done ==> h.failed(r.final)
    ensures r.iterations == 0 <==> h.failed(h.init(s))
  {
    var run := Drive(Loop(h), h.init(s));
    Outcome(run.done, h.retrieve(run.final), run.final, [Hook(Init)] + run.trace + [Hook(Retrieve)], |run.blocks|)
  }

  function Optimizes(n: nat): (r: seq<AttackEvent>)
    ensures |r| == n && forall i :: 0 <= i < n ==> r[i] == Optimize
  {
    seq(n, _ => Optimize)
  }

  lemma {:induction false} FlattenOptimizes(blocks: seq<seq<AttackEvent>>)
    requires forall k :: 0 <= k < |blocks| ==> blocks[k] == [Optimize]
    ensures Flatten(blocks) == Optimizes(|blocks|)
  {
    if blocks != [] {
      FlattenOptimizes(blocks[1..]);
      assert Optimizes(|blocks|) == [Optimize] + Optimizes(|blocks| - 1);
    }
  }

  /**
   * The hooks an attack calls, in order: `attack_init` exactly once and
   * first, then one `attack_optimizer` per iteration, then
   * `attack_retrieve` exactly once and last.
   */
  lemma AttackEvents<S(!new), P>(h: AttackHooks<S, P>, s: S)
    requires Bounded(Loop(h))
    ensures Events(AttackRun(h, s).trace) == [Init] + Optimizes(AttackRun(h, s).iterations) + [Retrieve]
  {
    var run := Drive(Loop(h), h.init(s));
    DriveEvents(Loop(h), h.init(s));
    DriveBlocks(Loop(h), h.init(s), b => b == [Optimize]);
    FlattenOptimizes(run.blocks);
    EventsAppend([Hook(Init)], run.trace);
    EventsAppend([Hook(Init)] + run.trace, [Hook(Retrieve)]);
  }

  /** `attack_init` runs exactly once, and before any `attack_optimizer` call. */
  lemma InitOnceFirst<S(!new), P>(h: AttackHooks<S, P>, s: S)
    requires Bounded(Loop(h))
    ensures var t := AttackRun(h, s).trace;
            t[0] == Hook(Init) && forall i :: 0 < i < |t| ==> t[i] != Hook(Init)
  {
    var t := AttackRun(h, s).trace;
    AttackEvents(h, s);
    forall i | 0 < i < |t|
      ensures t[i] != Hook(Init)
    {
      if t[i] == Hook(Init) {
        HookPosition(t, i);
        assert false;
      }
    }
  }

  /** A hook call at position i is the (number of hook calls before it)-th event. */
  lemma {:induction false} HookPosition<E>(t: seq<Step<E>>, i: nat)
    requires i < |t| && t[i].Hook?
    ensures |Events(t[..i])| < |Events(t)| && Events(t)[|Events(t[..i])|] == t[i].event
  {
    assert t == t[..i] + t[i..];
    EventsAppend(t[..i], t[i..]);
    assert t[i..][1..] == t[i + 1..];
  }

  /** If `attack_failed` holds right after initialisation, the optimiser never runs and the result is `(False, attack_retrieve())`. */
  lemma FailedOnEntry<S(!new), P>(h: AttackHooks<S, P>, s: S)
    requires Bounded(Loop(h))
    requires h.failed(h.init(s))
    ensures AttackRun(h, s) == Outcome(false, h.retrieve(h.init(s)), h.init(s), [Hook(Init), FailedQuery(true), Hook(Retrieve)], 0)
  {
  }

  /**
   * The shape of an attack loop's calls: every success query comes right
   * after an optimiser step that the failure query let through, and every
   * hook call is an optimiser step followed by a success query.
   */
  ghost predicate OptimizeShaped(t: seq<Step<AttackEvent>>)
  {
    forall i :: 0 <= i < |t| ==> ShapedAt(t, i)
  }

  predicate ShapedAt(t: seq<Step<AttackEvent>>, i: nat)
    requires i < |t|
  {
    && (t[i].SucceededQuery? ==> 2 <= i && t[i - 1] == Hook(Optimize) && t[i - 2] == FailedQuery(false))
    && (t[i].Hook? ==> t[i] == Hook(Optimize) && i + 1 < |t| && t[i + 1].SucceededQuery?)
  }

  lemma OptimizeShapedIteration(rest: seq<Step<AttackEvent>>)
    requires OptimizeShaped(rest)
    ensures OptimizeShaped([FailedQuery(false), Hook(Optimize), SucceededQuery(false), UpdateCall] + rest)
  {
    var t := [FailedQuery(false), Hook(Optimize), SucceededQuery(false), UpdateCall] + rest;
    forall i | 0 <= i < |t|
      ensures ShapedAt(t, i)
    {
      if i >= 4 {
        var j := i - 4;
        assert ShapedAt(rest, j);
        assert t[i] == rest[j];
        if rest[j].SucceededQuery? {
          assert t[i - 1] == rest[j - 1] && t[i - 2] == rest[j - 2];
        }
        if rest[j].Hook? {
          assert t[i + 1] == rest[j + 1];
        }
      }
    }
  }

  lemma OptimizeShapedLast()
    ensures OptimizeShaped([FailedQuery(false), Hook(Optimize), SucceededQuery(true)])
    ensures OptimizeShaped([FailedQuery(true)])
  {
    var t := [FailedQuery(false), Hook(Optimize), SucceededQuery(true)];
    assert ShapedAt(t, 0) && ShapedAt(t, 1) && ShapedAt(t, 2);
    assert ShapedAt([FailedQuery(true)], 0);
  }

  lemma {:induction false} LoopShape<S(!new), P>(h: AttackHooks<S, P>, s: S)
    requires Bounded(Loop(h))
    ensures OptimizeShaped(Drive(Loop(h), s).trace)
    decreases h.budget(s)
  {
    var d := Loop(h);
    DriveUnfold(d, s);
    OptimizeShapedLast();
    assert d.body(s) == (h.optimizer(s), [Optimize]);
    assert Hooks([Optimize]) == [Hook(Optimize)];
    if Continues(d, s) {
      var s' := h.update(h.optimizer(s));
      LoopShape(h, s');
      OptimizeShapedIteration(Drive(d, s').trace);
      assert Drive(d, s).trace == [FailedQuery(false), Hook(Optimize), SucceededQuery(false), UpdateCall] + Drive(d, s').trace;
    }
  }

  /**
   * `done` is true exactly when the loop broke because `attack_succeeded`
   * held right after an optimiser step.
   */
  lemma DoneIffSucceededAfterOptimize<S(!new), P>(h: AttackHooks<S, P>, s: S)
    requires Bounded(Loop(h))
    ensures var r := AttackRun(h, s); var n := |r.trace|;
            r.done <==> n >= 4 && r.trace[n - 2] == SucceededQuery(true) && r.trace[n - 3] == Hook(Optimize)
  {
    var run := Drive(Loop(h), h.init(s));
    LoopShape(h, h.init(s));
    var r := AttackRun(h, s);
    var t := r.trace;
    var m := |run.trace|;
    assert r.done == run.done;
    assert t == [Hook(Init)] + run.trace + [Hook(Retrieve)];
    assert t[m] == run.trace[m - 1];
    if run.done {
      assert ShapedAt(run.trace, m - 1);
      assert t[m - 1] == run.trace[m - 2];
    }
  }

  /**
   * `attack_update` is called exactly after a success check that was false,
   * which in turn came right after an optimiser step; it never follows a
   * successful check.
   */
  lemma UpdateOnlyAfterFailedCheck<S(!new), P>(h: AttackHooks<S, P>, s: S)
    requires Bounded(Loop(h))
    ensures var t := AttackRun(h, s).trace;
            forall i :: 0 <= i < |t| ==>
              (t[i] == UpdateCall <==> 3 <= i && t[i - 1] == SucceededQuery(false) && t[i - 2] == Hook(Optimize))
    ensures var t := AttackRun(h, s).trace;
            forall i :: 1 <= i < |t| - 1 && t[i] == SucceededQuery(false) ==> t[i + 1] == UpdateCall
  {
    var run := Drive(Loop(h), h.init(s));
    var d := run.trace;
    DriveDisciplined(Loop(h), h.init(s));
    LoopShape(h, h.init(s));
    var t := AttackRun(h, s).trace;
    assert t == [Hook(Init)] + d + [Hook(Retrieve)];
    assert |t| == |d| + 2;
    forall i | 0 <= i < |t|
      ensures t[i] == UpdateCall <==> 3 <= i && t[i - 1] == SucceededQuery(false) && t[i - 2] == Hook(Optimize)
    {
      if t[i] == UpdateCall {
        assert 1 <= i <= |d| && d[i - 1] == t[i];
        assert d[i - 2] == SucceededQuery(false);
        assert ShapedAt(d, i - 2);
        assert t[i - 1] == d[i - 2] && t[i - 2] == d[i - 3];
      }
      if 3 <= i && t[i - 1] == SucceededQuery(false) && t[i - 2] == Hook(Optimize) {
        assert i - 1 <= |d| && d[i - 2] == t[i - 1];
        assert i - 1 < |d|;
        assert d[i - 1] == UpdateCall;
        assert t[i] == d[i - 1];
      }
    }
    forall i | 1 <= i < |t| - 1 && t[i] == SucceededQuery(false)
      ensures t[i + 1] == UpdateCall
    {
      assert d[i - 1] == t[i];
      assert i < |d|;
      assert d[i] == UpdateCall;
      assert t[i + 1] == d[i];
    }
  }

  /**
   * If the failure hook trips after n updates and success never holds
   * before, the optimiser runs exactly n times and `done` is false.
   */
  lemma Exhausted<S(!new), P>(h: AttackHooks<S, P>, s: S, n: nat)
    requires Bounded(Loop(h))
    requires forall k :: 0 <= k < n ==> Continues(Loop(h), Advance(Loop(h), h.init(s), k))
    requires h.failed(Advance(Loop(h), h.init(s), n))
    ensures !AttackRun(h, s).done
    ensures Events(AttackRun(h, s).trace) == [Init] + Optimizes(n) + [Retrieve]
  {
    DriveExhausts(Loop(h), h.init(s), n);
    AttackEvents(h, s);
  }

  // ---------------------------------------------------------------- the base class's own hooks

  /**
   * The hook bodies of the abstract base class, over its one field
   * `perb`: init and the optimiser set it to None, the failure hook answers
   * False, the success hook True, update does nothing, retrieve returns it.
   */
  function BaseHooks<P(!new)>(): (h: AttackHooks<Option<P>, Option<P>>)
    ensures forall perb :: !h.failed(perb) && h.succeeded(perb)
    ensures forall perb :: h.init(perb) == None && h.optimizer(perb) == None
    ensures forall perb :: h.update(perb) == perb && h.retrieve(perb) == perb
  {
    AttackHooks(_ => None, _ => false, _ => None, _ => true, perb => perb, perb => perb, _ => 0)
  }

  lemma BaseTerminates<P(!new)>()
    ensures Bounded(Loop(BaseHooks<P>()))
  {
  }

  /** With the base hooks an attack optimises once, succeeds, and returns no perturbation. */
  lemma BaseAttack<P(!new)>(perb: Option<P>)
    ensures Bounded(Loop(BaseHooks<P>()))
    ensures AttackRun(BaseHooks<P>(), perb).done && AttackRun(BaseHooks<P>(), perb).perb == None
    ensures AttackRun(BaseHooks<P>(), perb).trace
         == [Hook(Init), FailedQuery(false), Hook(Optimize), SucceededQuery(true), Hook(Retrieve)]
  {
    BaseTerminates<P>();
  }

  /** One iteration of the attack loop, stated on the hooks themselves. */
  lemma LoopStep<S(!new), P>(h: AttackHooks<S, P>, s: S)
    requires Bounded(Loop(h))
    ensures h.failed(s) ==> Drive(Loop(h), s) == Run(false, s, [FailedQuery(true)], [])
    ensures !h.failed(s) && h.succeeded(h.optimizer(s)) ==>
              Drive(Loop(h), s) == Run(true, h.optimizer(s), [FailedQuery(false), Hook(Optimize), SucceededQuery(true)], [[Optimize]])
    ensures !h.failed(s) && !h.succeeded(h.optimizer(s)) ==> h.budget(h.update(h.optimizer(s))) < h.budget(s)
    ensures !h.failed(s) && !h.succeeded(h.optimizer(s)) ==>
              Drive(Loop(h), s) == Then([FailedQuery(false), Hook(Optimize), SucceededQuery(false), UpdateCall],
                                        [[Optimize]], Drive(Loop(h), h.update(h.optimizer(s))))
  {
    var d := Loop(h);
    DriveUnfold(d, s);
    assert d.body(s) == (h.optimizer(s), [Optimize]);
    assert Hooks([Optimize]) == [Hook(Optimize)];
    if !h.failed(s) && !h.succeeded(h.optimizer(s)) {
      assert Continues(d, s);
    }
  }

  // ---------------------------------------------------------------- the attacker object

  class Attacker<S(!new), P> {
    const hooks: AttackHooks<S, P>
    /** Everything the hooks read and write, including `self.perb`. */
    var state: S
    /** The calls of the latest attack, in order. */
    ghost var trace: seq<Step<AttackEvent>>

    constructor(hooks: AttackHooks<S, P>, state: S)
      ensures this.hooks == hooks && this.state == state && trace == []
    {
      this.hooks := hooks;
      this.state := state;
      trace := [];
    }

    /** `_attack`; its target input and output are not used by the template and are left out. */
    method Attack() returns (done: bool, perb: P)
      requires Bounded(Loop(hooks))
      modifies this
      ensures var r := AttackRun(hooks, old(state));
              done == r.done && perb == r.perb && state == r.final && trace == r.trace
    {
      var h := hooks;
      ghost var run := Drive(Loop(h), h.init(state));
      var s := h.init(state);
      ghost var tr: seq<Step<AttackEvent>> := [];
      ghost var bl: seq<seq<AttackEvent>> := [];
      done := false;
      while true
        invariant run == Then(tr, bl, Drive(Loop(h), s))
        decreases h.budget(s)
      {
        LoopStep(h, s);
        if h.failed(s) {
          tr := tr + [FailedQuery(true)];
          break;
        }
        var next := h.optimizer(s);
        if h.succeeded(next) {
          s, done := next, true;
          tr, bl := tr + [FailedQuery(false), Hook(Optimize), SucceededQuery(true)], bl + [[Optimize]];
          break;
        }
        ghost var step := [FailedQuery(false), Hook(Optimize), SucceededQuery(false), UpdateCall];
        ThenThen(tr, bl, step, [[Optimize]], Drive(Loop(h), h.update(next)));
        s := h.update(next);
        tr, bl := tr + step, bl + [[Optimize]];
      }
      assert run == Run(done, s, tr, bl);
      state := s;
      perb := h.retrieve(s);
      trace := [Hook(Init)] + tr + [Hook(Retrieve)];
    }
  }
}
