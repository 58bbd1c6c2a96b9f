/**
 * The control skeleton shared by the system's three template methods
 * (`Attacker._attack`, the inner loop of `PhysicalLoop.loop` and
 * `ContinuousLoop.loop`):
 *
 *     while not failed():
 *         body()
 *         if succeeded(): break
 *         else: update()
 *
 * The hooks are abstract in the source, so a driver is a record of total
 * functions over an abstract state `S`; `body` returns the hook events it
 * caused. `Drive` is the specification each loop's imperative method is
 * proved against; its run records every call in order (`trace`) and the
 * events of each body run (`blocks`).
 *
 * The source puts no bound on the number of iterations; a run is only
 * defined for drivers whose `budget` falls on every iteration that does not
 * stop the loop (`Bounded`).
 */
module TemplateLoop {
  import opened Lookup

  /** One recorded call: a query with its answer, a hook call, or the update step. */
  datatype Step<+E> =
    | FailedQuery(answer: bool)
    | Hook(event: E)
    | SucceededQuery(answer: bool)
    | UpdateCall

  datatype Driver<!S, E> = Driver(
    failed: S -> bool,
    body: S -> (S, seq<E>),
    succeeded: S -> bool,
    update: S -> S,
    budget: S -> nat)

  /** Every iteration that neither fails on entry nor succeeds lowers the budget. */
  ghost predicate Bounded<S(!new), E>(d: Driver<S, E>)
  {
    forall s :: Continues(d, s) ==> d.budget(d.update(d.body(s).0)) < d.budget(s)
  }

  /** The loop runs the body in state `s` and then goes round again. */
  predicate Continues<S, E>(d: Driver<S, E>, s: S)
  {
    !d.failed(s) && !d.succeeded(d.body(s).0)
  }

  /** What a run of the loop leaves behind. */
  datatype Run<S, E> = Run(done: bool, final: S, trace: seq<Step<E>>, blocks: seq<seq<E>>)

  function Hooks<E>(es: seq<E>): (r: seq<Step<E>>)
    ensures |r| == |es|
    ensures forall i :: 0 <= i < |es| ==> r[i] == Hook(es[i])
  {
    seq(|es|, i requires 0 <= i < |es| => Hook(es[i]))
  }

  /** The terminal calls: the failure query that ends the loop, the success query that breaks it. */
  predicate Terminal<E>(c: Step<E>)
  {
    c == FailedQuery(true) || c == SucceededQuery(true)
  }

  /**
   * The specification of the loop. The result is the run's `done` flag,
   * which the source sets only at the `break`.
   */
  function Drive<S(!new), E>(d: Driver<S, E>, s: S): (r: Run<S, E>)
    requires Bounded(d)
    ensures r.trace != [] && r.trace[0].FailedQuery?
    ensures r.done <==> r.trace[|r.trace| - 1] == SucceededQuery(true)
    ensures !r.done <==> r.trace[|r.trace| - 1] == FailedQuery(true)
    ensures r.done ==> d.succeeded(r.final) && r.blocks != []
    ensures !r.done ==> d.failed(r.final)
    ensures r.blocks == [] <==> d.failed(s)
    decreases d.budget(s)
  {
    if d.failed(s) then Run(false, s, [FailedQuery(true)], [])
    else
      var (s1, es) := d.body(s);
      var head := [FailedQuery(false)] + Hooks(es);
      if d.succeeded(s1) then Run(true, s1, head + [SucceededQuery(true)], [es])
      else
        var rest := Drive(d, d.update(s1));
        Run(rest.done, rest.final, head + [SucceededQuery(false), UpdateCall] + rest.trace, [es] + rest.blocks)
  }

  /** The calls recorded before the current state, prepended to the run from it. */
  function Then<S, E>(trace: seq<Step<E>>, blocks: seq<seq<E>>, r: Run<S, E>): Run<S, E>
  {
    Run(r.done, r.final, trace + r.trace, blocks + r.blocks)
  }

  /** One unfolding of `Drive`, stated for the three ways an iteration can end. */
  lemma DriveUnfold<S(!new), E>(d: Driver<S, E>, s: S)
    requires Bounded(d)
    ensures d.failed(s) ==> Drive(d, s) == Run(false, s, [FailedQuery(true)], [])
    ensures !d.failed(s) && d.succeeded(d.body(s).0) ==>
              Drive(d, s) == Run(true, d.body(s).0, [FailedQuery(false)] + Hooks(d.body(s).1) + [SucceededQuery(true)], [d.body(s).1])
    ensures Continues(d, s) ==>
              Drive(d, s) == Then([FailedQuery(false)] + Hooks(d.body(s).1) + [SucceededQuery(false), UpdateCall],
                                  [d.body(s).1], Drive(d, d.update(d.body(s).0)))
  {
  }

  lemma ThenThen<S, E>(t1: seq<Step<E>>, b1: seq<seq<E>>, t2: seq<Step<E>>, b2: seq<seq<E>>, r: Run<S, E>)
    ensures Then(t1, b1, Then(t2, b2, r)) == Then(t1 + t2, b1 + b2, r)
  {
    assert t1 + (t2 + r.trace) == t1 + t2 + r.trace;
    assert b1 + (b2 + r.blocks) == b1 + b2 + r.blocks;
  }

  /** A loop that stops on the failure query in state `s` adds that query and ends there. */
  lemma ThenFailed<S(!new), E>(d: Driver<S, E>, tr: seq<Step<E>>, bl: seq<seq<E>>, s: S, run: Run<S, E>)
    requires Bounded(d) && run == Then(tr, bl, Drive(d, s)) && d.failed(s)
    ensures run == Run(false, s, tr + [FailedQuery(true)], bl)
  {
    DriveUnfold(d, s);
    assert bl + [] == bl;
  }

  /** A loop whose body succeeds from `s` adds that iteration and ends in the body's state. */
  lemma ThenSucceeded<S(!new), E>(d: Driver<S, E>, tr: seq<Step<E>>, bl: seq<seq<E>>, s: S, run: Run<S, E>)
    requires Bounded(d) && run == Then(tr, bl, Drive(d, s)) && !d.failed(s) && d.succeeded(d.body(s).0)
    ensures run == Run(true, d.body(s).0, tr + ([FailedQuery(false)] + Hooks(d.body(s).1) + [SucceededQuery(true)]), bl + [d.body(s).1])
  {
    DriveUnfold(d, s);
  }

  /** A loop that goes round again from `s` adds that iteration and its update, and continues from the updated state. */
  lemma ThenContinues<S(!new), E>(d: Driver<S, E>, tr: seq<Step<E>>, bl: seq<seq<E>>, s: S, run: Run<S, E>)
    requires Bounded(d) && run == Then(tr, bl, Drive(d, s)) && Continues(d, s)
    ensures run == Then(tr + ([FailedQuery(false)] + Hooks(d.body(s).1) + [SucceededQuery(false), UpdateCall]),
                        bl + [d.body(s).1], Drive(d, d.update(d.body(s).0)))
  {
    DriveUnfold(d, s);
    ThenThen(tr, bl, [FailedQuery(false)] + Hooks(d.body(s).1) + [SucceededQuery(false), UpdateCall],
             [d.body(s).1], Drive(d, d.update(d.body(s).0)));
  }

  // ---------------------------------------------------------------- call discipline

  /**
   * The order of calls the skeleton guarantees: the trace starts with a
   * failure query; an update happens exactly after a failed success query;
   * a terminal answer only ever comes last.
   */
  ghost predicate Disciplined<E>(t: seq<Step<E>>)
  {
    && t != [] && t[0].FailedQuery?
    && (forall i :: 0 <= i < |t| ==> (t[i] == UpdateCall <==> 0 < i && t[i - 1] == SucceededQuery(false)))
    && (forall i :: 0 <= i < |t| && t[i] == SucceededQuery(false) ==> i + 1 < |t|)
    && (forall i :: 0 <= i < |t| - 1 ==> !Terminal(t[i]))
  }

  lemma DisciplinedIteration<E>(es: seq<E>, t: seq<Step<E>>)
    requires Disciplined(t)
    ensures Disciplined([FailedQuery(false)] + Hooks(es) + [SucceededQuery(false), UpdateCall] + t)
  {
    var u := [FailedQuery(false)] + Hooks(es) + [SucceededQuery(false), UpdateCall] + t;
    var n := |es| + 3;
    assert forall i :: 0 <= i < |u| ==> u[i] == if i == 0 then FailedQuery(false)
                                               else if i <= |es| then Hook(es[i - 1])
                                               else if i == |es| + 1 then SucceededQuery(false)
                                               else if i == |es| + 2 then UpdateCall
                                               else t[i - n];
    forall i | 0 <= i < |u|
      ensures u[i] == UpdateCall <==> 0 < i && u[i - 1] == SucceededQuery(false)
    {
      if i > n {
        assert u[i - 1] == t[i - 1 - n];
      }
    }
  }

  lemma DisciplinedLastIteration<E>(es: seq<E>)
    ensures Disciplined([FailedQuery(false)] + Hooks(es) + [SucceededQuery(true)])
  {
    var u := [FailedQuery(false)] + Hooks(es) + [SucceededQuery(true)];
    assert forall i :: 0 <= i < |u| ==> u[i] == if i == 0 then FailedQuery(false)
                                               else if i <= |es| then Hook(es[i - 1])
                                               else SucceededQuery(true);
  }

  /** Every run's trace obeys the skeleton's call discipline. */
  lemma {:induction false} DriveDisciplined<S(!new), E>(d: Driver<S, E>, s: S)
    requires Bounded(d)
    ensures Disciplined(Drive(d, s).trace)
    decreases d.budget(s)
  {
    if !d.failed(s) {
      var (s1, es) := d.body(s);
      if d.succeeded(s1) {
        DisciplinedLastIteration(es);
      } else {
        DriveDisciplined(d, d.update(s1));
        DisciplinedIteration(es, Drive(d, d.update(s1)).trace);
      }
    }
  }

  // ---------------------------------------------------------------- blocks and events

  /** The hook events of a trace, in order. */
  function Events<E>(t: seq<Step<E>>): (r: seq<E>)
    ensures |r| <= |t|
  {
    if t == [] then []
    else if t[0].Hook? then [t[0].event] + Events(t[1..])
    else Events(t[1..])
  }

  /** Every event of a trace comes from one of its hook steps. */
  lemma {:induction false} EventsFromHooks<E>(t: seq<Step<E>>)
    ensures forall e :: e in Events(t) ==> Hook(e) in t
  {
    if t != [] {
      EventsFromHooks(t[1..]);
      assert forall c :: c in t[1..] ==> c in t;
    }
  }

  function Flatten<E>(blocks: seq<seq<E>>): seq<E>
  {
    if blocks == [] then [] else blocks[0] + Flatten(blocks[1..])
  }

  lemma {:induction false} EventsAppend<E>(a: seq<Step<E>>, b: seq<Step<E>>)
    ensures Events(a + b) == Events(a) + Events(b)
  {
    if a == [] {
      assert a + b == b;
    } else {
      assert (a + b)[0] == a[0];
      assert (a + b)[1..] == a[1..] + b;
      EventsAppend(a[1..], b);
    }
  }

  lemma {:induction false} EventsOfHooks<E>(es: seq<E>)
    ensures Events(Hooks(es)) == es
  {
    if es != [] {
      assert Hooks(es)[1..] == Hooks(es[1..]);
      EventsOfHooks(es[1..]);
    }
  }

  lemma EventsOfIteration<E>(es: seq<E>, tail: seq<Step<E>>)
    ensures Events([FailedQuery(false)] + Hooks(es) + tail) == es + Events(tail)
  {
    EventsOfHooks(es);
    EventsAppend([FailedQuery(false)], Hooks(es));
    EventsAppend([FailedQuery(false)] + Hooks(es), tail);
  }

  /** The hook events of a run are exactly those of its body runs, in order. */
  lemma {:induction false} DriveEvents<S(!new), E>(d: Driver<S, E>, s: S)
    requires Bounded(d)
    ensures Events(Drive(d, s).trace) == Flatten(Drive(d, s).blocks)
    decreases d.budget(s)
  {
    if !d.failed(s) {
      var (s1, es) := d.body(s);
      if d.succeeded(s1) {
        EventsOfIteration(es, [SucceededQuery(true)]);
        assert Flatten([es]) == es + Flatten([]);
      } else {
        var rest := Drive(d, d.update(s1));
        DriveEvents(d, d.update(s1));
        var tail := [SucceededQuery(false), UpdateCall] + rest.trace;
        EventsOfIteration(es, tail);
        EventsAppend([SucceededQuery(false), UpdateCall], rest.trace);
        assert [FailedQuery(false)] + Hooks(es) + [SucceededQuery(false), UpdateCall] + rest.trace
            == [FailedQuery(false)] + Hooks(es) + tail;
        assert ([es] + rest.blocks)[1..] == rest.blocks;
      }
    }
  }

  /** Each body run of a loop produces events the body can produce; so what holds of every body run holds of every block. */
  lemma {:induction false} DriveBlocks<S(!new), E>(d: Driver<S, E>, s: S, p: seq<E> -> bool)
    requires Bounded(d)
    requires forall s' :: p(d.body(s').1)
    ensures forall k :: 0 <= k < |Drive(d, s).blocks| ==> p(Drive(d, s).blocks[k])
    decreases d.budget(s)
  {
    if !d.failed(s) {
      var (s1, es) := d.body(s);
      assert p(d.body(s).1);
      if !d.succeeded(s1) {
        DriveBlocks(d, d.update(s1), p);
      }
    }
  }

  // ---------------------------------------------------------------- counting iterations

  /** The state in which the loop enters its k-th iteration, if none of the first k stops it. */
  function Advance<S, E>(d: Driver<S, E>, s: S, k: nat): S
  {
    if k == 0 then s else Advance(d, d.update(d.body(s).0), k - 1)
  }

  /**
   * When the first n iterations neither fail on entry nor succeed and the
   * failure query holds on entering iteration n, the loop runs its body
   * exactly n times and reports no success.
   */
  lemma {:induction false} DriveExhausts<S(!new), E>(d: Driver<S, E>, s: S, n: nat)
    requires Bounded(d)
    requires forall k :: 0 <= k < n ==> Continues(d, Advance(d, s, k))
    requires d.failed(Advance(d, s, n))
    ensures !Drive(d, s).done
    ensures |Drive(d, s).blocks| == n
    ensures Drive(d, s).final == Advance(d, s, n)
    decreases n
  {
    if n > 0 {
      assert Continues(d, Advance(d, s, 0));
      var s' := d.update(d.body(s).0);
      forall k | 0 <= k < n - 1
        ensures Continues(d, Advance(d, s', k))
      {
        assert Advance(d, s, k + 1) == Advance(d, s', k);
      }
      assert Advance(d, s, n) == Advance(d, s', n - 1);
      DriveExhausts(d, s', n - 1);
    }
  }

  /**
   * The loop's exit, final state and number of iterations depend only on
   * the states the hooks produce, never on the events they record.
   */
  lemma {:induction false} DriveIgnoresEvents<S(!new), E>(d1: Driver<S, E>, d2: Driver<S, E>, s: S)
    requires Bounded(d1) && Bounded(d2)
    requires forall s' :: d1.failed(s') == d2.failed(s') && d1.succeeded(s') == d2.succeeded(s')
    requires forall s' :: d1.update(s') == d2.update(s') && d1.body(s').0 == d2.body(s').0
    ensures Drive(d1, s).done == Drive(d2, s).done
    ensures Drive(d1, s).final == Drive(d2, s).final
    ensures |Drive(d1, s).blocks| == |Drive(d2, s).blocks|
    decreases d1.budget(s)
  {
    if !d1.failed(s) {
      var s1 := d1.body(s).0;
      assert s1 == d2.body(s).0;
      if !d1.succeeded(s1) {
        DriveIgnoresEvents(d1, d2, d1.update(s1));
      }
    }
  }

  // ---------------------------------------------------------------- the last success answer

  /** The answer of the last success query in a trace, if there is one. */
  function LastAnswer<E>(t: seq<Step<E>>): Option<bool>
  {
    if t == [] then None
    else if t[|t| - 1].SucceededQuery? then Some(t[|t| - 1].answer)
    else LastAnswer(t[..|t| - 1])
  }

  lemma {:induction false} LastAnswerAppend<E>(a: seq<Step<E>>, b: seq<Step<E>>)
    ensures LastAnswer(a + b) == if LastAnswer(b).Some? then LastAnswer(b) else LastAnswer(a)
    decreases |b|
  {
    if b == [] {
      assert a + b == a;
    } else {
      assert (a + b)[..|a + b| - 1] == a + b[..|b| - 1];
      LastAnswerAppend(a, b[..|b| - 1]);
    }
  }

  lemma {:induction false} LastAnswerOfHooks<E>(es: seq<E>)
    ensures LastAnswer(Hooks(es)) == None
    decreases |es|
  {
    if es != [] {
      assert Hooks(es)[..|es| - 1] == Hooks(es[..|es| - 1]);
      LastAnswerOfHooks(es[..|es| - 1]);
    }
  }

  /**
   * The loop reports success exactly when the last success query answered
   * true; there is no success query at all exactly when the body never ran.
   */
  lemma {:induction false} DriveLastAnswer<S(!new), E>(d: Driver<S, E>, s: S)
    requires Bounded(d)
    ensures var r := Drive(d, s);
            LastAnswer(r.trace) == if r.blocks == [] then None else Some(r.done)
    decreases d.budget(s)
  {
    DriveUnfold(d, s);
    if !d.failed(s) {
      var es := d.body(s).1;
      LastAnswerOfHooks(es);
      LastAnswerAppend([FailedQuery(false)], Hooks(es));
      var first: seq<Step<E>> := [FailedQuery(false)];
      assert LastAnswer(first) == None by {
        assert first[..0] == [];
      }
      var head := [FailedQuery(false)] + Hooks(es);
      if d.succeeded(d.body(s).0) {
        LastAnswerAppend(head, [SucceededQuery(true)]);
      } else {
        var rest := Drive(d, d.update(d.body(s).0));
        DriveLastAnswer(d, d.update(d.body(s).0));
        var step := head + [SucceededQuery(false), UpdateCall];
        assert LastAnswer(step) == Some(false) by {
          assert step[..|step| - 1] == head + [SucceededQuery(false)];
        }
        LastAnswerAppend(step, rest.trace);
        assert step == [FailedQuery(false)] + Hooks(es) + [SucceededQuery(false), UpdateCall];
      }
    }
  }
}
