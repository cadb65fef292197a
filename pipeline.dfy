/** A plan is an ordered list of cluster calls, each with the error it
    tolerates and the messages its error is wrapped with. `Run` is the
    reference semantics of the deployer's step-by-step code: it executes the
    steps in order and stops at the first error a step does not tolerate,
    leaving in place whatever earlier steps created. */
module Pipeline {
  import opened Wrappers
  import opened Objects
  import opened Cluster
  import opened Messages

  datatype Tolerance = Strict | Tolerate(kind: ErrorKind)

  datatype Step = Step(action: Action, tolerance: Tolerance, context: seq<Message>)

  /** The steps still to run, first step first. */
  datatype Plan = Done | Do(step: Step, next: Plan)

  function Steps(p: Plan): seq<Step>
    decreases p
  {
    match p
    case Done => []
    case Do(st, next) => [st] + Steps(next)
  }

  /** One plan, then another. */
  function Append(p: Plan, q: Plan): (r: Plan)
    decreases p
  {
    match p
    case Done => q
    case Do(st, next) => Do(st, Append(next, q))
  }

  lemma {:induction false} StepsOfAppend(p: Plan, q: Plan)
    ensures Steps(Append(p, q)) == Steps(p) + Steps(q)
    decreases p
  {
    match p
    case Done =>
    case Do(st, next) =>
      StepsOfAppend(next, q);
      assert [st] + (Steps(next) + Steps(q)) == ([st] + Steps(next)) + Steps(q);
  }

  lemma {:induction false} AppendAssociative(p: Plan, q: Plan, r: Plan)
    ensures Append(Append(p, q), r) == Append(p, Append(q, r))
    decreases p
  {
    match p
    case Done =>
    case Do(_, next) => AppendAssociative(next, q, r);
  }

  /** The final store, the events of the calls made, and the error the
      pipeline stopped with, if it stopped early. */
  datatype RunResult = RunResult(state: State, events: seq<Event>, error: Option<Error>)

  /** An event ends the pipeline when its step does not tolerate its error. */
  predicate Fatal(st: Step, e: Event) {
    e.error.Some? && st.tolerance != Tolerate(e.error.value)
  }

  function Run(s: State, failing: set<Call>, p: Plan): RunResult
    decreases p
  {
    match p
    case Done => RunResult(s, [], None)
    case Do(st, next) =>
      var o := Exec(s, failing, st.action);
      if Fatal(st, o.event) then
        RunResult(o.state, [o.event], Some(Error(o.event.error.value, st.context)))
      else
        var r := Run(o.state, failing, next);
        RunResult(r.state, [o.event] + r.events, r.error)
  }

  /** Continues a partial run with more steps, unless it already stopped. */
  function Then(r: RunResult, failing: set<Call>, more: Plan): RunResult {
    if r.error.Some? then r
    else
      var r2 := Run(r.state, failing, more);
      RunResult(r2.state, r.events + r2.events, r2.error)
  }

  /** Running two plans back to back is running their concatenation. */
  lemma {:induction false} RunAppend(s: State, failing: set<Call>, p: Plan, q: Plan)
    ensures Run(s, failing, Append(p, q)) == Then(Run(s, failing, p), failing, q)
    decreases p
  {
    match p
    case Done =>
      var r2 := Run(s, failing, q);
      assert [] + r2.events == r2.events;
    case Do(st, next) =>
      var o := Exec(s, failing, st.action);
      if !Fatal(st, o.event) {
        RunAppend(o.state, failing, next, q);
        var r := Run(o.state, failing, next);
        if r.error.None? {
          var r2 := Run(r.state, failing, q);
          assert [o.event] + (r.events + r2.events) == ([o.event] + r.events) + r2.events;
        }
      }
  }

  /** Every step's error wrapped in one more message. */
  function Wrapped(p: Plan, message: Message): (r: Plan)
    decreases p
  {
    match p
    case Done => Done
    case Do(st, next) => Do(st.(context := [message] + st.context), Wrapped(next, message))
  }

  function WrapError(error: Option<Error>, message: Message): (r: Option<Error>)
    ensures r.None? <==> error.None?
    ensures error.Some? ==> r == Some(Wrap(error.value, message))
  {
    if error.Some? then Some(Wrap(error.value, message)) else None
  }

  /** Wrapping every step's error in one more message wraps the run's error
      in it and changes nothing else. */
  lemma {:induction false} RunWrapped(s: State, failing: set<Call>, p: Plan, message: Message)
    ensures var r := Run(s, failing, p);
            Run(s, failing, Wrapped(p, message)) == RunResult(r.state, r.events, WrapError(r.error, message))
    decreases p
  {
    match p
    case Done =>
    case Do(st, next) =>
      var o := Exec(s, failing, st.action);
      if !Fatal(st, o.event) {
        RunWrapped(o.state, failing, next, message);
      }
  }

  // ------------------------------------------- following a run step by step

  /** Events already seen, in front of a run still to come. */
  function Prepend(seen: seq<Event>, r: RunResult): RunResult {
    r.(events := seen + r.events)
  }

  /** From store `s` and trace `t` the cluster reached store `s1` and trace
      `t1` by running the whole of `plan`, ending with `error`. */
  ghost predicate Reached(s: State, t: seq<Event>, s1: State, t1: seq<Event>, failing: set<Call>,
                          plan: Plan, error: Option<Error>) {
    |t| <= |t1| && t1[..|t|] == t && Run(s, failing, plan) == RunResult(s1, t1[|t|..], error)
  }

  /** The same, as far as `rest`: the run stopped with `error` before
      reaching `rest`, or it reached `rest` without an error, `rest` being
      what remains to run from `s1`. */
  ghost predicate UpTo(s: State, t: seq<Event>, s1: State, t1: seq<Event>, failing: set<Call>,
                       plan: Plan, rest: Plan, error: Option<Error>) {
    if error.Some? then Reached(s, t, s1, t1, failing, plan, error)
    else |t| <= |t1| && t1[..|t|] == t && Run(s, failing, plan) == Prepend(t1[|t|..], Run(s1, failing, rest))
  }

  /** The cluster has gone through `plan`: its store and trace moved as
      `Run` of the plan from the earlier store says, and `error` is the
      run's error. */
  twostate predicate Ran(c: Cluster, plan: Plan, new error: Option<Error>)
    reads c
  {
    Reached(old(c.Snapshot()), old(c.trace), c.Snapshot(), c.trace, c.failing, plan, error)
  }

  /** Nothing has run yet. */
  lemma Start(s: State, t: seq<Event>, failing: set<Call>, plan: Plan)
    ensures UpTo(s, t, s, t, failing, plan, plan, None)
  {
    assert t[..|t|] == t && t[|t|..] == [];
    assert [] + Run(s, failing, plan).events == Run(s, failing, plan).events;
  }

  /** One step taken from store `s`. */
  lemma One(s: State, t: seq<Event>, failing: set<Call>, st: Step, next: Plan)
    ensures var o := Exec(s, failing, st.action);
      UpTo(s, t, o.state, t + [o.event], failing, Do(st, next), next,
           StepError(st, o.event))
  {
    var o := Exec(s, failing, st.action);
    assert (t + [o.event])[..|t|] == t;
    assert (t + [o.event])[|t|..] == [o.event];
  }

  /** Two stretches of a run, one after the other. */
  lemma Chain(s0: State, t0: seq<Event>, s1: State, t1: seq<Event>, s2: State, t2: seq<Event>, failing: set<Call>,
              plan: Plan, mid: Plan, rest: Plan, error: Option<Error>)
    requires UpTo(s0, t0, s1, t1, failing, plan, mid, None)
    requires UpTo(s1, t1, s2, t2, failing, mid, rest, error)
    ensures UpTo(s0, t0, s2, t2, failing, plan, rest, error)
  {
    TraceSplit(t0, t1, t2);
    if error.None? {
      PrependTwice(t1[|t0|..], t2[|t1|..], Run(s2, failing, rest));
    }
  }

  /** A trace that extends an extension of `t0` extends `t0` by both stretches. */
  lemma TraceSplit(t0: seq<Event>, t1: seq<Event>, t2: seq<Event>)
    requires |t0| <= |t1| && t1[..|t0|] == t0
    requires |t1| <= |t2| && t2[..|t1|] == t1
    ensures |t0| <= |t2| && t2[..|t0|] == t0
    ensures t2[|t0|..] == t1[|t0|..] + t2[|t1|..]
  {
    assert t2[..|t0|] == t2[..|t1|][..|t0|];
  }

  lemma PrependTwice(a: seq<Event>, b: seq<Event>, r: RunResult)
    ensures Prepend(a, Prepend(b, r)) == Prepend(a + b, r)
  {
    assert a + (b + r.events) == (a + b) + r.events;
  }

  /** The error a step ends the run with, if it does. */
  function StepError(st: Step, e: Event): (r: Option<Error>)
    ensures r.Some? <==> Fatal(st, e)
    ensures r.Some? ==> r.value == Error(e.error.value, st.context)
  {
    if Fatal(st, e) then Some(Error(e.error.value, st.context)) else None
  }

  /** Code following `plan` takes its next step `st`. */
  lemma Next(s0: State, t0: seq<Event>, s: State, t: seq<Event>, failing: set<Call>, plan: Plan, st: Step, next: Plan)
    requires UpTo(s0, t0, s, t, failing, plan, Do(st, next), None)
    ensures var o := Exec(s, failing, st.action);
            UpTo(s0, t0, o.state, t + [o.event], failing, plan, next, StepError(st, o.event))
  {
    var o := Exec(s, failing, st.action);
    One(s, t, failing, st, next);
    Chain(s0, t0, s, t, o.state, t + [o.event], failing, plan, Do(st, next), next, StepError(st, o.event));
  }

  /** A whole plan run, seen as the first stretch of a longer one. */
  lemma Extend(s: State, t: seq<Event>, s1: State, t1: seq<Event>, failing: set<Call>,
               p: Plan, q: Plan, error: Option<Error>)
    requires Reached(s, t, s1, t1, failing, p, error)
    ensures UpTo(s, t, s1, t1, failing, Append(p, q), q, error)
  {
    RunAppend(s, failing, p, q);
  }

  /** Code following `plan` runs the whole of its next stretch `p`. */
  lemma NextRun(s0: State, t0: seq<Event>, s: State, t: seq<Event>, s1: State, t1: seq<Event>, failing: set<Call>,
                plan: Plan, p: Plan, q: Plan, error: Option<Error>)
    requires UpTo(s0, t0, s, t, failing, plan, Append(p, q), None)
    requires Reached(s, t, s1, t1, failing, p, error)
    ensures UpTo(s0, t0, s1, t1, failing, plan, q, error)
  {
    Extend(s, t, s1, t1, failing, p, q, error);
    Chain(s0, t0, s, t, s1, t1, failing, plan, Append(p, q), q, error);
  }

  /** Code following `plan` ends by running the whole of `p`. */
  lemma Last(s0: State, t0: seq<Event>, s: State, t: seq<Event>, s1: State, t1: seq<Event>, failing: set<Call>,
             plan: Plan, p: Plan, error: Option<Error>)
    requires UpTo(s0, t0, s, t, failing, plan, p, None)
    requires Reached(s, t, s1, t1, failing, p, error)
    ensures Reached(s0, t0, s1, t1, failing, plan, error)
  {
    assert t1[..|t0|] == t1[..|t|][..|t0|];
    assert t1[|t0|..] == t[|t0|..] + t1[|t|..];
  }

  /** A wrapped plan run, from the run of the plan itself. */
  lemma ReachedWrapped(s: State, t: seq<Event>, s1: State, t1: seq<Event>, failing: set<Call>,
                       p: Plan, message: Message, error: Option<Error>)
    requires Reached(s, t, s1, t1, failing, p, error)
    ensures Reached(s, t, s1, t1, failing, Wrapped(p, message), WrapError(error, message))
  {
    RunWrapped(s, failing, p, message);
  }

  /** Nothing remains. */
  lemma Finished(s: State, t: seq<Event>, s1: State, t1: seq<Event>, failing: set<Call>, plan: Plan)
    requires UpTo(s, t, s1, t1, failing, plan, Done, None)
    ensures Reached(s, t, s1, t1, failing, plan, None)
  {
    assert t1[|t|..] + [] == t1[|t|..];
  }

  // ------------------------------------------------- properties of runs

  /** The call an event records is the one a step's action asks for. */
  predicate Addresses(c: Call, a: Action) {
    match a
    case Create(ns, o) =>
      c.CreateCall? && c.key.kind == o.kind && c.key.namespace == Scope(o.kind, ns) &&
      (o.meta.name != "" ==> c.key.name == o.meta.name)
    case Delete(kind, ns, name) => c == DeleteCall(Key(kind, Scope(kind, ns), name))
    case Get(kind, ns, name) => c == GetCall(Key(kind, Scope(kind, ns), name))
    case List(kind, ns) => c == ListCall(kind, Scope(kind, ns))
    case Connect(cl) => c == ConnectCall(cl)
  }

  /** The fail-fast shape of a run: the i-th event belongs to the i-th step;
      on success every step ran and none failed fatally; on an error, the
      last event is the step that failed, it is the error returned (wrapped
      with that step's messages), every earlier step passed, and no later
      step ran. */
  ghost predicate FailFast(steps: seq<Step>, r: RunResult) {
    && |r.events| <= |steps|
    && (forall i :: 0 <= i < |r.events| ==> Addresses(r.events[i].call, steps[i].action))
    && (r.error.None? ==>
          |r.events| == |steps| && forall i :: 0 <= i < |steps| ==> !Fatal(steps[i], r.events[i]))
    && (r.error.Some? ==>
          && |r.events| > 0
          && Fatal(steps[|r.events| - 1], r.events[|r.events| - 1])
          && r.error.value == Error(r.events[|r.events| - 1].error.value, steps[|r.events| - 1].context)
          && forall i :: 0 <= i < |r.events| - 1 ==> !Fatal(steps[i], r.events[i]))
  }

  lemma ExecAddresses(s: State, failing: set<Call>, a: Action)
    ensures Addresses(Exec(s, failing, a).event.call, a)
  {
  }

  lemma {:induction false} RunIsFailFast(s: State, failing: set<Call>, p: Plan)
    ensures FailFast(Steps(p), Run(s, failing, p))
    decreases p
  {
    match p
    case Done =>
    case Do(st, next) =>
      var o := Exec(s, failing, st.action);
      ExecAddresses(s, failing, st.action);
      if Fatal(st, o.event) {
        FailFastStop(st, Steps(next), o.event, Run(s, failing, p));
      } else {
        RunIsFailFast(o.state, failing, next);
        FailFastCons(st, Steps(next), o.event, Run(o.state, failing, next));
      }
  }

  /** A run that stops at its first step is fail-fast. */
  lemma FailFastStop(st: Step, steps: seq<Step>, e: Event, r: RunResult)
    requires Addresses(e.call, st.action) && Fatal(st, e)
    requires r.events == [e] && r.error == Some(Error(e.error.value, st.context))
    ensures FailFast([st] + steps, r)
  {
    assert ([st] + steps)[0] == st;
  }

  /** A step that passes, in front of a fail-fast run of the remaining steps. */
  lemma FailFastCons(st: Step, steps: seq<Step>, e: Event, r: RunResult)
    requires Addresses(e.call, st.action) && !Fatal(st, e)
    requires FailFast(steps, r)
    ensures FailFast([st] + steps, RunResult(r.state, [e] + r.events, r.error))
  {
    var all, events := [st] + steps, [e] + r.events;
    assert forall i :: 1 <= i < |all| ==> all[i] == steps[i - 1];
    assert forall i :: 1 <= i < |events| ==> events[i] == r.events[i - 1];
  }

  predicate NeverDeletes(p: Plan)
    decreases p
  {
    match p
    case Done => true
    case Do(st, next) => !st.action.Delete? && NeverDeletes(next)
  }

  predicate NeverCreates(p: Plan)
    decreases p
  {
    match p
    case Done => true
    case Do(st, next) => !st.action.Create? && NeverCreates(next)
  }

  lemma {:induction false} NeverDeletesAppend(p: Plan, q: Plan)
    requires NeverDeletes(p) && NeverDeletes(q)
    ensures NeverDeletes(Append(p, q))
    decreases p
  {
    match p
    case Done =>
    case Do(_, next) => NeverDeletesAppend(next, q);
  }

  lemma {:induction false} NeverDeletesPrefix(p: Plan, q: Plan)
    requires NeverDeletes(Append(p, q))
    ensures NeverDeletes(p)
    decreases p
  {
    match p
    case Done =>
    case Do(_, next) => NeverDeletesPrefix(next, q);
  }

  lemma {:induction false} NeverCreatesAppend(p: Plan, q: Plan)
    requires NeverCreates(p) && NeverCreates(q)
    ensures NeverCreates(Append(p, q))
    decreases p
  {
    match p
    case Done =>
    case Do(_, next) => NeverCreatesAppend(next, q);
  }

  lemma {:induction false} NeverCreatesWrapped(p: Plan, message: Message)
    requires NeverCreates(p)
    ensures NeverCreates(Wrapped(p, message))
    decreases p
  {
    match p
    case Done =>
    case Do(_, next) => NeverCreatesWrapped(next, message);
  }

  /** After this event the key it names is stored: a create that succeeded
      or found the key already taken. */
  predicate Present(e: Event) {
    e.call.CreateCall? && (e.error.None? || e.error == Some(AlreadyExists))
  }

  /** After this event the key it names is gone: a delete that succeeded or
      found nothing to delete. */
  predicate Absent(e: Event) {
    e.call.DeleteCall? && (e.error.None? || e.error == Some(NotFound))
  }

  /** Every object stored in `s` is still stored, unchanged, in `s1`. */
  ghost predicate Keeps(s: State, s1: State) {
    forall k :: k in s.objects ==> k in s1.objects && s1.objects[k] == s.objects[k]
  }

  /** No rollback: a plan that never deletes keeps every object that was
      there before, keeps every object its steps created or found, however
      it ends, and everything new it stores has no phase yet. */
  lemma {:induction false} RunKeeps(s: State, failing: set<Call>, p: Plan)
    requires NeverDeletes(p)
    ensures var r := Run(s, failing, p);
      && Keeps(s, r.state)
      && (forall i :: 0 <= i < |r.events| && Present(r.events[i]) ==> r.events[i].call.key in r.state.objects)
      && (forall k :: k in r.state.objects && k !in s.objects ==> r.state.objects[k].phase == PhaseNone)
    decreases p
  {
    match p
    case Done =>
    case Do(st, next) =>
      var o := Exec(s, failing, st.action);
      assert Present(o.event) ==> o.event.call.key in o.state.objects;
      if !Fatal(st, o.event) {
        var tail := Run(o.state, failing, next);
        RunKeeps(o.state, failing, next);
        var r := Run(s, failing, p);
        forall i | 1 <= i < |r.events|
          ensures r.events[i] == tail.events[i - 1]
        {
        }
      }
  }

  /** A plan that never creates stores nothing new, and every key one of
      its deletes removed or found missing stays missing. */
  lemma {:induction false} RunRemoves(s: State, failing: set<Call>, p: Plan)
    requires NeverCreates(p)
    ensures var r := Run(s, failing, p);
      && (forall k :: k in r.state.objects ==> k in s.objects && r.state.objects[k] == s.objects[k])
      && (forall i :: 0 <= i < |r.events| && Absent(r.events[i]) ==> r.events[i].call.key !in r.state.objects)
    decreases p
  {
    match p
    case Done =>
    case Do(st, next) =>
      var o := Exec(s, failing, st.action);
      assert Absent(o.event) ==> o.event.call.key !in o.state.objects;
      if !Fatal(st, o.event) {
        var tail := Run(o.state, failing, next);
        RunRemoves(o.state, failing, next);
        var r := Run(s, failing, p);
        forall i | 1 <= i < |r.events|
          ensures r.events[i] == tail.events[i - 1]
        {
        }
      }
  }

  lemma {:induction false} RunPreservesWellFormed(s: State, failing: set<Call>, p: Plan)
    requires WellFormed(s)
    ensures WellFormed(Run(s, failing, p).state)
    decreases p
  {
    match p
    case Done =>
    case Do(st, next) =>
      var o := Exec(s, failing, st.action);
      ExecPreservesWellFormed(s, failing, st.action);
      if !Fatal(st, o.event) {
        RunPreservesWellFormed(o.state, failing, next);
      }
  }
}
