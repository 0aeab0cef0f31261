/** The graph runtime's execution loop, as this model defines it: execute the
    current node on the current state, merge the node's partial update into
    the state, decide the next node on the merged state, and stop at the
    terminal sentinel `END`.

    The loop is generic in the graph: node names `N`, states `S`, errors `E`,
    and the three parts the runtime composes, the node functions, the merge
    and the edge table. A step whose node function or router fails ends the
    run with the state from before that step. The number of node executions
    is bounded by `fuel`; a run that has not reached `END` when the fuel is
    spent stops with `OutOfSteps`, naming the node it would execute next. */
module Engine {
  import opened Wrappers

  /** Where an edge leads: a node, or the terminal sentinel `END`. */
  datatype Target<N> = To(node: N) | End

  /** A compiled graph: each node's function from state to partial update, the
      merge of an update into the state, and the outgoing edge of each node,
      evaluated on the merged state. */
  datatype Graph<!N, !S, E> = Graph(
    update: (N, S) -> Result<S, E>,
    merge: (S, S) -> S,
    route: (N, S) -> Result<Target<N>, E>)

  /** The merged state after a step and where the run goes next. */
  datatype Transition<N, S> = Transition(state: S, next: Target<N>)

  /** How a run ended: at `END`, on an error raised while executing or routing
      out of node `at`, or with node `next` still to execute. */
  datatype Status<N, E> = Completed | Failed(at: N, error: E) | OutOfSteps(next: N)

  /** The nodes that completed, in order (one streamed event each), the last
      state, and how the run ended. */
  datatype Execution<N, S, E> = Execution(trace: seq<N>, state: S, status: Status<N, E>)

  /** One step: run node `n`, merge its update, route on the merged state. */
  function Step<N, S, E>(g: Graph<N, S, E>, n: N, s: S): Result<Transition<N, S>, E> {
    var update :- g.update(n, s);
    var merged := g.merge(s, update);
    var next :- g.route(n, merged);
    Success(Transition(merged, next))
  }

  /** The run from node `n` on state `s`, executing at most `fuel` nodes: a run
      never executes more nodes than its budget, and one that stops for lack
      of budget has used all of it (`RunShape`). */
  function Run<N, S, E>(g: Graph<N, S, E>, n: N, s: S, fuel: nat): (e: Execution<N, S, E>)
    ensures |e.trace| <= fuel
    decreases fuel
  {
    if fuel == 0 then Execution([], s, OutOfSteps(n))
    else
      match Step(g, n, s)
      case Failure(err) => Execution([], s, Failed(n, err))
      case Success(Transition(t, End)) => Execution([n], t, Completed)
      case Success(Transition(t, To(m))) => Prepend([n], Run(g, m, t, fuel - 1))
  }

  /** `e` with `t` executed before it. */
  function Prepend<N, S, E>(t: seq<N>, e: Execution<N, S, E>): Execution<N, S, E> {
    Execution(t + e.trace, e.state, e.status)
  }

  /** Prepending twice is prepending the concatenation. */
  lemma PrependTwice<N, S, E>(a: seq<N>, b: seq<N>, e: Execution<N, S, E>)
    ensures Prepend(a, Prepend(b, e)) == Prepend(a + b, e)
  {
  }

  /** A step that moves on to another node prepends the current node to the
      rest of the run. */
  lemma RunUnfold<N, S, E>(g: Graph<N, S, E>, n: N, s: S, fuel: nat)
    requires fuel > 0 && Step(g, n, s).Success? && Step(g, n, s).value.next.To?
    ensures Run(g, n, s, fuel) ==
      Prepend([n], Run(g, Step(g, n, s).value.next.node, Step(g, n, s).value.state, fuel - 1))
  {
  }

  /** A step that fails or reaches `END` is the last of the run. */
  lemma RunLastStep<N, S, E>(g: Graph<N, S, E>, n: N, s: S, fuel: nat)
    requires fuel > 0 && !(Step(g, n, s).Success? && Step(g, n, s).value.next.To?)
    ensures Step(g, n, s).Failure? ==> Run(g, n, s, fuel) == Execution([], s, Failed(n, Step(g, n, s).error))
    ensures Step(g, n, s).Success? ==> Run(g, n, s, fuel) == Execution([n], Step(g, n, s).value.state, Completed)
  {
  }

  /** A run that completes or fails before its fuel runs out ends the same way
      with more fuel. */
  lemma {:induction false} FuelMonotone<N, S, E>(g: Graph<N, S, E>, n: N, s: S, f: nat, h: nat)
    requires f <= h
    requires !Run(g, n, s, f).status.OutOfSteps?
    ensures Run(g, n, s, h) == Run(g, n, s, f)
    decreases f
  {
    if f > 0 {
      var step := Step(g, n, s);
      if step.Success? && step.value.next.To? {
        RunUnfold(g, n, s, f);
        RunUnfold(g, n, s, h);
        FuelMonotone(g, step.value.next.node, step.value.state, f - 1, h - 1);
      }
    }
  }

  /** Stopping a run after `a` steps and resuming it at the node it would have
      executed next, on the state it reached, is the same as running it for
      `a + b` steps: no node is skipped and none is executed twice. */
  lemma {:induction false} RunResume<N, S, E>(g: Graph<N, S, E>, n: N, s: S, a: nat, b: nat)
    requires Run(g, n, s, a).status.OutOfSteps?
    ensures Run(g, n, s, a + b) ==
      Prepend(Run(g, n, s, a).trace, Run(g, Run(g, n, s, a).status.next, Run(g, n, s, a).state, b))
    decreases a
  {
    if a > 0 {
      var step := Step(g, n, s);
      var t, m := step.value.state, step.value.next.node;
      RunUnfold(g, n, s, a);
      RunUnfold(g, n, s, a + b);
      RunResume(g, m, t, a - 1, b);
      var rest := Run(g, m, t, a - 1);
      PrependTwice([n], rest.trace, Run(g, rest.status.next, rest.state, b));
    }
  }

  /** A run that stops for lack of fuel has used all of it; a run that
      executed anything executed its starting node first. */
  lemma {:induction false} RunShape<N, S, E>(g: Graph<N, S, E>, n: N, s: S, fuel: nat)
    ensures Run(g, n, s, fuel).status.OutOfSteps? ==> |Run(g, n, s, fuel).trace| == fuel
    ensures |Run(g, n, s, fuel).trace| > 0 ==> Run(g, n, s, fuel).trace[0] == n
    decreases fuel
  {
    if fuel > 0 {
      var step := Step(g, n, s);
      if step.Success? && step.value.next.To? {
        RunUnfold(g, n, s, fuel);
        RunShape(g, step.value.next.node, step.value.state, fuel - 1);
      }
    }
  }

  /** If every edge the router takes leads from a node to `succ` of it, every
      run follows `succ`: each executed node is followed by its successor. */
  lemma {:induction false} RunFollowsEdges<N, S, E>(g: Graph<N, S, E>, succ: N -> N, n: N, s: S, fuel: nat)
    requires forall x, y :: g.route(x, y).Success? && g.route(x, y).value.To? ==> g.route(x, y).value.node == succ(x)
    ensures var t := Run(g, n, s, fuel).trace;
      forall i :: 0 <= i < |t| - 1 ==> t[i + 1] == succ(t[i])
    decreases fuel
  {
    if fuel > 0 {
      var step := Step(g, n, s);
      if step.Success? && step.value.next.To? {
        var m := step.value.next.node;
        RunUnfold(g, n, s, fuel);
        RunFollowsEdges(g, succ, m, step.value.state, fuel - 1);
        RunShape(g, m, step.value.state, fuel - 1);
        var rest := Run(g, m, step.value.state, fuel - 1).trace;
        var t := Run(g, n, s, fuel).trace;
        assert t == [n] + rest;
        forall i | 0 < i < |t| - 1
          ensures t[i + 1] == succ(t[i])
        {
          assert t[i] == rest[i - 1] && t[i + 1] == rest[i];
        }
      } else {
        RunLastStep(g, n, s, fuel);
      }
    }
  }

  /** A property of states that every successful step preserves holds of the
      state every run ends with. */
  lemma {:induction false} RunPreserves<N, S, E>(g: Graph<N, S, E>, inv: S -> bool, n: N, s: S, fuel: nat)
    requires forall x, y :: inv(y) && Step(g, x, y).Success? ==> inv(Step(g, x, y).value.state)
    requires inv(s)
    ensures inv(Run(g, n, s, fuel).state)
    decreases fuel
  {
    if fuel > 0 {
      var step := Step(g, n, s);
      if step.Success? && step.value.next.To? {
        RunUnfold(g, n, s, fuel);
        RunPreserves(g, inv, step.value.next.node, step.value.state, fuel - 1);
      } else {
        RunLastStep(g, n, s, fuel);
      }
    }
  }

  /** If the router reaches `END` only out of nodes satisfying `last`, a run
      that completes executed such a node last. */
  lemma {:induction false} RunEndsAt<N(!new), S(!new), E>(g: Graph<N, S, E>, last: N -> bool, n: N, s: S, fuel: nat)
    requires forall x, y :: g.route(x, y) == Success(End) ==> last(x)
    ensures var e := Run(g, n, s, fuel);
      e.status.Completed? ==> |e.trace| > 0 && last(e.trace[|e.trace| - 1])
    decreases fuel
  {
    if fuel > 0 {
      var step := Step(g, n, s);
      if step.Success? && step.value.next.To? {
        RunUnfold(g, n, s, fuel);
        RunEndsAt(g, last, step.value.next.node, step.value.state, fuel - 1);
      } else {
        RunLastStep(g, n, s, fuel);
        if step.Success? {
          assert g.route(n, step.value.state) == Success(End);
          assert Run(g, n, s, fuel).trace == [n];
        }
      }
    }
  }
}
