/** The edge table of the legal-research graph: four fixed edges and one
    conditional edge out of `build_argument`, decided by `should_continue`. */
module Graph {
  import opened Wrappers
  import opened AgentStates
  import opened Nodes
  import opened Engine

  /** The two values `should_continue` returns. */
  datatype Branch = EndBranch | CritiqueBranch

  /** The entry point of the graph. */
  const Entry: Node := Plan

  /** The mapping given with the conditional edge: `END` to the terminal
      sentinel, `"critique_node"` to the critique node. */
  const BranchTargets: map<Branch, Target<Node>> := map[EndBranch := End, CritiqueBranch := To(CritiqueNode)]

  /** `should_continue`: stop once the revision counter has passed the maximum.
      The counter is read first, then the maximum; either may be absent. */
  function ShouldContinue(s: State): (r: Result<Branch, Error>)
    ensures r.Success? <==> s.revisionNumber.Some? && s.maxRevisions.Some?
    ensures r.Failure? ==> r.error == (if s.revisionNumber.None? then KeyError(RevisionNumber)
                                       else KeyError(MaxRevisions))
    ensures r == Success(EndBranch) <==>
      s.revisionNumber.Some? && s.maxRevisions.Some? && s.revisionNumber.value > s.maxRevisions.value
    ensures r == Success(CritiqueBranch) <==>
      s.revisionNumber.Some? && s.maxRevisions.Some? && s.revisionNumber.value <= s.maxRevisions.value
  {
    var revision :- Subscript(s.revisionNumber, RevisionNumber);
    var maximum :- Subscript(s.maxRevisions, MaxRevisions);
    if revision > maximum then Success(EndBranch) else Success(CritiqueBranch)
  }

  /** The next target after node `n`, decided on the state after `n`'s update
      has been merged. */
  function Route(n: Node, s: State): (r: Result<Target<Node>, Error>)
    ensures r == Success(End) ==> n == BuildArgument
    ensures r.Failure? ==> n == BuildArgument && ShouldContinue(s).Failure? && r.error == ShouldContinue(s).error
    ensures n == CritiqueNode ==> r == Success(To(BuildArgument))
  {
    match n
    case Plan => Success(To(FindCases))
    case FindCases => Success(To(Summarize))
    case Summarize => Success(To(BuildArgument))
    case CritiqueNode => Success(To(BuildArgument))
    case BuildArgument =>
      var branch :- ShouldContinue(s);
      if branch in BranchTargets then Success(BranchTargets[branch]) else Failure(UnmappedRouterResult)
  }

  /** Out of `build_argument` the run ends exactly when the counter exceeds the
      maximum and goes to the critique node exactly when it does not; the
      mapping covers both outcomes, so no lookup fails. */
  lemma BuildArgumentRouting(s: State)
    ensures Route(BuildArgument, s) == Success(End) <==>
      s.revisionNumber.Some? && s.maxRevisions.Some? && s.revisionNumber.value > s.maxRevisions.value
    ensures Route(BuildArgument, s) == Success(To(CritiqueNode)) <==>
      s.revisionNumber.Some? && s.maxRevisions.Some? && s.revisionNumber.value <= s.maxRevisions.value
    ensures Route(BuildArgument, s) != Failure(UnmappedRouterResult)
  {
  }

  /** The compiled graph: the five node functions, the overwrite merge (no
      field has a reducer) and the edge table. */
  function LegalGraph(sv: Services): Graph<Node, State, Error> {
    Graph((n, s) => NodeUpdate(sv, n, s), Merge, Route)
  }

  /** One step of the compiled graph: every field the node does not write keeps
      its value, every field it writes is present afterwards, and only
      `build_argument` can end the run. */
  lemma StepFrame(sv: Services, n: Node, s: State)
    ensures var r := Step(LegalGraph(sv), n, s);
      r.Success? ==>
        && (forall f :: f !in Writes(n) ==> Get(r.value.state, f) == Get(s, f))
        && (forall f :: f in Writes(n) ==> Get(r.value.state, f).Some?)
        && (r.value.next == End ==> n == BuildArgument)
  {
    var r := Step(LegalGraph(sv), n, s);
    if r.Success? {
      var u := NodeUpdate(sv, n, s).value;
      assert r.value.state == Merge(s, u);
      UpdateNames(sv, n, s);
      MergeOverlay(s, u);
    }
  }

  /** The node an executed node hands over to when the run does not end there:
      the wiring of the graph with `END` left out. */
  function Successor(n: Node): Node {
    match n
    case Plan => FindCases
    case FindCases => Summarize
    case Summarize => BuildArgument
    case BuildArgument => CritiqueNode
    case CritiqueNode => BuildArgument
  }

  /** Every edge leads from a node to its successor. */
  lemma RouteWiring()
    ensures forall n, s :: Route(n, s).Success? && Route(n, s).value.To? ==> Route(n, s).value.node == Successor(n)
  {
  }

  /** Whatever the input, the services and the fuel, each node a run executes
      is followed by its successor in the wiring; `critique_node` in
      particular is always followed by `build_argument`. */
  lemma RunFollowsWiring(sv: Services, n: Node, s: State, fuel: nat)
    ensures var t := Run(LegalGraph(sv), n, s, fuel).trace;
      forall i :: 0 <= i < |t| - 1 ==> t[i + 1] == Successor(t[i])
  {
    RouteWiring();
    RunFollowsEdges(LegalGraph(sv), Successor, n, s, fuel);
  }

  /** A run that completes has executed `build_argument` last. */
  lemma CompletedAfterBuild(sv: Services, n: Node, s: State, fuel: nat)
    ensures var e := Run(LegalGraph(sv), n, s, fuel);
      e.status.Completed? ==> |e.trace| > 0 && e.trace[|e.trace| - 1] == BuildArgument
  {
    RunEndsAt(LegalGraph(sv), x => x == BuildArgument, n, s, fuel);
  }

  /** The node at position `i` of a walk along the wiring from `plan`:
      `plan`, `find_cases`, `summarize`, then `build_argument` and
      `critique_node` alternating. */
  function PatternAt(i: nat): Node {
    if i == 0 then Plan
    else if i == 1 then FindCases
    else if i == 2 then Summarize
    else if (i - 3) % 2 == 0 then BuildArgument
    else CritiqueNode
  }

  /** A walk along the wiring that starts at `plan` is the pattern. */
  lemma {:induction false} WiringIsPattern(t: seq<Node>)
    requires |t| > 0 ==> t[0] == Plan
    requires forall i :: 0 <= i < |t| - 1 ==> t[i + 1] == Successor(t[i])
    ensures forall i :: 0 <= i < |t| ==> t[i] == PatternAt(i)
  {
    if |t| > 1 {
      WiringIsPattern(t[..|t| - 1]);
      var j := |t| - 1;
      assert t[j] == Successor(t[j - 1]);
      assert t[j - 1] == t[..|t| - 1][j - 1] == PatternAt(j - 1);
    }
  }

  /** Every run from the entry point, however it ends, visits `plan`,
      `find_cases`, `summarize`, then `build_argument` and `critique_node`
      alternating. */
  lemma RunFollowsPattern(sv: Services, s: State, fuel: nat)
    ensures var t := Run(LegalGraph(sv), Entry, s, fuel).trace;
      forall i :: 0 <= i < |t| ==> t[i] == PatternAt(i)
  {
    RunShape(LegalGraph(sv), Entry, s, fuel);
    RunFollowsWiring(sv, Entry, s, fuel);
    WiringIsPattern(Run(LegalGraph(sv), Entry, s, fuel).trace);
  }

  /** No node writes the question or the maximum, so every run ends with the
      values it started with. */
  lemma RunPreservesInputs(sv: Services, n: Node, s: State, fuel: nat)
    ensures Run(LegalGraph(sv), n, s, fuel).state.legalQuestion == s.legalQuestion
    ensures Run(LegalGraph(sv), n, s, fuel).state.maxRevisions == s.maxRevisions
  {
    var inv := (t: State) => t.legalQuestion == s.legalQuestion && t.maxRevisions == s.maxRevisions;
    forall x, y | inv(y) && Step(LegalGraph(sv), x, y).Success?
      ensures inv(Step(LegalGraph(sv), x, y).value.state)
    {
      StepFrame(sv, x, y);
      var t := Step(LegalGraph(sv), x, y).value.state;
      assert Get(t, LegalQuestion) == Get(y, LegalQuestion);
      assert Get(t, MaxRevisions) == Get(y, MaxRevisions);
    }
    RunPreserves(LegalGraph(sv), inv, n, s, fuel);
  }
}
