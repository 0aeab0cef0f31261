/** What a run of the legal-research graph does, end to end: which nodes it
    visits, how often the revision loop goes round, when it stops, what it
    leaves in the state, and how it fails when an input key is missing. */
module RevisionLoop {
  import opened Wrappers
  import opened AgentStates
  import opened Nodes
  import opened Graph
  import opened Engine

  /** The revision counter as `argument_builder_node` first reads it. */
  function StartRevision(s: State): int {
    s.revisionNumber.GetOr(1)
  }

  /** How many times `build_argument` runs before `should_continue` ends the
      run: once at least, and otherwise until the counter passes the maximum. */
  function Builds(s: State): nat
    requires s.maxRevisions.Some?
  {
    var k := s.maxRevisions.value - StartRevision(s) + 1;
    if k > 1 then k else 1
  }

  /** The input keys a completed run needs: the question (read by the first
      node), the sources (read by `find_cases` before anything writes them) and
      the maximum (read by `should_continue`). Every other key a node reads is
      written by an earlier node. */
  predicate Runnable(s: State) {
    s.legalQuestion.Some? && s.sources.Some? && s.maxRevisions.Some?
  }

  /** The number of node executions of a completed run. */
  function StepsNeeded(s: State): nat
    requires s.maxRevisions.Some?
  {
    2 * Builds(s) + 2
  }

  /** `build_argument`, then `k` rounds of `critique_node` and `build_argument`. */
  function Revisions(k: nat): (r: seq<Node>)
    ensures |r| == 2 * k + 1
    ensures r[0] == BuildArgument && r[|r| - 1] == BuildArgument
  {
    if k == 0 then [BuildArgument] else [BuildArgument, CritiqueNode] + Revisions(k - 1)
  }

  /** `k` rounds hold `k + 1` builds, `k` critiques and nothing else. */
  lemma {:induction false} RevisionsCounts(k: nat)
    ensures multiset(Revisions(k))[BuildArgument] == k + 1 && multiset(Revisions(k))[CritiqueNode] == k
    ensures multiset(Revisions(k))[Plan] == 0 && multiset(Revisions(k))[FindCases] == 0
    ensures multiset(Revisions(k))[Summarize] == 0
  {
    if k > 0 {
      var rest := Revisions(k - 1);
      RevisionsCounts(k - 1);
      assert Revisions(k) == [BuildArgument, CritiqueNode] + rest;
      assert multiset(Revisions(k)) == multiset{BuildArgument, CritiqueNode} + multiset(rest);
    }
  }

  /** The trace of a completed run with `k` critiques. */
  function ExpectedTrace(k: nat): seq<Node> {
    [Plan, FindCases, Summarize] + Revisions(k)
  }

  /** The state when `build_argument` is first reached: the plan, the collected
      sources and their summaries written over the input. */
  function PrefixState(sv: Services, s: State): State
    requires s.legalQuestion.Some? && s.sources.Some?
  {
    var question := s.legalQuestion.value;
    var plan := sv.complete(ResearchPlanPrompt, question);
    var sources := s.sources.value + SearchAll(sv, Queries(sv, question, plan));
    s.(researchPlan := Some(plan), sources := Some(sources), caseSummaries := Some(SummarizeAll(sv, sources)))
  }

  /** `argument_builder_node` then `should_continue` on a state holding what
      they read. */
  lemma BuildStep(sv: Services, s: State)
    requires s.legalQuestion.Some? && s.researchPlan.Some? && s.caseSummaries.Some? && s.maxRevisions.Some?
    ensures var draft := ArgumentText(sv, s.legalQuestion.value, s.researchPlan.value, s.caseSummaries.value);
      var r := StartRevision(s);
      Step(LegalGraph(sv), BuildArgument, s) == Success(Transition(
        s.(argumentDraft := Some(draft), revisionNumber := Some(r + 1)),
        if r + 1 > s.maxRevisions.value then End else To(CritiqueNode)))
  {
  }

  /** `critique_node` on a state holding a draft. */
  lemma CritiqueStep(sv: Services, s: State)
    requires s.argumentDraft.Some?
    ensures Step(LegalGraph(sv), CritiqueNode, s) == Success(Transition(
      s.(critique := Some(sv.complete(CritiquePrompt, s.argumentDraft.value))), To(BuildArgument)))
  {
  }

  /** `research_plan_node` on a state holding the question. */
  lemma PlanStep(sv: Services, s: State)
    requires s.legalQuestion.Some?
    ensures Step(LegalGraph(sv), Plan, s) == Success(Transition(
      s.(researchPlan := Some(sv.complete(ResearchPlanPrompt, s.legalQuestion.value))), To(FindCases)))
  {
  }

  /** `case_finder_node` on a state holding the question, the plan and sources. */
  lemma FindStep(sv: Services, s: State)
    requires s.legalQuestion.Some? && s.researchPlan.Some? && s.sources.Some?
    ensures Step(LegalGraph(sv), FindCases, s) == Success(Transition(
      s.(sources := Some(s.sources.value + SearchAll(sv, Queries(sv, s.legalQuestion.value, s.researchPlan.value)))),
      To(Summarize)))
  {
  }

  /** `case_summarizer_node` on a state holding sources. */
  lemma SummarizeStep(sv: Services, s: State)
    requires s.sources.Some?
    ensures Step(LegalGraph(sv), Summarize, s) == Success(Transition(
      s.(caseSummaries := Some(SummarizeAll(sv, s.sources.value))), To(BuildArgument)))
  {
  }

  /** The first three nodes run unconditionally, one after the other. */
  lemma RunPrefix(sv: Services, s: State, fuel: nat)
    requires s.legalQuestion.Some? && s.sources.Some? && fuel >= 3
    ensures Run(LegalGraph(sv), Plan, s, fuel) ==
      Prepend([Plan, FindCases, Summarize], Run(LegalGraph(sv), BuildArgument, PrefixState(sv, s), fuel - 3))
  {
    var question := s.legalQuestion.value;
    var plan := sv.complete(ResearchPlanPrompt, question);
    var sources := s.sources.value + SearchAll(sv, Queries(sv, question, plan));
    var s1 := s.(researchPlan := Some(plan));
    var s2 := s1.(sources := Some(sources));
    var s3 := PrefixState(sv, s);
    PlanStep(sv, s);
    RunUnfold(LegalGraph(sv), Plan, s, fuel);
    FindStep(sv, s1);
    RunUnfold(LegalGraph(sv), FindCases, s1, fuel - 1);
    SummarizeStep(sv, s2);
    RunUnfold(LegalGraph(sv), Summarize, s2, fuel - 2);
    var rest := Run(LegalGraph(sv), BuildArgument, s3, fuel - 3);
    PrependTwice([FindCases], [Summarize], rest);
    PrependTwice([Plan], [FindCases] + [Summarize], rest);
    assert [Plan] + ([FindCases] + [Summarize]) == [Plan, FindCases, Summarize];
  }

  /** The state the revision loop leaves: the draft every build writes (it
      depends only on the question, the plan and the summaries), the counter
      advanced once per build, and the critique of that draft when there was
      a second build. */
  function LoopState(sv: Services, s: State): State
    requires s.legalQuestion.Some? && s.researchPlan.Some? && s.caseSummaries.Some? && s.maxRevisions.Some?
  {
    var draft := ArgumentText(sv, s.legalQuestion.value, s.researchPlan.value, s.caseSummaries.value);
    s.(argumentDraft := Some(draft),
       revisionNumber := Some(StartRevision(s) + Builds(s)),
       critique := if Builds(s) == 1 then s.critique else Some(sv.complete(CritiquePrompt, draft)))
  }

  /** The state after one round of the loop, `build_argument` then
      `critique_node`: the draft, the advanced counter and the draft's
      critique written over `s`. */
  function RoundState(sv: Services, s: State): State
    requires s.legalQuestion.Some? && s.researchPlan.Some? && s.caseSummaries.Some?
  {
    var draft := ArgumentText(sv, s.legalQuestion.value, s.researchPlan.value, s.caseSummaries.value);
    s.(argumentDraft := Some(draft), revisionNumber := Some(StartRevision(s) + 1),
       critique := Some(sv.complete(CritiquePrompt, draft)))
  }

  /** A build that leaves the counter past the maximum is the last step. */
  lemma LastRound(sv: Services, s: State, fuel: nat)
    requires s.legalQuestion.Some? && s.researchPlan.Some? && s.caseSummaries.Some? && s.maxRevisions.Some?
    requires fuel >= 1 && StartRevision(s) + 1 > s.maxRevisions.value
    ensures Run(LegalGraph(sv), BuildArgument, s, fuel) == Execution([BuildArgument], LoopState(sv, s), Completed)
  {
  }

  /** A build that leaves the counter at most the maximum is followed by a
      critique and another build. */
  lemma NextRound(sv: Services, s: State, fuel: nat)
    requires s.legalQuestion.Some? && s.researchPlan.Some? && s.caseSummaries.Some? && s.maxRevisions.Some?
    requires fuel >= 2 && StartRevision(s) + 1 <= s.maxRevisions.value
    ensures Run(LegalGraph(sv), BuildArgument, s, fuel) ==
      Prepend([BuildArgument, CritiqueNode], Run(LegalGraph(sv), BuildArgument, RoundState(sv, s), fuel - 2))
  {
    var draft := ArgumentText(sv, s.legalQuestion.value, s.researchPlan.value, s.caseSummaries.value);
    var s1 := s.(argumentDraft := Some(draft), revisionNumber := Some(StartRevision(s) + 1));
    BuildStep(sv, s);
    RunUnfold(LegalGraph(sv), BuildArgument, s, fuel);
    CritiqueStep(sv, s1);
    RunUnfold(LegalGraph(sv), CritiqueNode, s1, fuel - 1);
    var rest := Run(LegalGraph(sv), BuildArgument, RoundState(sv, s), fuel - 2);
    PrependTwice([BuildArgument], [CritiqueNode], rest);
    assert [BuildArgument] + [CritiqueNode] == [BuildArgument, CritiqueNode];
  }

  /** The revision loop from `build_argument`: it runs `Builds(s)` times, with a
      critique between consecutive builds, and ends at `END` in `LoopState`. */
  lemma {:induction false} RevisionLoopRun(sv: Services, s: State, fuel: nat)
    requires s.legalQuestion.Some? && s.researchPlan.Some? && s.caseSummaries.Some? && s.maxRevisions.Some?
    requires fuel >= 2 * Builds(s) - 1
    ensures Run(LegalGraph(sv), BuildArgument, s, fuel) ==
      Execution(Revisions(Builds(s) - 1), LoopState(sv, s), Completed)
    decreases Builds(s)
  {
    if StartRevision(s) + 1 > s.maxRevisions.value {
      LastRound(sv, s, fuel);
    } else {
      var s2 := RoundState(sv, s);
      NextRound(sv, s, fuel);
      assert Builds(s2) == Builds(s) - 1;
      assert LoopState(sv, s2) == LoopState(sv, s);
      RevisionLoopRun(sv, s2, fuel - 2);
      assert Revisions(Builds(s) - 1) == [BuildArgument, CritiqueNode] + Revisions(Builds(s2) - 1);
    }
  }

  /** The whole run on an input holding the question, the sources and the
      maximum: the three unconditional nodes, then the revision loop. */
  lemma FullRun(sv: Services, s: State, fuel: nat)
    requires Runnable(s) && fuel >= StepsNeeded(s)
    ensures Run(LegalGraph(sv), Plan, s, fuel) ==
      Execution(ExpectedTrace(Builds(s) - 1), LoopState(sv, PrefixState(sv, s)), Completed)
  {
    var s3 := PrefixState(sv, s);
    PrefixKeeps(sv, s);
    var k := Builds(s) - 1;
    RunPrefix(sv, s, fuel);
    RevisionLoopRun(sv, s3, fuel - 3);
    var loop := Execution(Revisions(k), LoopState(sv, s3), Completed);
    assert Run(LegalGraph(sv), Plan, s, fuel) == Prepend([Plan, FindCases, Summarize], loop);
  }

  /** The first three nodes keep the question, the counter and the maximum,
      and leave the plan and the summaries that the loop reads. */
  lemma PrefixKeeps(sv: Services, s: State)
    requires s.legalQuestion.Some? && s.sources.Some?
    ensures var s3 := PrefixState(sv, s);
      && s3.legalQuestion == s.legalQuestion && s3.revisionNumber == s.revisionNumber
      && s3.maxRevisions == s.maxRevisions && s3.researchPlan.Some? && s3.caseSummaries.Some?
  {
  }

  /** A run on an input holding the question, the sources and the maximum, with
      fuel for `StepsNeeded` steps, reaches `END` after visiting `plan`,
      `find_cases`, `summarize`, then `build_argument` followed by
      `Builds - 1` rounds of `critique_node` and `build_argument`. */
  lemma RunCompletes(sv: Services, s: State, fuel: nat)
    requires Runnable(s) && fuel >= StepsNeeded(s)
    ensures var e := Run(LegalGraph(sv), Plan, s, fuel);
      && e.status == Completed
      && e.trace == ExpectedTrace(Builds(s) - 1)
      && |e.trace| == StepsNeeded(s)
  {
    FullRun(sv, s, fuel);
  }

  /** In that run the loop body `build_argument` executes `max(1, m - r0 + 1)`
      times, `critique_node` one time fewer, every other node once. */
  lemma RunCounts(sv: Services, s: State, fuel: nat)
    requires Runnable(s) && fuel >= StepsNeeded(s)
    ensures var t := Run(LegalGraph(sv), Plan, s, fuel).trace;
      var m, r0 := s.maxRevisions.value, StartRevision(s);
      && multiset(t)[BuildArgument] == (if m - r0 + 1 > 1 then m - r0 + 1 else 1)
      && multiset(t)[CritiqueNode] == multiset(t)[BuildArgument] - 1
      && multiset(t)[Plan] == 1 && multiset(t)[FindCases] == 1 && multiset(t)[Summarize] == 1
  {
    var t := Run(LegalGraph(sv), Plan, s, fuel).trace;
    var k := Builds(s) - 1;
    RunCompletes(sv, s, fuel);
    ExpectedTraceCounts(k);
    var counts := multiset(ExpectedTrace(k));
    assert multiset(t) == counts;
  }

  /** The trace with `k` critiques holds `k + 1` builds, `k` critiques and one
      of each other node. */
  lemma ExpectedTraceCounts(k: nat)
    ensures var m := multiset(ExpectedTrace(k));
      && m[BuildArgument] == k + 1 && m[CritiqueNode] == k
      && m[Plan] == 1 && m[FindCases] == 1 && m[Summarize] == 1
  {
    RevisionsCounts(k);
    assert multiset(ExpectedTrace(k)) == multiset([Plan, FindCases, Summarize]) + multiset(Revisions(k));
  }

  /** The final state of such a run: question and maximum as given, the
      collected sources after the given ones, one summary per source, the
      counter one past the maximum (or one past its start when that already
      exceeds the maximum), and the draft the model writes for those inputs. */
  lemma RunResult(sv: Services, s: State, fuel: nat)
    requires Runnable(s) && fuel >= StepsNeeded(s)
    ensures var e := Run(LegalGraph(sv), Plan, s, fuel);
      var question := s.legalQuestion.value;
      var plan := sv.complete(ResearchPlanPrompt, question);
      var sources := s.sources.value + SearchAll(sv, Queries(sv, question, plan));
      var summaries := SummarizeAll(sv, sources);
      var m := s.maxRevisions.value;
      && e.state.legalQuestion == s.legalQuestion
      && e.state.maxRevisions == s.maxRevisions
      && e.state.researchPlan == Some(plan)
      && e.state.sources == Some(sources)
      && e.state.caseSummaries == Some(summaries)
      && |summaries| == |sources|
      && e.state.argumentDraft == Some(ArgumentText(sv, question, plan, summaries))
      && e.state.revisionNumber.Some?
      && e.state.revisionNumber.value > m
      && (StartRevision(s) <= m ==> e.state.revisionNumber.value == m + 1)
      && (StartRevision(s) > m ==> e.state.revisionNumber.value == StartRevision(s) + 1)
  {
    FullRun(sv, s, fuel);
    PrefixKeeps(sv, s);
  }

  /** With less fuel than `StepsNeeded` the same run stops early, having
      executed exactly the first `fuel` nodes of the completed trace and with
      the next one still to run. */
  lemma RunStopsEarly(sv: Services, s: State, fuel: nat)
    requires Runnable(s) && fuel < StepsNeeded(s)
    ensures var e := Run(LegalGraph(sv), Plan, s, fuel);
      && e.status == OutOfSteps(ExpectedTrace(Builds(s) - 1)[fuel])
      && e.trace == ExpectedTrace(Builds(s) - 1)[..fuel]
  {
    var full := StepsNeeded(s);
    var e := Run(LegalGraph(sv), Plan, s, fuel);
    RunCompletes(sv, s, full);
    if !e.status.OutOfSteps? {
      FuelMonotone(LegalGraph(sv), Plan, s, fuel, full);
      assert false;
    }
    RunShape(LegalGraph(sv), Plan, s, fuel);
    RunResume(LegalGraph(sv), Plan, s, fuel, full - fuel);
    var rest := Run(LegalGraph(sv), e.status.next, e.state, full - fuel);
    assert Run(LegalGraph(sv), Plan, s, full).trace == e.trace + rest.trace;
    assert |rest.trace| > 0;
    RunShape(LegalGraph(sv), e.status.next, e.state, full - fuel);
    assert rest.trace[0] == e.status.next;
    assert Run(LegalGraph(sv), Plan, s, full).trace[fuel] == rest.trace[0];
    assert Run(LegalGraph(sv), Plan, s, full).trace[..fuel] == e.trace;
  }

  /** Without the question the first node fails, before anything is written. */
  lemma MissingQuestion(sv: Services, s: State, fuel: nat)
    requires s.legalQuestion.None? && fuel > 0
    ensures Run(LegalGraph(sv), Plan, s, fuel) == Execution([], s, Failed(Plan, KeyError(LegalQuestion)))
  {
  }

  /** Without input sources `find_cases` fails after the plan is written. */
  lemma MissingSources(sv: Services, s: State, fuel: nat)
    requires s.legalQuestion.Some? && s.sources.None? && fuel >= 2
    ensures var plan := sv.complete(ResearchPlanPrompt, s.legalQuestion.value);
      Run(LegalGraph(sv), Plan, s, fuel) ==
      Execution([Plan], s.(researchPlan := Some(plan)), Failed(FindCases, KeyError(Sources)))
  {
  }

  /** Without the maximum the first `should_continue` fails; the first build's
      update is not kept. */
  lemma MissingMaximum(sv: Services, s: State, fuel: nat)
    requires s.legalQuestion.Some? && s.sources.Some? && s.maxRevisions.None? && fuel >= 4
    ensures Run(LegalGraph(sv), Plan, s, fuel) ==
      Execution([Plan, FindCases, Summarize], PrefixState(sv, s), Failed(BuildArgument, KeyError(MaxRevisions)))
  {
    RunPrefix(sv, s, fuel);
    var s3 := PrefixState(sv, s);
    assert Step(LegalGraph(sv), BuildArgument, s3) == Failure(KeyError(MaxRevisions));
  }

  /** A run reaches `END` exactly when the input holds the question, the sources
      and the maximum and the fuel covers `StepsNeeded`. */
  lemma CompletesIff(sv: Services, s: State, fuel: nat)
    ensures Run(LegalGraph(sv), Plan, s, fuel).status == Completed <==> Runnable(s) && fuel >= StepsNeeded(s)
  {
    if Runnable(s) {
      if fuel >= StepsNeeded(s) {
        RunCompletes(sv, s, fuel);
      } else {
        RunStopsEarly(sv, s, fuel);
      }
    } else if Run(LegalGraph(sv), Plan, s, fuel).status == Completed {
      var more := if fuel >= 4 then fuel else 4;
      FuelMonotone(LegalGraph(sv), Plan, s, fuel, more);
      if s.legalQuestion.None? {
        MissingQuestion(sv, s, more);
      } else if s.sources.None? {
        MissingSources(sv, s, more);
      } else {
        MissingMaximum(sv, s, more);
      }
      assert false;
    }
  }

  /** Every run from the entry point with fuel for four steps, and for
      `StepsNeeded` steps when the maximum is given, stops at `END` or on an
      error: the revision loop cannot run on for ever. */
  lemma Terminates(sv: Services, s: State, fuel: nat)
    requires fuel >= 4 && (s.maxRevisions.Some? ==> fuel >= StepsNeeded(s))
    ensures !Run(LegalGraph(sv), Plan, s, fuel).status.OutOfSteps?
  {
    if s.legalQuestion.None? {
      MissingQuestion(sv, s, fuel);
    } else if s.sources.None? {
      MissingSources(sv, s, fuel);
    } else if s.maxRevisions.None? {
      MissingMaximum(sv, s, fuel);
    } else {
      RunCompletes(sv, s, fuel);
    }
  }

  /** The step limit the runtime applies when the caller sets none. */
  const DefaultRecursionLimit: nat := 25

  /** Under the default step limit, a runnable input that needs more steps
      than the limit is cut off, with a node still to run, instead of
      reaching `END`. */
  lemma ExceedsRecursionLimit(sv: Services, s: State)
    requires Runnable(s) && StepsNeeded(s) > DefaultRecursionLimit
    ensures Run(LegalGraph(sv), Plan, s, DefaultRecursionLimit).status.OutOfSteps?
  {
    RunStopsEarly(sv, s, DefaultRecursionLimit);
  }

  /** The input of the example run at the bottom of the source. */
  const ExampleInput: State := Empty.(
    legalQuestion := Some("What is the standard for summary judgment in federal court?"),
    maxRevisions := Some(2),
    revisionNumber := Some(1),
    sources := Some([]),
    caseSummaries := Some([]))

  /** The example input needs two builds, so six steps. */
  lemma ExampleBuilds()
    ensures Runnable(ExampleInput) && Builds(ExampleInput) == 2 && StepsNeeded(ExampleInput) == 6
  {
  }

  /** The example run reaches `END` exactly when it may take six steps. */
  lemma ExampleCompletes(sv: Services, fuel: nat)
    ensures Run(LegalGraph(sv), Plan, ExampleInput, fuel).status == Completed <==> fuel >= 6
  {
    ExampleBuilds();
    CompletesIff(sv, ExampleInput, fuel);
  }

  /** The example run builds the argument twice and critiques it once between
      the two builds, whatever the services answer, and ends with the counter
      at 3. */
  lemma ExampleRun(sv: Services, fuel: nat)
    requires fuel >= 6
    ensures var e := Run(LegalGraph(sv), Plan, ExampleInput, fuel);
      && e.trace == [Plan, FindCases, Summarize, BuildArgument, CritiqueNode, BuildArgument]
      && e.state.revisionNumber == Some(3)
  {
    ExampleBuilds();
    RunCompletes(sv, ExampleInput, fuel);
    RunResult(sv, ExampleInput, fuel);
    assert ExpectedTrace(1) == [Plan, FindCases, Summarize, BuildArgument, CritiqueNode, BuildArgument];
  }
}
