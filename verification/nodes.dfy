/** The five node functions of the legal-research graph, each a map from the
    state snapshot to a partial update.

    The language model and the web-search service are opaque: `Services`
    holds them as functions, and a node's update is determined by the state
    and by what those functions answer. */
module Nodes {
  import opened Wrappers
  import opened AgentStates
  import opened Text

  /** The five system prompts; their text has no behaviour of its own. */
  datatype Prompt =
    | ResearchPlanPrompt
    | CaseFinderPrompt
    | CaseSummarizerPrompt
    | ArgumentBuilderPrompt
    | CritiquePrompt

  /** The external collaborators.
      - `complete(p, h)`: the content of the model's reply to the system
        message `p` followed by the human message `h`;
      - `structured(p, h)`: the `queries` list of the structured reply;
      - `search(q, k)`: the `content` of each result of a web search for `q`
        asked for at most `k` results, in the service's order. */
  datatype Services = Services(
    complete: (Prompt, string) -> string,
    structured: (Prompt, string) -> seq<string>,
    search: (string, nat) -> seq<string>)

  /** `max_results` passed to every search. */
  const MaxResults: nat := 2

  /** The separator between case summaries in the argument builder's input. */
  const SummarySeparator: string := "\n\n"

  /** The nodes, by the names they are registered under. */
  datatype Node = Plan | FindCases | Summarize | BuildArgument | CritiqueNode

  /** The keys each node's partial update names. */
  function Writes(n: Node): set<Field> {
    match n
    case Plan => {ResearchPlan}
    case FindCases => {Sources}
    case Summarize => {CaseSummaries}
    case BuildArgument => {ArgumentDraft, RevisionNumber}
    case CritiqueNode => {Critique}
  }

  /** The human message of the query-generation call. */
  function FinderMessage(question: string, plan: string): string {
    "Question: " + question + "\nPlan: " + plan
  }

  /** The human message of the argument-building call. */
  function BuilderMessage(question: string, plan: string, content: string): string {
    "Question: " + question + "\nPlan: " + plan + "\n\n" + content
  }

  /** The search results' contents for every query, in query order and, within
      a query, in result order. */
  function SearchAll(sv: Services, queries: seq<string>): seq<string> {
    if |queries| == 0 then []
    else sv.search(queries[0], MaxResults) + SearchAll(sv, queries[1..])
  }

  /** Searching a split list of queries is searching each part in turn. */
  lemma {:induction false} SearchAllAppend(sv: Services, a: seq<string>, b: seq<string>)
    ensures SearchAll(sv, a + b) == SearchAll(sv, a) + SearchAll(sv, b)
  {
    if |a| == 0 {
      assert a + b == b;
    } else {
      assert (a + b)[1..] == a[1..] + b;
      SearchAllAppend(sv, a[1..], b);
    }
  }

  /** A content is collected exactly when some query's search returned it. */
  lemma {:induction false} SearchAllMembers(sv: Services, queries: seq<string>, x: string)
    ensures x in SearchAll(sv, queries) <==>
            exists k :: 0 <= k < |queries| && x in sv.search(queries[k], MaxResults)
  {
    if |queries| > 0 {
      SearchAllMembers(sv, queries[1..], x);
      if x in SearchAll(sv, queries[1..]) {
        var k :| 0 <= k < |queries[1..]| && x in sv.search(queries[1..][k], MaxResults);
        assert x in sv.search(queries[k + 1], MaxResults);
      }
      if exists k :: 0 <= k < |queries| && x in sv.search(queries[k], MaxResults) {
        var k :| 0 <= k < |queries| && x in sv.search(queries[k], MaxResults);
        if k > 0 {
          assert x in sv.search(queries[1..][k - 1], MaxResults);
        }
      }
    }
  }

  /** When the service honours `max_results`, one call of the node adds at most
      two sources per query. */
  lemma {:induction false} SearchAllBound(sv: Services, queries: seq<string>)
    requires forall k :: 0 <= k < |queries| ==> |sv.search(queries[k], MaxResults)| <= MaxResults
    ensures |SearchAll(sv, queries)| <= MaxResults * |queries|
  {
    if |queries| > 0 {
      assert forall k :: 0 <= k < |queries[1..]| ==> queries[1..][k] == queries[k + 1];
      SearchAllBound(sv, queries[1..]);
    }
  }

  /** `case_finder_node`'s loops: start from the prior sources and append every
      search result's content, query by query. */
  method CollectSources(sv: Services, prior: seq<string>, queries: seq<string>) returns (sources: seq<string>)
    ensures sources == prior + SearchAll(sv, queries)
  {
    sources := prior;
    var i := 0;
    while i < |queries|
      invariant 0 <= i <= |queries|
      invariant sources == prior + SearchAll(sv, queries[..i])
    {
      var results := sv.search(queries[i], MaxResults);
      var j := 0;
      while j < |results|
        invariant 0 <= j <= |results|
        invariant sources == prior + SearchAll(sv, queries[..i]) + results[..j]
      {
        sources := sources + [results[j]];
        j := j + 1;
      }
      assert results[..j] == results;
      assert queries[..i + 1] == queries[..i] + [queries[i]];
      SearchAllAppend(sv, queries[..i], [queries[i]]);
      assert SearchAll(sv, [queries[i]]) == results + SearchAll(sv, []);
      i := i + 1;
    }
    assert queries[..i] == queries;
  }

  /** One summary per source, the `i`-th summarizing the `i`-th source. */
  function SummarizeAll(sv: Services, sources: seq<string>): (r: seq<string>)
    ensures |r| == |sources|
    ensures forall i :: 0 <= i < |sources| ==> r[i] == sv.complete(CaseSummarizerPrompt, sources[i])
  {
    if |sources| == 0 then []
    else [sv.complete(CaseSummarizerPrompt, sources[0])] + SummarizeAll(sv, sources[1..])
  }

  /** `case_summarizer_node`'s loop: one model call per source, appended in order. */
  method SummarizeSources(sv: Services, sources: seq<string>) returns (summaries: seq<string>)
    ensures summaries == SummarizeAll(sv, sources)
  {
    summaries := [];
    var i := 0;
    while i < |sources|
      invariant 0 <= i <= |sources|
      invariant |summaries| == i
      invariant forall k :: 0 <= k < i ==> summaries[k] == sv.complete(CaseSummarizerPrompt, sources[k])
    {
      summaries := summaries + [sv.complete(CaseSummarizerPrompt, sources[i])];
      i := i + 1;
    }
  }

  /** The queries the model proposes for a question and plan. */
  function Queries(sv: Services, question: string, plan: string): seq<string> {
    sv.structured(CaseFinderPrompt, FinderMessage(question, plan))
  }

  /** The draft the model writes from a question, a plan and the case summaries. */
  function ArgumentText(sv: Services, question: string, plan: string, summaries: seq<string>): string {
    sv.complete(ArgumentBuilderPrompt, BuilderMessage(question, plan, Join(summaries, SummarySeparator)))
  }

  /** `research_plan_node`. */
  function ResearchPlanUpdate(sv: Services, s: State): (r: Result<State, Error>)
    ensures r.Success? <==> s.legalQuestion.Some?
    ensures r.Failure? ==> r.error == KeyError(LegalQuestion)
    ensures r.Success? ==> r.value.researchPlan == Some(sv.complete(ResearchPlanPrompt, s.legalQuestion.value))
  {
    var question :- Subscript(s.legalQuestion, LegalQuestion);
    Success(Empty.(researchPlan := Some(sv.complete(ResearchPlanPrompt, question))))
  }

  /** `case_finder_node`: the prior sources stay as an unchanged prefix, the
      new search contents follow. Question and plan are read before sources. */
  function CaseFinderUpdate(sv: Services, s: State): (r: Result<State, Error>)
    ensures r.Success? <==> s.legalQuestion.Some? && s.researchPlan.Some? && s.sources.Some?
    ensures r.Failure? ==> r.error == (if s.legalQuestion.None? then KeyError(LegalQuestion)
                                       else if s.researchPlan.None? then KeyError(ResearchPlan)
                                       else KeyError(Sources))
    ensures r.Success? ==>
      var prior := s.sources.value;
      var added := SearchAll(sv, Queries(sv, s.legalQuestion.value, s.researchPlan.value));
      && r.value.sources.Some?
      && |r.value.sources.value| == |prior| + |added|
      && r.value.sources.value[..|prior|] == prior
      && r.value.sources.value[|prior|..] == added
  {
    var question :- Subscript(s.legalQuestion, LegalQuestion);
    var plan :- Subscript(s.researchPlan, ResearchPlan);
    var queries := Queries(sv, question, plan);
    var prior :- Subscript(s.sources, Sources);
    Success(Empty.(sources := Some(prior + SearchAll(sv, queries))))
  }

  /** `case_summarizer_node`: exactly one summary per source, in source order. */
  function CaseSummarizerUpdate(sv: Services, s: State): (r: Result<State, Error>)
    ensures r.Success? <==> s.sources.Some?
    ensures r.Failure? ==> r.error == KeyError(Sources)
    ensures r.Success? ==>
      && r.value.caseSummaries.Some?
      && |r.value.caseSummaries.value| == |s.sources.value|
      && forall i :: 0 <= i < |s.sources.value| ==>
           r.value.caseSummaries.value[i] == sv.complete(CaseSummarizerPrompt, s.sources.value[i])
  {
    var sources :- Subscript(s.sources, Sources);
    Success(Empty.(caseSummaries := Some(SummarizeAll(sv, sources))))
  }

  /** `argument_builder_node`: writes the draft and moves the revision counter
      one past its prior value, an absent counter counting as 1. The summaries
      are read first, then question and plan. */
  function ArgumentBuilderUpdate(sv: Services, s: State): (r: Result<State, Error>)
    ensures r.Success? <==> s.caseSummaries.Some? && s.legalQuestion.Some? && s.researchPlan.Some?
    ensures r.Failure? ==> r.error == (if s.caseSummaries.None? then KeyError(CaseSummaries)
                                       else if s.legalQuestion.None? then KeyError(LegalQuestion)
                                       else KeyError(ResearchPlan))
    ensures r.Success? ==>
      && r.value.revisionNumber.Some?
      && r.value.revisionNumber.value - 1 == (if s.revisionNumber.Some? then s.revisionNumber.value else 1)
    ensures r.Success? ==>
      r.value.argumentDraft == Some(ArgumentText(sv, s.legalQuestion.value, s.researchPlan.value, s.caseSummaries.value))
  {
    var summaries :- Subscript(s.caseSummaries, CaseSummaries);
    var content := Join(summaries, SummarySeparator);
    var question :- Subscript(s.legalQuestion, LegalQuestion);
    var plan :- Subscript(s.researchPlan, ResearchPlan);
    var draft := sv.complete(ArgumentBuilderPrompt, BuilderMessage(question, plan, content));
    Success(Empty.(argumentDraft := Some(draft), revisionNumber := Some(s.revisionNumber.GetOr(1) + 1)))
  }

  /** `critique_node`. */
  function CritiqueUpdate(sv: Services, s: State): (r: Result<State, Error>)
    ensures r.Success? <==> s.argumentDraft.Some?
    ensures r.Failure? ==> r.error == KeyError(ArgumentDraft)
    ensures r.Success? ==> r.value.critique == Some(sv.complete(CritiquePrompt, s.argumentDraft.value))
  {
    var draft :- Subscript(s.argumentDraft, ArgumentDraft);
    Success(Empty.(critique := Some(sv.complete(CritiquePrompt, draft))))
  }

  /** The keys each node function subscripts; `revision_number` is read with
      a default and so is not among them. */
  function Subscripts(n: Node): set<Field> {
    match n
    case Plan => {LegalQuestion}
    case FindCases => {LegalQuestion, ResearchPlan, Sources}
    case Summarize => {Sources}
    case BuildArgument => {CaseSummaries, LegalQuestion, ResearchPlan}
    case CritiqueNode => {ArgumentDraft}
  }

  /** The registered node function for each name. A node fails only by
      subscripting a key that is absent. */
  function NodeUpdate(sv: Services, n: Node, s: State): (r: Result<State, Error>)
    ensures r.Failure? ==> r.error.KeyError? && r.error.key in Subscripts(n) && Get(s, r.error.key).None?
  {
    match n
    case Plan => ResearchPlanUpdate(sv, s)
    case FindCases => CaseFinderUpdate(sv, s)
    case Summarize => CaseSummarizerUpdate(sv, s)
    case BuildArgument => ArgumentBuilderUpdate(sv, s)
    case CritiqueNode => CritiqueUpdate(sv, s)
  }

  /** A node succeeds exactly when every key it subscripts is present. */
  lemma NodeUpdateSucceeds(sv: Services, n: Node, s: State)
    ensures NodeUpdate(sv, n, s).Success? <==> forall f :: f in Subscripts(n) ==> Get(s, f).Some?
  {
    match n
    case Plan =>
      assert LegalQuestion in Subscripts(n);
    case FindCases =>
      assert LegalQuestion in Subscripts(n) && ResearchPlan in Subscripts(n) && Sources in Subscripts(n);
    case Summarize =>
      assert Sources in Subscripts(n);
    case BuildArgument =>
      assert CaseSummaries in Subscripts(n) && LegalQuestion in Subscripts(n) && ResearchPlan in Subscripts(n);
    case CritiqueNode =>
      assert ArgumentDraft in Subscripts(n);
  }

  /** Each node's partial update names exactly the keys of `Writes`. */
  lemma UpdateNames(sv: Services, n: Node, s: State)
    ensures NodeUpdate(sv, n, s).Success? ==> Names(NodeUpdate(sv, n, s).value) == Writes(n)
  {
  }

  /** The draft depends on the question, the plan and the summaries only: the
      critique and the previous draft never reach the model. */
  lemma ArgumentIgnoresCritique(sv: Services, s: State, t: State)
    requires s.legalQuestion == t.legalQuestion && s.researchPlan == t.researchPlan
    requires s.caseSummaries == t.caseSummaries
    ensures ArgumentBuilderUpdate(sv, s).Success? == ArgumentBuilderUpdate(sv, t).Success?
    ensures ArgumentBuilderUpdate(sv, s).Success? ==>
      ArgumentBuilderUpdate(sv, s).value.argumentDraft == ArgumentBuilderUpdate(sv, t).value.argumentDraft
  {
  }
}
