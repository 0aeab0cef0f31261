# Legal-research agent: the revision loop as a state machine

`agent.py` builds a five-node `langgraph` state graph for legal research.

- `plan` asks the language model for a research plan.
- `find_cases` asks it for search queries, runs each query against a web-search service, and appends every result's content to `sources`.
- `summarize` asks for one summary per source.
- `build_argument` drafts an argument from the question, the plan and the summaries joined with `"\n\n"`. It also advances `revision_number`, where an absent counter counts as 1.
- `critique_node` critiques the draft.

The only branch is `should_continue`, on the edge out of `build_argument`. It ends the run once the counter exceeds `max_revisions` and otherwise goes to `critique_node`, which always leads back to `build_argument`.

This project models that state machine and proves what its runs do.

- **State** (`AgentStates`): `AgentState` is a record of eight optional fields. A missing value means the key is absent from the dictionary a node receives; the model assumes that a node's dictionary lacks every key not yet written.
  - Subscripting an absent key (`state['sources']`) is a `KeyError`.
  - `state.get("revision_number", 1)` yields 1 for an absent counter.
  - No field has a reducer, so merging a partial update overwrites exactly the keys the update names.
- **Nodes** (`Nodes`, `Text`): each node function maps the state to a partial update, or to the `KeyError` of the first absent key it reads, in source order.
  - The language model and the search service are the function-typed fields of `Services`.
  - `complete(prompt, human message)` is the reply content.
  - `structured(prompt, human message)` is the `queries` list.
  - `search(query, max_results)` is the results' contents, in order.
  - The loops of `case_finder_node` and `case_summarizer_node` are also written as methods with loop invariants.
- **Runtime** (`Engine`): the code of the `langgraph` runtime is not part of this model. Its semantics are this model's own definitions, generic in the graph:
  - run the current node;
  - merge its update into the state;
  - evaluate the outgoing edge on the merged state;
  - stop at the sentinel `END`.

  A node or router that raises ends the run with the state from before that step; the failed step's update is not kept. The number of node executions is bounded by a fuel parameter, and a run that exhausts it reports the node it would execute next.
- **Graph** (`Graph`): the entry point `plan`, the four fixed edges, and the conditional edge with its `{END: END, "critique_node": "critique_node"}` mapping.
- **Runs** (`RevisionLoop`): let `r0` be the starting counter (1 when absent) and `m` the maximum.
  - A run reaches `END` exactly when the question, the sources and the maximum are present and the fuel covers `2·max(1, m − r0 + 1) + 2` steps.
  - Its trace is `plan, find_cases, summarize`, then `build_argument` followed by `max(1, m − r0 + 1) − 1` rounds of `critique_node, build_argument`.
  - The final state is given field by field.
  - Every other input fails with the named `KeyError` at the named node.
  - The shipped example (`r0 = 1`, `m = 2`) builds twice and critiques once.

Whether a key that nothing has written yet is absent from a node's dictionary or present holding `None` is decided by the `langgraph` runtime, not by `agent.py`. The model assumes it is absent. Then `state['sources']` raises `KeyError` before `or []` applies, and `or []` leaves every declared list value as it is. Under the other reading, `or []` makes missing input sources count as `[]`; what that changes is listed under "Left out" on the `Nodes.CaseFinderUpdate` line.

## Model

| member | source | states |
|---|---|---|
| `AgentStates.Merge` | agent.py:11-19 | The runtime's merge of a partial update into the state, every field on the overwrite strategy; its meaning is stated by `MergeOverlay` and the lemmas after it. |
| `AgentStates.MergeOverlay` | agent.py:11-19 | After an update is merged, every key the update names holds the update's value and every other key keeps its prior value (no field is `Annotated` with a reducer). |
| `AgentStates.MergeNames` | agent.py:11-19 | A merge never drops a key: the merged state holds exactly the keys of the state and of the update. |
| `AgentStates.MergeIdempotent` | agent.py:11-19 | Merging the same update twice gives the same state as merging it once, since no field accumulates. |
| `AgentStates.MergeAssociative` | agent.py:11-19 | Merging two updates in turn equals merging their combination, which holds the later value of each key. |
| `AgentStates.MergeEmpty` | agent.py:11-19 | The empty update changes nothing; merging into the empty state yields the update, as when the input becomes the first state. |
| `Text.Join` | agent.py:124 | `"\n\n".join(...)` of no summaries is the empty string. Otherwise its length is the summed lengths plus one separator between each pair of neighbours, and it starts with the first summary. |
| `Text.JoinSnoc` | agent.py:124 | Joining one more summary appends the separator and then that summary, so the join is the left-to-right accumulation of the list. |
| `Nodes.SearchAll` | agent.py:104-107 | The contents of every search result for the queries, query by query; `SearchAllAppend`, `SearchAllMembers` and `SearchAllBound` state its properties and `CollectSources` is the loop that computes it. |
| `Nodes.SearchAllAppend` | agent.py:104-107 | Collecting results for a split query list equals collecting for each part in turn, preserving query order. |
| `Nodes.SearchAllMembers` | agent.py:104-107 | A content is collected if and only if the search for some query returned it. |
| `Nodes.SearchAllBound` | agent.py:105 | When the service honours `max_results=2`, one call adds at most two sources per query. |
| `Nodes.CollectSources` | agent.py:103-108 | The nested loops return the prior sources followed by every result's content, in query order and then result order. |
| `Nodes.SummarizeAll` | agent.py:112-119 | There is one summary per source, and the i-th summary is the model's reply for the i-th source. |
| `Nodes.SummarizeSources` | agent.py:112-120 | The loop computes exactly that list of summaries. |
| `Nodes.FinderMessage` | agent.py:100 | The human message of the query-generation call: `Question: `, the question, a newline, `Plan: ` and the plan. |
| `Nodes.BuilderMessage` | agent.py:127 | The human message of the argument-building call: the same two lines, a blank line, then the joined summaries. |
| `Nodes.ResearchPlanUpdate` | agent.py:87-94 | Succeeds if and only if the question is present, else `KeyError('legal_question')`. On success it writes the model's plan for the question. |
| `Nodes.CaseFinderUpdate` | agent.py:96-108 | Succeeds if and only if question, plan and sources are present. Otherwise it raises the `KeyError` of the first absent one, in read order. The new `sources` is the prior list kept unchanged as a prefix, followed by all search contents for the model's queries. |
| `Nodes.CaseSummarizerUpdate` | agent.py:110-120 | Succeeds if and only if sources are present, else `KeyError('sources')`. The summaries are one per source, in source order. |
| `Nodes.ArgumentBuilderUpdate` | agent.py:122-130 | Succeeds if and only if summaries, question and plan are present. Otherwise it raises the first absent key's `KeyError`. The new counter is one more than the prior counter, or 2 when it was absent. The draft is the model's reply to the question, the plan and the joined summaries. |
| `Nodes.CritiqueUpdate` | agent.py:132-139 | Succeeds if and only if a draft is present, else `KeyError('argument_draft')`. On success it writes the model's critique of that draft. |
| `Nodes.NodeUpdate` | agent.py:149-153 | The function registered under each node name. A node fails only with the `KeyError` of a key it subscripts that is absent from its input. |
| `Nodes.NodeUpdateSucceeds` | agent.py:87-139 | A node succeeds if and only if every key it subscripts is present; `revision_number`, read with a default, is not among them. |
| `Nodes.UpdateNames` | agent.py:87-139 | A successful update names exactly its node's keys: `research_plan`; `sources`; `case_summaries`; `argument_draft` and `revision_number`; `critique`. |
| `Nodes.ArgumentIgnoresCritique` | agent.py:122-130 | Two states that agree on question, plan and summaries yield the same draft, so neither the critique nor an earlier draft reaches the model. |
| `Graph.ShouldContinue` | agent.py:141-145 | Returns `END` if and only if the counter exceeds the maximum, and `"critique_node"` if and only if it does not. It raises `KeyError` on the counter first, then on the maximum. |
| `Graph.Route` | agent.py:156-165 | Only `build_argument` can reach `END` or fail to route, and it fails exactly as `should_continue` fails. `critique_node` always routes to `build_argument`. |
| `Graph.BuildArgumentRouting` | agent.py:160-164 | Out of `build_argument` the run ends if and only if counter > maximum and goes to `critique_node` if and only if counter ≤ maximum. The mapping never leaves a branch unmapped. |
| `Graph.LegalGraph` | agent.py:148-168 | The compiled graph: the five registered node functions, the overwrite merge and the edge table `Route`. |
| `Graph.StepFrame` | agent.py:148-153 | A step of the compiled graph leaves every key its node does not write unchanged and makes every key it writes present. Only `build_argument` can end the run. |
| `Graph.Successor` | agent.py:157-165 | The node each node hands over to when the run does not end there; `RouteWiring` shows every edge taken agrees with it. |
| `Graph.RouteWiring` | agent.py:157-165 | Every edge taken leads from a node to its fixed successor. |
| `Graph.RunFollowsWiring` | agent.py:157-165 | For any input, services and fuel, each executed node is followed by its successor. |
| `Graph.CompletedAfterBuild` | agent.py:160-164 | A run that reaches `END` executed `build_argument` last. |
| `Graph.WiringIsPattern` | agent.py:154-165 | Any walk along the wiring from `plan` is `plan, find_cases, summarize`, then `build_argument` and `critique_node` alternating. |
| `Graph.RunFollowsPattern` | agent.py:154-165 | Every run from the entry point, however it ends, follows that pattern position by position. |
| `Graph.RunPreservesInputs` | agent.py:87-139 | No run changes the question or the maximum. |
| `RevisionLoop.PlanStep` | agent.py:87-94 | `plan` on a state with a question writes the plan and moves to `find_cases`. |
| `RevisionLoop.FindStep` | agent.py:96-108 | `find_cases` appends the search contents to the sources and moves to `summarize`. |
| `RevisionLoop.SummarizeStep` | agent.py:110-120 | `summarize` writes the summaries of the sources and moves to `build_argument`. |
| `RevisionLoop.BuildStep` | agent.py:122-145 | `build_argument` writes the draft and the counter plus one. It then ends if that counter exceeds the maximum, else it moves to `critique_node`. |
| `RevisionLoop.CritiqueStep` | agent.py:132-139 | `critique_node` writes the critique of the draft and moves back to `build_argument`. |
| `RevisionLoop.RunPrefix` | agent.py:154-159 | The first three nodes run one after the other and hand `build_argument` the plan, the collected sources and their summaries. |
| `RevisionLoop.LastRound` | agent.py:141-145 | A build that leaves the counter above the maximum is the run's last step. |
| `RevisionLoop.NextRound` | agent.py:160-165 | A build that leaves the counter at or below the maximum is followed by a critique and another build. |
| `RevisionLoop.RevisionLoopRun` | agent.py:122-165 | From `build_argument`, the loop runs `max(1, m − r + 1)` builds with a critique between each pair of builds, and every build sends the model the same request. It ends at `END` with the counter advanced once per build and nothing else changed; that the last draft and critique are the replies to that one request assumes identical replies to identical requests (see "Left out"). |
| `RevisionLoop.FullRun` | agent.py:148-165 | A runnable input's whole run is the three unconditional nodes followed by that loop. |
| `RevisionLoop.RunCompletes` | agent.py:148-165 | With fuel for `2·builds + 2` steps, the run reaches `END` with exactly the expected trace, which has that length. |
| `RevisionLoop.RunCounts` | agent.py:130-165 | In that run `build_argument` executes `max(1, m − r0 + 1)` times and `critique_node` once fewer. Each other node executes once. |
| `RevisionLoop.RunResult` | agent.py:87-145 | The final state holds the question and maximum as given, the plan, the prior sources followed by the new ones, and one summary per source. It holds the draft for those inputs. The counter is `m + 1`, or `r0 + 1` when `r0` already exceeds `m`. |
| `RevisionLoop.RunStopsEarly` | agent.py:148-165 | With less fuel, the run stops having executed exactly that many nodes of the expected trace, with the next one still pending. |
| `RevisionLoop.MissingQuestion` | agent.py:91 | Without a question, `plan` fails with `KeyError('legal_question')` and nothing is written. |
| `RevisionLoop.MissingSources` | agent.py:103 | Without input sources, `find_cases` fails with `KeyError('sources')` after the plan is written. |
| `RevisionLoop.MissingMaximum` | agent.py:143 | Without a maximum, the first `should_continue` fails with `KeyError('max_revisions')` and the first build's update is lost. |
| `RevisionLoop.CompletesIff` | agent.py:87-165 | A run reaches `END` if and only if question, sources and maximum are present and the fuel covers `2·max(1, m − r0 + 1) + 2` steps. |
| `RevisionLoop.Terminates` | agent.py:141-165 | Every run from `plan` with fuel for four steps, and for `2·max(1, m − r0 + 1) + 2` steps when the maximum is given, ends at `END` or on an error, never for lack of steps. |
| `RevisionLoop.ExceedsRecursionLimit` | agent.py:171-172 | Under the default limit of 25 steps a runnable input needing more steps is cut off with a node still to run instead of reaching `END`. |
| `RevisionLoop.ExampleBuilds` | agent.py:172-177 | The example input is runnable, needs 2 builds and takes 6 steps. |
| `RevisionLoop.ExampleCompletes` | agent.py:172-177 | The example run reaches `END` if and only if it may take at least six steps. |
| `RevisionLoop.ExampleRun` | agent.py:172-177 | The example run visits `plan, find_cases, summarize, build_argument, critique_node, build_argument` for any services, and ends with the counter at 3. |
| `Engine.Step` | agent.py:168-172 | Assumed runtime semantics: one step runs the node, merges its update and routes on the merged state; a raised error ends the step. |
| `Engine.Run` | agent.py:168-172 | Assumed runtime semantics: the run from a node executes at most its step budget, stopping at `END`, on an error, or with the next node pending. |
| `Engine.RunShape` | agent.py:168-172 | Assumed runtime semantics: a run cut off for lack of steps has used all of them, and a run that executed anything executed its starting node first. |
| `Engine.FuelMonotone` | agent.py:168-172 | Assumed runtime semantics: a run that ends at `END` or on an error ends the same way with a larger budget. |
| `Engine.RunResume` | agent.py:168-172 | Assumed runtime semantics: a run cut off after `a` steps and resumed at its pending node on its last state is the run of `a + b` steps; no node is skipped or repeated. |
| `Engine.RunFollowsEdges` | agent.py:168-172 | Assumed runtime semantics: when every edge leads from a node to a fixed successor, every run follows those successors. |
| `Engine.RunPreserves` | agent.py:168-172 | Assumed runtime semantics: a state property every successful step keeps holds of the state every run ends with. |
| `Engine.RunEndsAt` | agent.py:168-172 | Assumed runtime semantics: when `END` is reachable only out of certain nodes, a completed run executed one of them last. |

## Left out

- The language-model calls (`model.invoke`, `with_structured_output`) and the model's configuration are left out: they are a foreign network service. Their replies are modelled as the functions `complete` and `structured` of `Services`, so identical requests are assumed to get identical replies. A chat completion at temperature 0 does not guarantee that. What the code itself guarantees is that every build sends the same request (`Nodes.ArgumentIgnoresCritique`).
- `RevisionLoop.RunResult`, `RevisionLoop.FullRun` and `RevisionLoop.RevisionLoopRun`: the equalities for the final draft and critique (through `RevisionLoop.LoopState`: every build writes the same draft, and the last critique is of that draft) rest on the assumption of identical replies to identical requests. Without it, the final draft is some reply to the one request every build sends, and the final critique is some reply about the last draft.
- The Tavily search client and the `TAVILY_API_KEY` environment lookup are network and environment I/O. Search results are given by `Services.search`.
- The prompt text constants are inert data. Each prompt is a tag of `Prompt`, and the system/human message pair is the pair of arguments to `complete`.
- Failures, timeouts and retries of the collaborators are not modelled. Each collaborator always answers.
- `SqliteSaver` checkpointing and `compile(checkpointer=...)` are left out: that persistence code is not part of this model. The run neither saves nor resumes. `Engine.RunResume` shows that a run split at any step and continued from where it stopped is the same run.
- `graph.stream`'s iteration and the `print` of each event are a driver loop and console I/O. The trace stands for the events, and the example's input dictionary is `ExampleInput`.
- The code of the `langgraph` runtime is not part of this model. It is replaced by the semantics defined in `Engine` and `AgentStates` (a node's dictionary lacks every key not yet written, overwrite merge, routing on the merged state, `END` as terminal, a raised error ending the run with the step's update discarded). These are assumptions, not facts checked against that library.
- The runtime's recursion limit is replaced by the fuel parameter: a run may execute any number of steps up to its fuel. agent.py:171-172 streams without setting `recursion_limit`, so the program runs under the runtime's default limit of 25 steps (`RevisionLoop.DefaultRecursionLimit`, a value of that library, not of `agent.py`). At that fuel `RevisionLoop.CompletesIff` predicts a `GraphRecursionError` instead of `END` once `2·max(1, m − r0 + 1) + 2` exceeds 25; `RevisionLoop.ExceedsRecursionLimit` states the cut-off.
- The checks the graph builder performs when nodes and edges are registered are not modelled. The graph is fixed, and `Graph.BuildArgumentRouting` shows that its one mapping covers both router outcomes.
- Python `None` stored under a key is not modelled, because it is outside the declared field types. It is the only value on which `state['sources'] or []` and `state['case_summaries'] or []` differ from the list itself.
- `Nodes.CaseFinderUpdate` raises `KeyError('sources')` for missing input sources because the model assumes a key nothing has written is absent from the node's dictionary. If the runtime instead handed nodes such keys as `None`, `find_cases` would start from `[]` and succeed. Then `RevisionLoop.MissingSources` would not hold, and `RevisionLoop.Runnable` and `RevisionLoop.CompletesIff` would not require input sources. Also, `state.get("revision_number", 1)` would return `None` for a missing counter and `+ 1` would raise `TypeError`, so the missing-counter case of `Nodes.ArgumentBuilderUpdate` (counter 2) would become a failure. A missing question would fail inside the model call rather than with `KeyError`.
- The in-place `append` to the prior `sources` list, which mutates the list object the state holds, is not modelled. The model returns the extended list as a new value, as the merge would see it.
- `AgentState`'s integer fields are unbounded in the model, as Python integers are.
