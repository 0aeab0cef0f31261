/** The shared state of the legal-research graph (`AgentState`) and the
    runtime's merge of a node's partial update into it.

    No field of `AgentState` is declared with a reducer, so the runtime merges
    every field by overwriting: a field named in an update takes the update's
    value, every other field keeps its prior value. */
module AgentStates {
  import opened Wrappers

  /** The eight keys of `AgentState`. */
  datatype Field =
    | LegalQuestion
    | ResearchPlan
    | Sources
    | CaseSummaries
    | ArgumentDraft
    | Critique
    | RevisionNumber
    | MaxRevisions

  const AllFields: set<Field> :=
    {LegalQuestion, ResearchPlan, Sources, CaseSummaries, ArgumentDraft, Critique, RevisionNumber, MaxRevisions}

  /** A field's value, tagged with its declared type (`str`, `List[str]`, `int`). */
  datatype Value = Str(str: string) | Strs(strs: seq<string>) | Number(number: int)

  /** One state dictionary. `None` means the key is not present: for the run
      state, nobody has written the field yet; for a partial update, the node
      does not name the field. */
  datatype State = State(
    legalQuestion: Option<string>,
    researchPlan: Option<string>,
    sources: Option<seq<string>>,
    caseSummaries: Option<seq<string>>,
    argumentDraft: Option<string>,
    critique: Option<string>,
    revisionNumber: Option<int>,
    maxRevisions: Option<int>)

  /** The dictionary with no keys. */
  const Empty: State := State(None, None, None, None, None, None, None, None)

  /** What can go wrong during a run: `state[k]` on a key that is not present,
      or a router outcome that the conditional edge's mapping does not list. */
  datatype Error = KeyError(key: Field) | UnmappedRouterResult

  /** Python's `state[key]`: the value, or a `KeyError` when the key is absent. */
  function Subscript<T>(o: Option<T>, key: Field): Result<T, Error> {
    match o
    case Some(v) => Success(v)
    case None => Failure(KeyError(key))
  }

  function StrOf(o: Option<string>): Option<Value> {
    match o
    case Some(v) => Some(Str(v))
    case None => None
  }

  function StrsOf(o: Option<seq<string>>): Option<Value> {
    match o
    case Some(v) => Some(Strs(v))
    case None => None
  }

  function NumberOf(o: Option<int>): Option<Value> {
    match o
    case Some(v) => Some(Number(v))
    case None => None
  }

  /** The value stored under a key, if any. */
  function Get(s: State, f: Field): Option<Value> {
    match f
    case LegalQuestion => StrOf(s.legalQuestion)
    case ResearchPlan => StrOf(s.researchPlan)
    case Sources => StrsOf(s.sources)
    case CaseSummaries => StrsOf(s.caseSummaries)
    case ArgumentDraft => StrOf(s.argumentDraft)
    case Critique => StrOf(s.critique)
    case RevisionNumber => NumberOf(s.revisionNumber)
    case MaxRevisions => NumberOf(s.maxRevisions)
  }

  /** The keys present in a dictionary. */
  function Names(s: State): (r: set<Field>)
    ensures forall f :: f in r <==> Get(s, f).Some?
  {
    set f | f in AllFields && Get(s, f).Some?
  }

  /** The overwrite strategy for one field. */
  function Overwrite<T>(prior: Option<T>, update: Option<T>): Option<T> {
    if update.Some? then update else prior
  }

  /** The runtime's merge of a partial update `u` into the state `s`, with every
      field on the overwrite strategy. */
  function Merge(s: State, u: State): State {
    State(
      Overwrite(s.legalQuestion, u.legalQuestion),
      Overwrite(s.researchPlan, u.researchPlan),
      Overwrite(s.sources, u.sources),
      Overwrite(s.caseSummaries, u.caseSummaries),
      Overwrite(s.argumentDraft, u.argumentDraft),
      Overwrite(s.critique, u.critique),
      Overwrite(s.revisionNumber, u.revisionNumber),
      Overwrite(s.maxRevisions, u.maxRevisions))
  }

  /** After a merge, each key named by the update holds the update's value and
      every other key holds its prior value. */
  lemma MergeOverlay(s: State, u: State)
    ensures forall f :: Get(Merge(s, u), f) == if f in Names(u) then Get(u, f) else Get(s, f)
  {
  }

  /** A merge never removes a key: the result holds the keys of both sides. */
  lemma MergeNames(s: State, u: State)
    ensures Names(Merge(s, u)) == Names(s) + Names(u)
  {
  }

  /** Merging the same update twice is merging it once: with no accumulating
      field, repeated delivery of an update is harmless. */
  lemma MergeIdempotent(s: State, u: State)
    ensures Merge(Merge(s, u), u) == Merge(s, u)
  {
  }

  /** Two successive updates amount to one update holding the later value of
      each key. */
  lemma MergeAssociative(s: State, u: State, v: State)
    ensures Merge(Merge(s, u), v) == Merge(s, Merge(u, v))
  {
  }

  /** The empty update changes nothing, and merging into the empty dictionary
      yields the update itself (how the run's input becomes its first state). */
  lemma MergeEmpty(s: State)
    ensures Merge(s, Empty) == s
    ensures Merge(Empty, s) == s
  {
  }
}
