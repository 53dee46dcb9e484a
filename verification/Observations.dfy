/** Evidence of settled tool calls, Observations of it, and the reading of the Observation
    contract. */
module Observations {
  import opened Text
  import opened Json
  import opened LineProtocol
  import opened Parser
  import opened Decoders
  import opened Lists

  datatype Lifecycle = CurrentRaw | RecentRaw | PermanentRaw | ObservationClass

  datatype ToolResult = TextResult(text: string) | OtherResult(tag: nat)

  /** `path` is the textual "path" argument, if the call has one. */
  datatype RawCall = RawCall(id: string, name: string, path: Option<string>, result: ToolResult,
                             error: Option<string>, lifecycle: Lifecycle)
  datatype RawRound = RawRound(round: int, calls: seq<RawCall>)

  datatype Evidence = Evidence(text: string, ids: seq<string>)

  datatype Observation = Observation(
    round: int, confirmed: seq<Evidence>, errors: seq<Evidence>, inferences: seq<Evidence>,
    affects: bool, targets: seq<string>, start: Option<int>, end: Option<int>)

  function IdsOf(entries: seq<Evidence>): seq<string> {
    if entries == [] then [] else entries[0].ids + IdsOf(entries[1..])
  }

  /** The calls an Observation is drawn from, in order of mention */
  function SourceList(o: Observation): seq<string> {
    IdsOf(o.confirmed) + IdsOf(o.errors) + IdsOf(o.inferences)
  }

  function SourceIds(o: Observation): set<string> {
    set id | id in SourceList(o)
  }

  /** `value or fallback`: zero counts as absent. */
  function OrElse(value: Option<int>, fallback: int): int {
    if value.Some? && value.value != 0 then value.value else fallback
  }

  function SourceRound(o: Observation): int {
    OrElse(o.start, o.round)
  }

  /** Some evidence of the Observation, of whichever category, is drawn from the call. */
  ghost predicate Names(o: Observation, id: string) {
    exists e | e in o.confirmed + o.errors + o.inferences :: id in e.ids
  }

  lemma {:induction false} IdsAreMentioned(entries: seq<Evidence>, id: string)
    ensures id in IdsOf(entries) <==> exists e | e in entries :: id in e.ids
  {
    if entries != [] {
      IdsAreMentioned(entries[1..], id);
      assert entries == [entries[0]] + entries[1..];
    }
  }

  lemma SourcesAreNamed(o: Observation, id: string)
    ensures id in SourceIds(o) <==> Names(o, id)
  {
    IdsAreMentioned(o.confirmed, id);
    IdsAreMentioned(o.errors, id);
    IdsAreMentioned(o.inferences, id);
    var all := o.confirmed + o.errors + o.inferences;
    assert forall e :: e in all <==> e in o.confirmed || e in o.errors || e in o.inferences;
  }

  // ----- The Observation contract -----

  datatype Optional = Missing | Present(value: int) | Malformed

  function OptionalInt(b: Block, field: string): Optional {
    if field !in b.fields then Missing
    else
      match Single(b, field)
      case Some(JInt(n)) => Present(n)
      case _ => Malformed
  }

  const TARGETS: set<string> := {"confirmed_facts", "summary", "durable_state"}

  function Texts(values: seq<Value>): Option<seq<string>> {
    if values == [] then Some([])
    else
      match (Texts(values[..|values| - 1]), values[|values| - 1])
      case (Some(before), JString(s)) => Some(before + [s])
      case _ => None
  }

  function Values(b: Block, field: string): seq<Value> {
    if field in b.fields then b.fields[field] else []
  }

  datatype Category = ConfirmedFacts | ReportedErrors | ModelInferences

  function CategoryOf(b: Block): Option<Category> {
    match Single(b, "CATEGORY")
    case Some(JString(s)) =>
      if s == "confirmed_facts" then Some(ConfirmedFacts)
      else if s == "reported_errors" then Some(ReportedErrors)
      else if s == "model_inferences" then Some(ModelInferences)
      else None
    case _ => None
  }

  function EvidenceOf(b: Block): Option<(Category, Evidence)> {
    if !(b.fields.Keys <= {"CATEGORY", "TEXT", "TOOL_CALL_ID"}) then None
    else
      match (CategoryOf(b), SingleText(b, "TEXT"), Texts(Values(b, "TOOL_CALL_ID")))
      case (Some(category), Some(text), Some(ids)) =>
        if ids == [] then None else Some((category, Evidence(text, ids)))
      case _ => None
  }

  function AllEvidence(children: seq<Block>): Option<seq<(Category, Evidence)>> {
    if children == [] then Some([])
    else
      match (AllEvidence(children[..|children| - 1]), EvidenceOf(children[|children| - 1]))
      case (Some(before), Some(e)) => Some(before + [e])
      case _ => None
  }

  function InCategory(entries: seq<(Category, Evidence)>, c: Category): seq<Evidence> {
    if entries == [] then []
    else (if entries[0].0 == c then [entries[0].1] else []) + InCategory(entries[1..], c)
  }

  /** The Observation described by a block, before its attribution is checked */
  function ObservationOf(b: Block, expectedRound: int): Option<Observation> {
    if b.typ != "OBSERVATION" || Single(b, "ROUND") != Some(JInt(expectedRound)) then None
    else
      match (OptionalInt(b, "SOURCE_ROUND_START"), OptionalInt(b, "SOURCE_ROUND_END"),
             SingleBool(b, "AFFECTS_CURRENT_DECISION"), Texts(Values(b, "AFFECTED_TARGETS")), AllEvidence(b.children))
      case (start, end, Some(impact), Some(targets), Some(entries)) =>
        if start.Malformed? || end.Malformed? || start.Present? != end.Present?
           || (start.Present? && start.value > end.value)
           || (exists t | t in targets :: t !in TARGETS) || impact != (targets != []) then None
        else Some(Observation(
          expectedRound, InCategory(entries, ConfirmedFacts), InCategory(entries, ReportedErrors),
          InCategory(entries, ModelInferences), impact, AppendUnique([], targets),
          if start.Present? then Some(start.value) else None, if end.Present? then Some(end.value) else None))
      case _ => None
  }

  /** Attribution of an Observation that was asked of one call */
  predicate AttributedTo(o: Observation, id: string) {
    && (SourceIds(o) == {} || SourceIds(o) == {id})
    && (o.affects ==> SourceIds(o) == {id})
    && (o.start.Some? ==> o.start == o.end == Some(o.round))
  }

  function ParseObservation(response: string, expectedRound: int, expectedId: Option<string>, other: OtherLiterals)
    : (r: Option<Observation>)
    ensures r.Some? ==> r.value.round == expectedRound
    ensures r.Some? && expectedId.Some? ==> AttributedTo(r.value, expectedId.value)
  {
    match Parse(response, other)
    case None => None
    case Some(b) =>
      match ObservationOf(b, expectedRound)
      case None => None
      case Some(o) => if expectedId.Some? && !AttributedTo(o, expectedId.value) then None else Some(o)
  }

  /** A positive Observation of one call names that call only, and its source round. */
  lemma PositiveObservationShape(response: string, round: int, id: string, other: OtherLiterals)
    requires ParseObservation(response, round, Some(id), other).Some?
    requires ParseObservation(response, round, Some(id), other).value.affects
    ensures var o := ParseObservation(response, round, Some(id), other).value;
      SourceIds(o) == {id} && SourceRound(o) == round && o.targets != [] && NoDuplicates(o.targets)
  {
    var b := Parse(response, other).value;
    var targets := Texts(Values(b, "AFFECTED_TARGETS")).value;
    AppendUniqueExtends([], targets);
    assert targets[0] in AppendUnique([], targets);
  }
}
