/**
 The trace of a recall: tool outputs joined to the calls they answer, the graph entities those outputs show,
 and the citations taken from them.
 */
module RecallTrace {
  import opened Prelude
  import opened EntityIds

  datatype Json =
    | Null
    | Bool(flag: bool)
    | Number(number: real)
    | String(text: string)
    | Array(items: seq<Json>)
    | Object(members: seq<Field>)

  datatype Field = Field(key: string, value: Json)

  datatype Part =
    | ToolCall(name: string, args: Json, callId: Option<string>)
    | ToolOutput(name: string, output: Json, isError: Option<bool>, callId: Option<string>)
    | OtherPart

  datatype ToolTrace = ToolTrace(name: string, args: Json, callId: Option<string>, output: Option<Json>, isError: Option<bool>)

  // ---- The join ----

  /** The trace is waiting for this output. */
  predicate Awaits(t: ToolTrace, o: Part)
    requires o.ToolOutput?
  {
    t.output.None? && t.name == o.name && (o.callId.None? || t.callId == o.callId)
  }

  /** The latest of the first `n` traces that waits for the output. */
  function Slot(tools: seq<ToolTrace>, o: Part, n: nat): (r: Option<nat>)
    requires n <= |tools| && o.ToolOutput?
    ensures r.Some? ==> r.value < n && Awaits(tools[r.value], o)
    ensures forall i :: 0 <= i < n && Awaits(tools[i], o) ==> r.Some? && i <= r.value
  {
    if n == 0 then None else if Awaits(tools[n - 1], o) then Some(n - 1) else Slot(tools, o, n - 1)
  }

  function Traced(tools: seq<ToolTrace>, part: Part): seq<ToolTrace> {
    match part
    case ToolCall(name, args, callId) => tools + [ToolTrace(name, args, callId, None, None)]
    case ToolOutput(name, output, isError, callId) =>
      (match Slot(tools, part, |tools|)
       case Some(i) => tools[i := tools[i].(output := Some(output), isError := isError)]
       case None => tools + [ToolTrace(name, Null, callId, Some(output), isError)])
    case OtherPart => tools
  }

  function Trace(parts: seq<Part>): seq<ToolTrace> {
    if parts == [] then [] else Traced(Trace(parts[..|parts| - 1]), parts[|parts| - 1])
  }

  function Parts(messages: seq<seq<Part>>): seq<Part> {
    if messages == [] then [] else Parts(messages[..|messages| - 1]) + messages[|messages| - 1]
  }

  method FindSlot(tools: seq<ToolTrace>, o: Part) returns (slot: Option<nat>)
    requires o.ToolOutput?
    ensures slot == Slot(tools, o, |tools|)
  {
    var i := |tools|;
    while i > 0
      invariant 0 <= i <= |tools|
      invariant Slot(tools, o, |tools|) == Slot(tools, o, i)
    {
      if Awaits(tools[i - 1], o) {
        return Some(i - 1);
      }
      i := i - 1;
    }
    return None;
  }

  lemma TraceStep(parts: seq<Part>, part: Part)
    ensures Trace(parts + [part]) == Traced(Trace(parts), part)
  {
    assert (parts + [part])[..|parts|] == parts;
  }

  lemma TraceNext(before: seq<Part>, message: seq<Part>, k: nat)
    requires k < |message|
    ensures Trace(before + message[..k + 1]) == Traced(Trace(before + message[..k]), message[k])
  {
    assert before + message[..k + 1] == before + message[..k] + [message[k]];
    TraceStep(before + message[..k], message[k]);
  }

  lemma PartsNext(messages: seq<seq<Part>>, m: nat)
    requires m < |messages|
    ensures Parts(messages[..m + 1]) == Parts(messages[..m]) + messages[m]
  {
    assert messages[..m + 1][..m] == messages[..m];
  }

  method AddPart(tools: seq<ToolTrace>, part: Part) returns (more: seq<ToolTrace>)
    ensures more == Traced(tools, part)
  {
    more := tools;
    match part {
      case ToolCall(name, args, callId) => more := more + [ToolTrace(name, args, callId, None, None)];
      case ToolOutput(name, output, isError, callId) =>
        var slot := FindSlot(tools, part);
        match slot {
          case Some(i) => more := more[i := more[i].(output := Some(output), isError := isError)];
          case None => more := more + [ToolTrace(name, Null, callId, Some(output), isError)];
        }
      case OtherPart =>
    }
  }

  method AddMessage(tools: seq<ToolTrace>, message: seq<Part>, ghost before: seq<Part>) returns (more: seq<ToolTrace>)
    requires tools == Trace(before)
    ensures more == Trace(before + message)
  {
    more := tools;
    assert before + message[..0] == before;
    for k := 0 to |message|
      invariant more == Trace(before + message[..k])
    {
      TraceNext(before, message, k);
      more := AddPart(more, message[k]);
    }
    assert message[..|message|] == message;
  }

  method FromMessages(messages: seq<seq<Part>>) returns (tools: seq<ToolTrace>)
    ensures tools == Trace(Parts(messages))
  {
    tools := [];
    for m := 0 to |messages|
      invariant tools == Trace(Parts(messages[..m]))
    {
      PartsNext(messages, m);
      tools := AddMessage(tools, messages[m], Parts(messages[..m]));
    }
    assert messages[..|messages|] == messages;
  }

  // ---- Every output lands once ----

  function Calls(parts: seq<Part>): nat {
    if parts == [] then 0 else Calls(parts[..|parts| - 1]) + if parts[|parts| - 1].ToolCall? then 1 else 0
  }

  function Outputs(parts: seq<Part>): nat {
    if parts == [] then 0 else Outputs(parts[..|parts| - 1]) + if parts[|parts| - 1].ToolOutput? then 1 else 0
  }

  /** How many outputs found no call waiting for them. */
  function Unmatched(parts: seq<Part>): nat {
    if parts == [] then 0 else
    var before, part := Trace(parts[..|parts| - 1]), parts[|parts| - 1];
    Unmatched(parts[..|parts| - 1]) + if part.ToolOutput? && Slot(before, part, |before|).None? then 1 else 0
  }

  function Filled(tools: seq<ToolTrace>): nat {
    if tools == [] then 0 else Filled(tools[..|tools| - 1]) + if tools[|tools| - 1].output.Some? then 1 else 0
  }

  lemma {:induction false} FilledAt(tools: seq<ToolTrace>, i: nat, t: ToolTrace)
    requires i < |tools| && tools[i].output.None? && t.output.Some?
    ensures Filled(tools[i := t]) == Filled(tools) + 1
  {
    var n := |tools| - 1;
    if i == n {
      assert tools[i := t][..n] == tools[..n];
    } else {
      FilledAt(tools[..n], i, t);
      assert tools[i := t][..n] == tools[..n][i := t];
    }
  }

  lemma FilledMore(tools: seq<ToolTrace>, t: ToolTrace)
    ensures Filled(tools + [t]) == Filled(tools) + if t.output.Some? then 1 else 0
  {
    assert (tools + [t])[..|tools|] == tools;
  }

  /** Every call has one entry, and so has every output without a call; every output fills exactly one. */
  lemma {:induction false} EveryOutputLandsOnce(parts: seq<Part>)
    ensures |Trace(parts)| == Calls(parts) + Unmatched(parts)
    ensures Filled(Trace(parts)) == Outputs(parts)
  {
    if parts != [] {
      var before, part := Trace(parts[..|parts| - 1]), parts[|parts| - 1];
      EveryOutputLandsOnce(parts[..|parts| - 1]);
      match part
      case ToolCall(name, args, callId) => FilledMore(before, ToolTrace(name, args, callId, None, None));
      case ToolOutput(name, output, isError, callId) =>
        var slot := Slot(before, part, |before|);
        if slot.Some? {
          FilledAt(before, slot.value, before[slot.value].(output := Some(output), isError := isError));
        } else {
          FilledMore(before, ToolTrace(name, Null, callId, Some(output), isError));
        }
      case OtherPart =>
    }
  }

  // ---- With unique ids it is a join ----

  function CallsOf(parts: seq<Part>): (calls: seq<Part>)
    ensures forall k :: 0 <= k < |calls| ==> calls[k].ToolCall?
  {
    if parts == [] then []
    else CallsOf(parts[..|parts| - 1]) + if parts[|parts| - 1].ToolCall? then [parts[|parts| - 1]] else []
  }

  /** Calls have ids of their own, every output comes after the call it names, and no two outputs answer the
      same call. */
  ghost predicate Joinable(parts: seq<Part>) {
    && (forall i :: 0 <= i < |parts| && parts[i].ToolCall? ==> parts[i].callId.Some?)
    && (forall i, j :: 0 <= i < j < |parts| && parts[i].ToolCall? && parts[j].ToolCall? ==> parts[i].callId != parts[j].callId)
    && (forall j :: 0 <= j < |parts| && parts[j].ToolOutput? ==>
          exists i :: 0 <= i < j && parts[i].ToolCall? && parts[i].callId == parts[j].callId && parts[i].name == parts[j].name)
    && (forall i, j :: 0 <= i < j < |parts| && parts[i].ToolOutput? && parts[j].ToolOutput? ==> parts[i].callId != parts[j].callId)
  }

  /** The output among the parts that answers the call id. */
  function Reply(parts: seq<Part>, callId: Option<string>): (r: Option<Part>)
    ensures r.Some? ==> r.value in parts && r.value.ToolOutput? && r.value.callId == callId
    ensures r.None? ==> forall i :: 0 <= i < |parts| && parts[i].ToolOutput? ==> parts[i].callId != callId
  {
    if parts == [] then None
    else if parts[|parts| - 1].ToolOutput? && parts[|parts| - 1].callId == callId then Some(parts[|parts| - 1])
    else Reply(parts[..|parts| - 1], callId)
  }

  function Answered(call: Part, reply: Option<Part>): ToolTrace
    requires call.ToolCall? && (reply.Some? ==> reply.value.ToolOutput?)
  {
    match reply
    case None => ToolTrace(call.name, call.args, call.callId, None, None)
    case Some(o) => ToolTrace(call.name, call.args, call.callId, Some(o.output), o.isError)
  }

  ghost predicate IsJoin(tools: seq<ToolTrace>, calls: seq<Part>, parts: seq<Part>) {
    && |tools| == |calls|
    && forall i :: 0 <= i < |calls| ==> calls[i].ToolCall? && tools[i] == Answered(calls[i], Reply(parts, calls[i].callId))
  }

  lemma JoinablePrefix(parts: seq<Part>)
    requires parts != [] && Joinable(parts)
    ensures Joinable(parts[..|parts| - 1])
  {
    var init := parts[..|parts| - 1];
    forall j | 0 <= j < |init| && init[j].ToolOutput?
      ensures exists i :: 0 <= i < j && init[i].ToolCall? && init[i].callId == init[j].callId && init[i].name == init[j].name
    {
      assert parts[j].ToolOutput?;
      var i :| 0 <= i < j && parts[i].ToolCall? && parts[i].callId == parts[j].callId && parts[i].name == parts[j].name;
      assert init[i] == parts[i];
    }
  }

  lemma {:induction false} CallsAreParts(parts: seq<Part>)
    ensures forall k :: 0 <= k < |CallsOf(parts)| ==> CallsOf(parts)[k].ToolCall? && CallsOf(parts)[k] in parts
    ensures forall p :: p in parts && p.ToolCall? ==> p in CallsOf(parts)
  {
    if parts != [] {
      var init, last := parts[..|parts| - 1], parts[|parts| - 1];
      CallsAreParts(init);
      assert parts == init + [last];
    }
  }

  /** The ids of the calls are distinct in the list of calls too. */
  lemma {:induction false} CallIdsDistinct(parts: seq<Part>)
    requires Joinable(parts)
    ensures forall i, j :: 0 <= i < j < |CallsOf(parts)| ==> CallsOf(parts)[i].callId != CallsOf(parts)[j].callId
  {
    if parts != [] {
      var n := |parts| - 1;
      var init := parts[..n];
      JoinablePrefix(parts);
      CallIdsDistinct(init);
      CallsAreParts(init);
      if parts[n].ToolCall? {
        forall k | 0 <= k < |CallsOf(init)| ensures CallsOf(init)[k].callId != parts[n].callId {
          var i :| 0 <= i < n && init[i] == CallsOf(init)[k];
          assert parts[i].ToolCall?;
        }
      }
    }
  }

  /** Adding a call: nobody has answered it. */
  lemma JoinCall(tools: seq<ToolTrace>, parts: seq<Part>, call: Part)
    requires Joinable(parts + [call]) && call.ToolCall? && IsJoin(tools, CallsOf(parts), parts)
    ensures IsJoin(Traced(tools, call), CallsOf(parts) + [call], parts + [call])
  {
    var all := parts + [call];
    assert all[..|parts|] == parts;
    forall j | 0 <= j < |parts| && parts[j].ToolOutput? ensures parts[j].callId != call.callId {
      assert all[j].ToolOutput?;
      var i :| 0 <= i < j && all[i].ToolCall? && all[i].callId == all[j].callId;
      assert all[|parts|].ToolCall? && all[i].callId != all[|parts|].callId;
    }
    assert Reply(parts, call.callId).None?;
    forall id ensures Reply(all, id) == Reply(parts, id) {}
  }

  /** The call an output names is on the list, and nobody has answered it. */
  lemma OutputsCall(parts: seq<Part>, o: Part) returns (k: nat)
    requires Joinable(parts + [o]) && o.ToolOutput?
    ensures k < |CallsOf(parts)| && CallsOf(parts)[k].callId == o.callId && CallsOf(parts)[k].name == o.name
    ensures o.callId.Some? && Reply(parts, o.callId).None?
  {
    var all := parts + [o];
    assert all[|parts|].ToolOutput?;
    var i :| 0 <= i < |parts| && all[i].ToolCall? && all[i].callId == o.callId && all[i].name == o.name;
    CallsAreParts(parts);
    assert parts[i] in parts;
    k :| 0 <= k < |CallsOf(parts)| && CallsOf(parts)[k] == parts[i];
    assert all[i].callId.Some?;
    forall j | 0 <= j < |parts| && parts[j].ToolOutput? ensures parts[j].callId != o.callId {
      assert all[j].ToolOutput? && all[j].callId != all[|parts|].callId;
    }
  }

  lemma OutputsSlot(tools: seq<ToolTrace>, calls: seq<Part>, parts: seq<Part>, o: Part, k: nat)
    requires o.ToolOutput? && o.callId.Some? && IsJoin(tools, calls, parts)
    requires forall i, j :: 0 <= i < j < |calls| ==> calls[i].callId != calls[j].callId
    requires k < |calls| && calls[k].callId == o.callId && calls[k].name == o.name && Reply(parts, o.callId).None?
    ensures Slot(tools, o, |tools|) == Some(k)
  {
    assert Awaits(tools[k], o);
    forall j | 0 <= j < |tools| && Awaits(tools[j], o) ensures j == k {
      assert calls[j].callId == calls[k].callId;
    }
  }

  /** Adding an output: exactly its call was waiting for it. */
  lemma JoinOutput(tools: seq<ToolTrace>, parts: seq<Part>, o: Part)
    requires Joinable(parts + [o]) && o.ToolOutput? && IsJoin(tools, CallsOf(parts), parts)
    ensures IsJoin(Traced(tools, o), CallsOf(parts), parts + [o])
  {
    var all, calls := parts + [o], CallsOf(parts);
    assert all[..|parts|] == parts;
    JoinablePrefix(all);
    CallIdsDistinct(parts);
    var k := OutputsCall(parts, o);
    OutputsSlot(tools, calls, parts, o, k);
    assert Reply(all, o.callId) == Some(o);
    forall j | 0 <= j < |calls| ensures Traced(tools, o)[j] == Answered(calls[j], Reply(all, calls[j].callId)) {
      if j != k {
        assert calls[j].callId != o.callId;
        assert Reply(all, calls[j].callId) == Reply(parts, calls[j].callId);
      }
    }
  }

  /** The trace lists the calls in order, each with the output that answers it, if any. */
  lemma {:induction false} TraceIsJoin(parts: seq<Part>)
    requires Joinable(parts)
    ensures IsJoin(Trace(parts), CallsOf(parts), parts)
  {
    if parts != [] {
      var init, last := parts[..|parts| - 1], parts[|parts| - 1];
      JoinablePrefix(parts);
      TraceIsJoin(init);
      assert parts == init + [last];
      match last
      case ToolCall(_, _, _) => JoinCall(Trace(init), init, last);
      case ToolOutput(_, _, _, _) => JoinOutput(Trace(init), init, last);
      case OtherPart =>
        forall id ensures Reply(parts, id) == Reply(init, id) {}
    }
  }

  lemma ReplyIsUnique(parts: seq<Part>, o: Part)
    requires Joinable(parts) && o in parts && o.ToolOutput?
    ensures Reply(parts, o.callId) == Some(o)
  {
    var i :| 0 <= i < |parts| && parts[i] == o;
    var r := Reply(parts, o.callId);
    assert r.Some?;
    var j :| 0 <= j < |parts| && parts[j] == r.value;
    assert parts[j].ToolOutput? && parts[j].callId == parts[i].callId;
    assert i == j;
  }

  /** The order in which outputs arrive makes no difference. */
  lemma OutputOrderDoesNotMatter(p: seq<Part>, q: seq<Part>)
    requires Joinable(p) && Joinable(q) && CallsOf(p) == CallsOf(q)
    requires forall o: Part :: o.ToolOutput? ==> (o in p <==> o in q)
    ensures Trace(p) == Trace(q)
  {
    TraceIsJoin(p);
    TraceIsJoin(q);
    forall id ensures Reply(p, id) == Reply(q, id) {
      if Reply(p, id).Some? { ReplyIsUnique(q, Reply(p, id).value); }
      if Reply(q, id).Some? { ReplyIsUnique(p, Reply(q, id).value); }
    }
  }

  // ---- Entities and citations ----

  /** The value of a key. */
  function Get(members: seq<Field>, key: string): Option<Json> {
    if members == [] then None
    else if members[0].key == key then Some(members[0].value)
    else Get(members[1..], key)
  }

  datatype Visit = Visit(id: string, members: seq<Field>)

  /** The object itself, when it carries an entity id. */
  function Here(members: seq<Field>): seq<Visit> {
    match Get(members, "id")
    case Some(String(id)) => if IsEntityId(id) then [Visit(id, members)] else []
    case _ => []
  }

  /** Every object with an entity id, outer before inner, in the order of the document. */
  function Visits(value: Json): seq<Visit>
    decreases value, 0
  {
    match value
    case Array(items) => VisitsOfItems(items)
    case Object(members) => Here(members) + VisitsOfMembers(members)
    case _ => []
  }

  function VisitsOfItems(items: seq<Json>): seq<Visit>
    decreases items, 1
  {
    if items == [] then [] else Visits(items[0]) + VisitsOfItems(items[1..])
  }

  function VisitsOfMembers(members: seq<Field>): seq<Visit>
    decreases members, 1
  {
    if members == [] then [] else Visits(members[0].value) + VisitsOfMembers(members[1..])
  }

  datatype Citation = Citation(
    entity: string,
    kind: Option<string>,
    name: Option<string>,
    confidence: Option<real>,
    source: Option<string>,
    createdAt: Option<string>)

  function AsText(value: Option<Json>): Option<string> {
    match value case Some(String(text)) => Some(text) case _ => None
  }

  function FirstText(items: seq<Json>): Option<string> {
    if items == [] then None else if items[0].String? then Some(items[0].text) else FirstText(items[1..])
  }

  function Member(value: Option<Json>, key: string): Option<Json> {
    match value case Some(Object(members)) => Get(members, key) case _ => None
  }

  /** A proposition's predicate, from its id. */
  function PredicateOf(id: string): Option<string> {
    if |id| >= 2 && id[0] == 'P' && id[1] == ':' then
      match SplitOnce(id[2..]) case None => None case Some(parts) => Some(parts.1)
    else None
  }

  function CitationOf(v: Visit): Citation {
    var kind := AsText(Get(v.members, "type"));
    var metadata := Get(v.members, "metadata");
    Citation(
      v.id,
      if kind.Some? then kind else PredicateOf(v.id),
      AsText(Get(v.members, "name")),
      match Member(metadata, "confidence") case Some(Number(number)) => Some(number) case _ => None,
      match Member(metadata, "source")
      case Some(String(text)) => Some(text)
      case Some(Array(items)) => FirstText(items)
      case _ => None,
      AsText(Member(metadata, "created_at")))
  }

  /** A proposition without a type of its own is cited by its predicate. */
  lemma PropositionCitesPredicate(id: string, pred: string, members: seq<Field>)
    requires AllDigits(id) && AsText(Get(members, "type")).None?
    ensures CitationOf(Visit(PropositionId(id, pred), members)).kind == Some(pred)
  {
    SplitOnceOf(id, pred);
    assert PropositionId(id, pred)[2..] == id + [':'] + pred;
  }

  predicate Cited(citations: seq<Citation>, id: string) {
    exists i :: 0 <= i < |citations| && citations[i].entity == id
  }

  /** The first visit of every id is cited, in order. */
  function CitationsOf(visits: seq<Visit>): seq<Citation> {
    if visits == [] then [] else
    var before, v := CitationsOf(visits[..|visits| - 1]), visits[|visits| - 1];
    if Cited(before, v.id) then before else before + [CitationOf(v)]
  }

  function IdsOf(visits: seq<Visit>): set<string> {
    set v | v in visits :: v.id
  }

  /** The objects in the successful outputs of a trace. */
  function Shown(tools: seq<ToolTrace>): seq<Visit> {
    if tools == [] then []
    else Shown(tools[..|tools| - 1]) + OutputVisits(tools[|tools| - 1])
  }

  function OutputVisits(t: ToolTrace): seq<Visit> {
    if t.isError == Some(true) || t.output.None? then [] else Visits(t.output.value)
  }

  /** Collects citations while walking results. */
  class Citations {
    var seen: set<string>
    var citations: seq<Citation>

    /** The state after these visits. */
    ghost predicate Holds(visits: seq<Visit>)
      reads this
    {
      citations == CitationsOf(visits) && forall id :: id in seen <==> Cited(citations, id)
    }

    constructor ()
      ensures Holds([])
    {
      seen, citations := {}, [];
    }

    method Take(v: Visit, ghost visits: seq<Visit>)
      requires Holds(visits)
      modifies this
      ensures Holds(visits + [v])
    {
      assert (visits + [v])[..|visits|] == visits;
      if v.id !in seen {
        seen := seen + {v.id};
        citations := citations + [CitationOf(v)];
        assert citations[|citations| - 1].entity == v.id;
        assert forall id :: Cited(old(citations), id) ==> Cited(citations, id) by { CitedKept(old(citations), CitationOf(v)); }
      }
    }

    method WalkItems(items: seq<Json>, ghost visits: seq<Visit>)
      requires Holds(visits)
      modifies this
      ensures Holds(visits + VisitsOfItems(items))
      decreases items, 1
    {
      assert visits + VisitsOfItems(items[..0]) == visits;
      for i := 0 to |items|
        invariant Holds(visits + VisitsOfItems(items[..i]))
      {
        ItemsStep(visits, items, i);
        Walk(items[i], visits + VisitsOfItems(items[..i]));
      }
      assert items[..|items|] == items;
    }

    method WalkMembers(members: seq<Field>, ghost visits: seq<Visit>)
      requires Holds(visits)
      modifies this
      ensures Holds(visits + VisitsOfMembers(members))
      decreases members, 1
    {
      assert visits + VisitsOfMembers(members[..0]) == visits;
      for i := 0 to |members|
        invariant Holds(visits + VisitsOfMembers(members[..i]))
      {
        MembersStep(visits, members, i);
        Walk(members[i].value, visits + VisitsOfMembers(members[..i]));
      }
      assert members[..|members|] == members;
    }

    method TakeObject(members: seq<Field>, ghost visits: seq<Visit>)
      requires Holds(visits)
      modifies this
      ensures Holds(visits + Here(members))
    {
      var id := Get(members, "id");
      if id.Some? && id.value.String? && IsEntityId(id.value.text) {
        Take(Visit(id.value.text, members), visits);
      } else {
        assert visits + Here(members) == visits;
      }
    }

    method Walk(value: Json, ghost visits: seq<Visit>)
      requires Holds(visits)
      modifies this
      ensures Holds(visits + Visits(value))
      decreases value, 0
    {
      match value {
        case Array(items) => WalkItems(items, visits);
        case Object(members) =>
          Assoc(visits, Here(members), VisitsOfMembers(members));
          TakeObject(members, visits);
          WalkMembers(members, visits + Here(members));
        case _ => Assoc(visits, [], []);
      }
    }
  }

  lemma Assoc(a: seq<Visit>, b: seq<Visit>, c: seq<Visit>)
    ensures a + b + c == a + (b + c) && a + [] == a
  {
  }

  lemma CitedKept(citations: seq<Citation>, c: Citation)
    ensures forall id :: Cited(citations + [c], id) <==> Cited(citations, id) || id == c.entity
  {
    forall id ensures Cited(citations + [c], id) <==> Cited(citations, id) || id == c.entity {
      if Cited(citations, id) {
        var i :| 0 <= i < |citations| && citations[i].entity == id;
        assert (citations + [c])[i].entity == id;
      }
      if id == c.entity { assert (citations + [c])[|citations|].entity == id; }
    }
  }

  lemma {:induction false} ItemsConcat(a: seq<Json>, b: seq<Json>)
    ensures VisitsOfItems(a + b) == VisitsOfItems(a) + VisitsOfItems(b)
  {
    if a == [] {
      assert a + b == b;
    } else {
      assert (a + b)[1..] == a[1..] + b;
      ItemsConcat(a[1..], b);
    }
  }

  lemma ItemsStep(visits: seq<Visit>, items: seq<Json>, i: nat)
    requires i < |items|
    ensures visits + VisitsOfItems(items[..i + 1]) == visits + VisitsOfItems(items[..i]) + Visits(items[i])
  {
    assert items[..i + 1] == items[..i] + [items[i]];
    ItemsConcat(items[..i], [items[i]]);
    assert VisitsOfItems([items[i]]) == Visits(items[i]) + VisitsOfItems([]) == Visits(items[i]);
    Assoc(visits, VisitsOfItems(items[..i]), Visits(items[i]));
  }

  lemma {:induction false} MembersConcat(a: seq<Field>, b: seq<Field>)
    ensures VisitsOfMembers(a + b) == VisitsOfMembers(a) + VisitsOfMembers(b)
  {
    if a == [] {
      assert a + b == b;
    } else {
      assert (a + b)[1..] == a[1..] + b;
      MembersConcat(a[1..], b);
    }
  }

  lemma MembersStep(visits: seq<Visit>, members: seq<Field>, i: nat)
    requires i < |members|
    ensures visits + VisitsOfMembers(members[..i + 1]) == visits + VisitsOfMembers(members[..i]) + Visits(members[i].value)
  {
    assert members[..i + 1] == members[..i] + [members[i]];
    MembersConcat(members[..i], [members[i]]);
    assert VisitsOfMembers([members[i]]) == Visits(members[i].value) + VisitsOfMembers([]) == Visits(members[i].value);
    Assoc(visits, VisitsOfMembers(members[..i]), Visits(members[i].value));
  }

  method ExtractMemoryCitations(tools: seq<ToolTrace>) returns (citations: seq<Citation>)
    ensures citations == CitationsOf(Shown(tools))
  {
    var collector := new Citations();
    for i := 0 to |tools|
      invariant collector.Holds(Shown(tools[..i]))
    {
      assert tools[..i + 1][..i] == tools[..i];
      ghost var before := Shown(tools[..i]);
      if tools[i].isError == Some(true) || tools[i].output.None? {
        assert before + OutputVisits(tools[i]) == before;
      } else {
        collector.Walk(tools[i].output.value, before);
      }
    }
    assert tools[..|tools|] == tools;
    return collector.citations;
  }

  method EntityIdsOf(tools: seq<ToolTrace>) returns (ids: set<string>)
    ensures ids == IdsOf(Shown(tools))
  {
    ids := {};
    for i := 0 to |tools|
      invariant ids == IdsOf(Shown(tools[..i]))
    {
      assert tools[..i + 1][..i] == tools[..i];
      if tools[i].isError != Some(true) && tools[i].output.Some? {
        var more := IdsOf(Visits(tools[i].output.value));
        ids := ids + more;
      }
    }
    assert tools[..|tools|] == tools;
  }

  ghost predicate Distinct(citations: seq<Citation>) {
    forall i, j :: 0 <= i < j < |citations| ==> citations[i].entity != citations[j].entity
  }

  lemma {:induction false} CitedAreShown(visits: seq<Visit>, id: string)
    ensures Cited(CitationsOf(visits), id) <==> id in IdsOf(visits)
  {
    if visits != [] {
      var init, v := visits[..|visits| - 1], visits[|visits| - 1];
      assert visits == init + [v];
      CitedAreShown(init, id);
      CitedKept(CitationsOf(init), CitationOf(v));
    }
  }

  lemma DistinctWith(before: seq<Citation>, c: Citation)
    requires Distinct(before) && !Cited(before, c.entity)
    ensures Distinct(before + [c])
  {
  }

  lemma {:induction false} CitationsAreDistinct(visits: seq<Visit>)
    ensures Distinct(CitationsOf(visits))
  {
    if visits != [] {
      var init, v := visits[..|visits| - 1], visits[|visits| - 1];
      CitationsAreDistinct(init);
      if !Cited(CitationsOf(init), v.id) { DistinctWith(CitationsOf(init), CitationOf(v)); }
    }
  }

  /** The citation is that of the first object that shows its entity. */
  ghost predicate FromFirstVisit(visits: seq<Visit>, c: Citation) {
    exists k :: 0 <= k < |visits| && FirstVisit(visits, k) && c == CitationOf(visits[k])
  }

  lemma FromFirstVisitGrows(init: seq<Visit>, v: Visit, c: Citation)
    requires FromFirstVisit(init, c)
    ensures FromFirstVisit(init + [v], c)
  {
    var k :| 0 <= k < |init| && FirstVisit(init, k) && c == CitationOf(init[k]);
    assert FirstVisit(init + [v], k) && (init + [v])[k] == init[k];
  }

  lemma NewIsFirstVisit(init: seq<Visit>, v: Visit)
    requires !Cited(CitationsOf(init), v.id)
    ensures FromFirstVisit(init + [v], CitationOf(v))
  {
    CitedAreShown(init, v.id);
    assert FirstVisit(init + [v], |init|) && (init + [v])[|init|] == v;
  }

  lemma {:induction false} CitationComesFirst(visits: seq<Visit>, c: Citation)
    requires c in CitationsOf(visits)
    ensures FromFirstVisit(visits, c)
  {
    var init, v := visits[..|visits| - 1], visits[|visits| - 1];
    assert visits == init + [v];
    if c in CitationsOf(init) {
      CitationComesFirst(init, c);
      FromFirstVisitGrows(init, v, c);
    } else {
      NewIsFirstVisit(init, v);
    }
  }

  /** The citations are of distinct entities, exactly the entities the successful outputs show, and each is
      taken from the first object that shows its entity. */
  lemma CitationsAreFirstVisits(visits: seq<Visit>)
    ensures Distinct(CitationsOf(visits))
    ensures forall id :: Cited(CitationsOf(visits), id) <==> id in IdsOf(visits)
    ensures forall c :: c in CitationsOf(visits) ==> FromFirstVisit(visits, c)
  {
    CitationsAreDistinct(visits);
    forall id ensures Cited(CitationsOf(visits), id) <==> id in IdsOf(visits) { CitedAreShown(visits, id); }
    forall c | c in CitationsOf(visits) ensures FromFirstVisit(visits, c) { CitationComesFirst(visits, c); }
  }

  /** No earlier object shows the entity. */
  predicate FirstVisit(visits: seq<Visit>, k: nat)
    requires k < |visits|
  {
    forall j :: 0 <= j < k ==> visits[j].id != visits[k].id
  }
}
