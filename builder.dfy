/** The campaign builder: the workflow canvas (nodes and edges), the node
    editing it offers (label and configuration), the palette that appends
    nodes with registry defaults, and the chat box whose fixed keyword rules
    turn a request into a workflow. `Date.now()` and `Math.random()` are
    parameters of the operations that use them. */
module CampaignBuilder {
  import opened Wrappers
  import opened JsStrings
  import opened JsValues
  import opened Flow
  import NodeDefinitions
  import BaseNode

  // ------------------------------------------------------------------
  // Editing one node

  /** `{ ...(typeof current === 'object' && current !== null ? current : {}), ...newConfig }`. */
  function MergeConfig(current: Value, newConfig: Value): (r: Value)
    ensures r.Obj?
    ensures forall k :: k in Spread(newConfig) ==> k in r.fields && r.fields[k] == Spread(newConfig)[k]
    ensures forall k :: k in ObjectOrEmpty(current) && k !in Spread(newConfig) ==> k in r.fields && r.fields[k] == ObjectOrEmpty(current)[k]
    ensures forall k :: k in r.fields ==> k in Spread(newConfig) || k in ObjectOrEmpty(current)
  {
    Obj(ObjectOrEmpty(current) + Spread(newConfig))
  }

  /** A configuration that is `null`, missing or not an object counts as empty. */
  lemma MergeIntoNonObject(current: Value, newConfig: Value)
    requires !(current.Obj? || current.Arr?)
    ensures MergeConfig(current, newConfig) == Obj(Spread(newConfig))
  {
  }

  /** Merging the same update twice changes nothing more. */
  lemma MergeIdempotent(current: Value, newConfig: Value)
    ensures MergeConfig(MergeConfig(current, newConfig), newConfig) == MergeConfig(current, newConfig)
  {
    var once := MergeConfig(current, newConfig);
    assert ObjectOrEmpty(once) == once.fields;
    assert once.fields + Spread(newConfig) == once.fields;
  }

  /** The node list after `updateNodeConfig(id, newConfig)`. */
  function WithConfig(nodes: seq<Node>, id: string, newConfig: Value): (r: seq<Node>)
    ensures |r| == |nodes|
    ensures forall i :: 0 <= i < |nodes| && nodes[i].id != id ==> r[i] == nodes[i]
    ensures forall i :: 0 <= i < |nodes| && nodes[i].id == id ==>
      r[i] == nodes[i].(data := nodes[i].data.(config := MergeConfig(nodes[i].data.config, newConfig)))
  {
    seq(|nodes|, i requires 0 <= i < |nodes| =>
      if nodes[i].id == id
      then nodes[i].(data := nodes[i].data.(config := MergeConfig(nodes[i].data.config, newConfig)))
      else nodes[i])
  }

  /** The node list after `updateNodeLabel(id, newLabel)`. */
  function WithLabel(nodes: seq<Node>, id: string, newLabel: string): (r: seq<Node>)
    ensures |r| == |nodes|
    ensures forall i :: 0 <= i < |nodes| && nodes[i].id != id ==> r[i] == nodes[i]
    ensures forall i :: 0 <= i < |nodes| && nodes[i].id == id ==> r[i] == nodes[i].(data := nodes[i].data.(title := newLabel))
  {
    seq(|nodes|, i requires 0 <= i < |nodes| =>
      if nodes[i].id == id then nodes[i].(data := nodes[i].data.(title := newLabel)) else nodes[i])
  }

  /** Editing keeps every id, so the graph stays connected, and an unknown
      id edits nothing. */
  lemma EditsKeepIds(nodes: seq<Node>, edges: seq<Edge>, id: string, newLabel: string, newConfig: Value)
    ensures NodeIds(WithLabel(nodes, id, newLabel)) == NodeIds(nodes)
    ensures NodeIds(WithConfig(nodes, id, newConfig)) == NodeIds(nodes)
    ensures Connected(nodes, edges) ==> Connected(WithConfig(WithLabel(nodes, id, newLabel), id, newConfig), edges)
    ensures id !in NodeIds(nodes) ==> WithLabel(nodes, id, newLabel) == nodes && WithConfig(nodes, id, newConfig) == nodes
  {
    assert NodeIds(WithConfig(WithLabel(nodes, id, newLabel), id, newConfig)) == NodeIds(nodes);
  }

  /** `handleModalSave`: the matching nodes get the new label and the merged
      configuration, keeping id, type and position; the others are untouched. */
  lemma ModalSaveEffect(nodes: seq<Node>, id: string, newLabel: string, newConfig: Value, i: int)
    requires 0 <= i < |nodes|
    ensures |WithConfig(WithLabel(nodes, id, newLabel), id, newConfig)| == |nodes|
    ensures nodes[i].id != id ==> WithConfig(WithLabel(nodes, id, newLabel), id, newConfig)[i] == nodes[i]
    ensures nodes[i].id == id ==>
      WithConfig(WithLabel(nodes, id, newLabel), id, newConfig)[i] ==
      Node(id, nodes[i].nodeType, nodes[i].position, NodeData(newLabel, MergeConfig(nodes[i].data.config, newConfig)))
  {
  }

  // ------------------------------------------------------------------
  // Default data of a new node (`getDefaultNodeData`)

  /** The value a schema field starts with: its `default`, else a `select`'s
      first option (`undefined` for an empty option list), else `false` for a
      `boolean` and `1` for a `number`; other fields get no key. */
  function FieldDefault(f: NodeDefinitions.FieldSchema): Option<Value>
  {
    if f.default.Some? then f.default
    else if f.kind == NodeDefinitions.Select && f.options.Some? then
      Some(if |f.options.value| > 0 then Str(f.options.value[0]) else Undef)
    else if f.kind == NodeDefinitions.Boolean then Some(Bool(false))
    else if f.kind == NodeDefinitions.Number then Some(Num(1))
    else None
  }

  /** The configuration the `forEach` over the schema builds. */
  function DefaultConfig(schema: seq<(string, NodeDefinitions.FieldSchema)>): (r: Config)
    ensures |r| <= |schema|
  {
    if schema == [] then map[]
    else
      var m := DefaultConfig(schema[..|schema| - 1]);
      var (key, field) := schema[|schema| - 1];
      if FieldDefault(field).Some? then m[key := FieldDefault(field).value] else m
  }

  /** The schema's field names are distinct, as in an object literal. */
  predicate DistinctFieldNames(schema: seq<(string, NodeDefinitions.FieldSchema)>)
  {
    forall i, j :: 0 <= i < j < |schema| ==> schema[i].0 != schema[j].0
  }

  /** The default configuration has a key exactly for the schema fields that
      have a starting value, and holds that value. */
  lemma {:induction false} DefaultConfigSpec(schema: seq<(string, NodeDefinitions.FieldSchema)>, j: int)
    requires DistinctFieldNames(schema) && 0 <= j < |schema|
    ensures schema[j].0 in DefaultConfig(schema) <==> FieldDefault(schema[j].1).Some?
    ensures FieldDefault(schema[j].1).Some? ==> DefaultConfig(schema)[schema[j].0] == FieldDefault(schema[j].1).value
  {
    var init := schema[..|schema| - 1];
    if j < |init| {
      assert DistinctFieldNames(init);
      assert init[j] == schema[j];
      DefaultConfigSpec(init, j);
    } else {
      assert forall p :: 0 <= p < |init| ==> init[p].0 != schema[j].0 by {
        forall p | 0 <= p < |init| ensures init[p].0 != schema[j].0 {
          assert init[p] == schema[p];
        }
      }
      DefaultConfigAbsent(init, schema[j].0);
    }
  }

  /** A name no schema field has gets no key. */
  lemma {:induction false} DefaultConfigAbsent(schema: seq<(string, NodeDefinitions.FieldSchema)>, k: string)
    requires forall p :: 0 <= p < |schema| ==> schema[p].0 != k
    ensures k !in DefaultConfig(schema)
  {
    if schema != [] {
      var init := schema[..|schema| - 1];
      assert forall p :: 0 <= p < |init| ==> init[p] == schema[p];
      DefaultConfigAbsent(init, k);
    }
  }

  /** Every key of the default configuration is a schema field. */
  lemma {:induction false} DefaultConfigKeys(schema: seq<(string, NodeDefinitions.FieldSchema)>, k: string)
    requires k in DefaultConfig(schema)
    ensures exists j :: 0 <= j < |schema| && schema[j].0 == k && FieldDefault(schema[j].1).Some?
  {
    var init := schema[..|schema| - 1];
    if k != schema[|schema| - 1].0 || FieldDefault(schema[|schema| - 1].1).None? {
      DefaultConfigKeys(init, k);
      var j :| 0 <= j < |init| && init[j].0 == k && FieldDefault(init[j].1).Some?;
      assert schema[j] == init[j];
    }
  }

  /** The node data a definition gives: 'New Node' with an empty
      configuration when there is no definition, otherwise the definition's
      label and default configuration. */
  function DataFor(definition: Option<NodeDefinitions.NodeTypeDef>): NodeData
  {
    match definition
    case None => NodeData("New Node", Obj(map[]))
    case Some(d) => NodeData(d.defaultLabel, Obj(DefaultConfig(d.configSchema)))
  }

  /** `getDefaultNodeData(nodeType)`, as a value. */
  function DefaultData(nodeType: string): (d: NodeData)
    ensures d.config.Obj?
    ensures NodeDefinitions.Lookup(NodeDefinitions.Definitions, nodeType).None? ==> d == NodeData("New Node", Obj(map[]))
    ensures NodeDefinitions.Lookup(NodeDefinitions.Definitions, nodeType).Some? ==>
      var def := NodeDefinitions.Lookup(NodeDefinitions.Definitions, nodeType).value;
      d.title == def.defaultLabel && d.config.fields == DefaultConfig(def.configSchema) && |d.config.fields| <= |def.configSchema|
  {
    DataFor(NodeDefinitions.Lookup(NodeDefinitions.Definitions, nodeType))
  }

  /** `getDefaultNodeData(nodeType)`. */
  method DefaultNodeData(nodeType: string) returns (data: NodeData)
    ensures data == DefaultData(nodeType)
  {
    var definition := NodeDefinitions.Lookup(NodeDefinitions.Definitions, nodeType);
    if definition.None? {
      return NodeData("New Node", Obj(map[]));
    }
    var defaultConfig := SchemaDefaults(definition.value.configSchema);
    data := NodeData(definition.value.defaultLabel, Obj(defaultConfig));
  }

  /** The `forEach` of `getDefaultNodeData`, one schema field at a time. */
  method SchemaDefaults(schema: seq<(string, NodeDefinitions.FieldSchema)>) returns (defaultConfig: Config)
    ensures defaultConfig == DefaultConfig(schema)
  {
    defaultConfig := map[];
    var i := 0;
    while i < |schema|
      invariant 0 <= i <= |schema|
      invariant defaultConfig == DefaultConfig(schema[..i])
    {
      var (key, field) := schema[i];
      assert schema[..i + 1][..i] == schema[..i];
      if field.default.Some? {
        defaultConfig := defaultConfig[key := field.default.value];
      } else if field.kind == NodeDefinitions.Select && field.options.Some? {
        var options := field.options.value;
        defaultConfig := defaultConfig[key := if |options| > 0 then Str(options[0]) else Undef];
      } else if field.kind == NodeDefinitions.Boolean {
        defaultConfig := defaultConfig[key := Bool(false)];
      } else if field.kind == NodeDefinitions.Number {
        defaultConfig := defaultConfig[key := Num(1)];
      }
      i := i + 1;
    }
    assert schema[..i] == schema;
  }

  /** The `false` and `1` fallbacks apply to a field: a `boolean` or `number`
      without a `default`. */
  predicate UsesFallback(f: NodeDefinitions.FieldSchema)
  {
    f.default.None? && (f.kind == NodeDefinitions.Boolean || f.kind == NodeDefinitions.Number)
  }

  /** A field whose starting value is its own `default` or, for a
      `select`, its first option. */
  predicate WellDefaulted(f: NodeDefinitions.FieldSchema)
  {
    && !UsesFallback(f)
    && (f.default.None? && f.kind == NodeDefinitions.Select ==> f.options.Some? && |f.options.value| > 0)
  }

  /** A well-defaulted field starts at its `default`, at a `select`'s
      first option, or without a key. */
  lemma WellDefaultedStart(f: NodeDefinitions.FieldSchema)
    requires WellDefaulted(f)
    ensures f.default.Some? ==> FieldDefault(f) == f.default
    ensures f.default.None? && f.kind == NodeDefinitions.Select ==> FieldDefault(f) == Some(Str(f.options.value[0]))
    ensures f.default.None? && f.kind != NodeDefinitions.Select ==> FieldDefault(f) == None
  {
  }

  /** For the registry's types the fallbacks never fire: every starting
      value is the field's own `default` or a `select`'s first option. */
  lemma RegistryNeverFallsBack()
    ensures forall i, j :: 0 <= i < |NodeDefinitions.Definitions| && 0 <= j < |NodeDefinitions.Definitions[i].configSchema| ==>
      WellDefaulted(NodeDefinitions.Definitions[i].configSchema[j].1)
  {
  }

  /** A `select` field lists at least one option; a time picker has a `default`. */
  predicate FullySpecified(f: NodeDefinitions.FieldSchema)
  {
    && (f.kind == NodeDefinitions.Select ==> f.options.Some? && |f.options.value| > 0)
    && (f.kind == NodeDefinitions.TimePicker ==> f.default.Some?)
  }

  /** Every `select` of the registry lists at least one option and every
      time picker has a `default`. */
  lemma RegistryFieldsSpecified()
    ensures forall i, j :: 0 <= i < |NodeDefinitions.Definitions| && 0 <= j < |NodeDefinitions.Definitions[i].configSchema| ==>
      FullySpecified(NodeDefinitions.Definitions[i].configSchema[j].1)
  {
  }

  /** A new node of the `i`th registry type carries that type's default
      label and the default configuration of its schema. */
  lemma KnownTypeDefaults(i: int)
    requires 0 <= i < |NodeDefinitions.RegistryKeys|
    ensures DefaultData(NodeDefinitions.RegistryKeys[i]) ==
      NodeData(NodeDefinitions.Definitions[i].defaultLabel, Obj(DefaultConfig(NodeDefinitions.Definitions[i].configSchema)))
  {
    NodeDefinitions.RegistryLookup(i);
  }

  /** The wait type's schema starts at a duration of 3 hours, counting weekends. */
  lemma WaitSchemaDefaults()
    ensures DefaultConfig(NodeDefinitions.Wait.configSchema) == map["duration" := Num(3), "unit" := Str("hours"), "businessDaysOnly" := Bool(false)]
  {
    var schema := NodeDefinitions.Wait.configSchema;
    assert schema[..1][..0] == [];
    assert DefaultConfig(schema[..1]) == map["duration" := Num(3)];
    assert schema[..2][..1] == schema[..1];
    assert DefaultConfig(schema[..2]) == map["duration" := Num(3), "unit" := Str("hours")];
    assert schema[..3] == schema;
  }

  /** A new node of a type the registry lacks. */
  lemma UnknownTypeDefaults(nodeType: string)
    requires nodeType !in NodeDefinitions.RegistryKeys
    ensures DefaultData(nodeType) == NodeData("New Node", Obj(map[]))
  {
    NodeDefinitions.RegistryKeyList();
  }

  // ------------------------------------------------------------------
  // The renderer of each node type (`nodeTypes`)

  /** A renderer made by `createSpecificNode(renders)`: the generic node
      drawn as type `renders`, exported under `name`. */
  datatype Renderer = SpecificNode(name: string, renders: string)

  /** `componentMap`, in its declaration order. */
  const ComponentMap: seq<(string, Renderer)> := [
    ("gap_trigger", SpecificNode("GapTriggerNode", "gap_trigger")),
    ("enrollment_trigger", SpecificNode("EnrollmentTriggerNode", "enrollment_trigger")),
    ("health_event", SpecificNode("HealthEventNode", "health_event")),
    ("sms", SpecificNode("SmsNode", "sms")),
    ("email", SpecificNode("EmailNode", "email")),
    ("phone", SpecificNode("PhoneNode", "phone")),
    ("mail", SpecificNode("MailNode", "mail")),
    ("age_check", SpecificNode("AgeCheckNode", "age_check")),
    ("response_check", SpecificNode("ResponseCheckNode", "response_check")),
    ("risk_check", SpecificNode("RiskCheckNode", "risk_check")),
    ("history_check", SpecificNode("HistoryCheckNode", "history_check")),
    ("wait", SpecificNode("WaitNode", "wait")),
    ("schedule_time", SpecificNode("ScheduleTimeNode", "schedule_time")),
    ("schedule_appointment", SpecificNode("ScheduleAppointmentNode", "schedule_appointment")),
    ("escalate", SpecificNode("EscalateNode", "escalate")),
    ("update_record", SpecificNode("UpdateRecordNode", "update_record")),
    ("add_tag", SpecificNode("AddTagNode", "add_tag")),
    ("success", SpecificNode("SuccessNode", "success")),
    ("incomplete", SpecificNode("IncompleteNode", "incomplete"))]

  /** `componentMap[nodeType]`: the first entry for that type. */
  function FindRenderer(entries: seq<(string, Renderer)>, nodeType: string): (r: Option<Renderer>)
    ensures r.None? <==> forall i :: 0 <= i < |entries| ==> entries[i].0 != nodeType
    ensures r.Some? ==> exists i :: 0 <= i < |entries| && entries[i].0 == nodeType && entries[i].1 == r.value
  {
    if entries == [] then None
    else if entries[0].0 == nodeType then Some(entries[0].1)
    else
      var r := FindRenderer(entries[1..], nodeType);
      assert forall i :: 0 < i < |entries| ==> entries[i] == entries[1..][i - 1];
      r
  }

  /** `nodeTypes`: the reduce over the registry keys that keeps the keys
      with a renderer. */
  function NodeTypes(keys: seq<string>): (m: map<string, Renderer>)
    ensures forall k :: k in m <==> k in keys && FindRenderer(ComponentMap, k).Some?
    ensures forall k :: k in m ==> m[k] == FindRenderer(ComponentMap, k).value
  {
    map k | k in keys && FindRenderer(ComponentMap, k).Some? :: FindRenderer(ComponentMap, k).value
  }

  /** When the entries list the keys in order, each with a renderer of its
      own type, every key finds a renderer drawing that type. */
  lemma RenderersMatchKeys(entries: seq<(string, Renderer)>, keys: seq<string>, k: string)
    requires |entries| == |keys|
    requires forall i :: 0 <= i < |keys| ==> entries[i].0 == keys[i] && entries[i].1.renders == keys[i]
    requires k in keys
    ensures FindRenderer(entries, k).Some? && FindRenderer(entries, k).value.renders == k
  {
  }

  /** Every registry type has a renderer, and it draws that very type. */
  lemma EveryTypeHasRenderer(k: string)
    requires k in NodeDefinitions.RegistryKeys
    ensures k in NodeTypes(NodeDefinitions.RegistryKeys)
    ensures NodeTypes(NodeDefinitions.RegistryKeys)[k].renders == k
  {
    var keys := NodeDefinitions.RegistryKeys;
    assert |ComponentMap| == |keys|;
    assert forall i :: 0 <= i < |keys| ==> ComponentMap[i].0 == keys[i] && ComponentMap[i].1.renders == keys[i];
    RenderersMatchKeys(ComponentMap, keys, k);
  }

  // ------------------------------------------------------------------
  // The canvas as the builder starts it, and the chat rule table

  datatype Sender = User | Ai

  datatype ChatMessage = ChatMessage(sender: Sender, message: string)

  function Config2(k1: string, v1: Value, k2: string, v2: Value): Value
  {
    Obj(map[k1 := v1, k2 := v2])
  }

  function Config1(k: string, v: Value): Value
  {
    Obj(map[k := v])
  }

  const InitialNodes: seq<Node> := [
    Node("start", "gap_trigger", Position(100.0, 100.0),
      NodeData("Campaign Start", Config2("gapType", Str("General"), "daysOverdue", Num(0))))]

  const Greeting: string := "Hi! I can help you create a campaign workflow. Try: \"Create a mammogram screening campaign for women 40-74 who are overdue. For women 40-49, send educational SMS first, then scheduling help. For 50+, go straight to scheduling. Try SMS, wait 5 days, then phone call.\""

  const MammogramPhrase: string := "create a mammogram screening campaign"

  /** The canned mammogram screening workflow. */
  const MammogramNodes: seq<Node> := [
    Node("trigger_mammogram", "gap_trigger", Position(100.0, 200.0), NodeData("Mammogram Overdue",
      Obj(map["gapType" := Str("Mammogram"), "daysOverdue" := Num(365), "gender" := Str("female"),
        "ageRange" := Config2("min", Num(40), "max", Num(74))]))),
    Node("age_check", "age_check", Position(300.0, 200.0), NodeData("Age Group Check",
      Config1("branches", Arr([
        Obj(map["operator" := Str("<"), "value" := Num(50), "label" := Str("40-49")]),
        Obj(map["operator" := Str(">="), "value" := Num(50), "label" := Str("50+")])])))),
    Node("sms_education", "sms", Position(500.0, 100.0), NodeData("Educational SMS",
      Config2("template", Str("mammogram_guidelines_40s"), "timing", Str("morning")))),
    Node("wait_edu", "wait", Position(700.0, 100.0), NodeData("Wait 2 Days",
      Config2("duration", Num(2), "unit", Str("days")))),
    Node("sms_schedule_young", "sms", Position(900.0, 100.0), NodeData("Scheduling SMS",
      Config1("template", Str("schedule_mammogram")))),
    Node("sms_schedule_older", "sms", Position(500.0, 300.0), NodeData("Scheduling SMS",
      Config1("template", Str("schedule_mammogram_urgent")))),
    Node("wait_main", "wait", Position(700.0, 250.0), NodeData("Wait 5 Days",
      Config2("duration", Num(5), "unit", Str("days")))),
    Node("phone_followup", "phone", Position(900.0, 250.0), NodeData("Phone Follow-up",
      Config1("callType", Str("automated")))),
    Node("response_check", "response_check", Position(1100.0, 250.0), NodeData("Response Check",
      Config2("responseType", Str("any"), "waitHours", Num(48)))),
    Node("end_success", "success", Position(1300.0, 200.0), NodeData("Campaign Complete",
      Config1("outcome", Str("appointment_scheduled")))),
    Node("end_incomplete", "incomplete", Position(1300.0, 350.0), NodeData("Max Attempts",
      Config2("reason", Str("max_attempts"), "followUpAction", Str("retry_next_quarter"))))]

  const MammogramEdges: seq<Edge> := [
    Plain("e1", "trigger_mammogram", "age_check"),
    Edge("e2", "age_check", "sms_education", Some("true"), Some("40-49")),
    Edge("e3", "age_check", "sms_schedule_older", Some("false"), Some("50+")),
    Plain("e4", "sms_education", "wait_edu"),
    Plain("e5", "wait_edu", "sms_schedule_young"),
    Plain("e6", "sms_schedule_young", "wait_main"),
    Plain("e7", "sms_schedule_older", "wait_main"),
    Plain("e8", "wait_main", "phone_followup"),
    Plain("e9", "phone_followup", "response_check"),
    Edge("e10", "response_check", "end_success", Some("true"), Some("Responded")),
    Edge("e11", "response_check", "end_incomplete", Some("false"), Some("No Response"))]

  /** The three nodes of the high-risk branch; `t1`, `t2` and `t3` are the
      values of the three separate `Date.now()` calls in their ids. */
  function RiskNodes(t1: nat, t2: nat, t3: nat): (r: seq<Node>)
    ensures |r| == 3
    ensures forall i :: 0 <= i < |r| ==> r[i].data.config.Obj?
  {
    [Node("knowledge_risk_" + NatToString(t1), "history_check", Position(50.0, 350.0), NodeData("Check Family History",
       Config2("checkType", Str("family_history"), "lookback", Str("all_time")))),
     Node("risk_check_" + NatToString(t2), "risk_check", Position(200.0, 350.0), NodeData("Risk Assessment",
       Config2("riskModel", Str("Clinical"), "branches", Arr([Str("high"), Str("medium"), Str("low")])))),
     Node("phone_urgent_" + NatToString(t3), "phone", Position(400.0, 450.0), NodeData("Urgent Phone Call",
       Obj(map["callType" := Str("live_agent"), "maxAttempts" := Num(3), "leaveVoicemail" := Bool(false)])))]
  }

  /** Each risk node has a registered type, so it is drawn and editable. */
  lemma RiskNodeTypesRegistered(t1: nat, t2: nat, t3: nat)
    ensures forall i :: 0 <= i < 3 ==> RiskNodes(t1, t2, t3)[i].nodeType in NodeDefinitions.RegistryKeys
  {
  }

  const OpeningReply: string := "I've analyzed your request and created a complete mammogram screening workflow. "
  const MammogramReply: string := "Created complete mammogram screening workflow with age-based branching, educational messaging for younger women, SMS/phone progression, and proper end states."
  const RiskReply: string := " Added high-risk pathway with family history check and urgent phone outreach."
  const FallbackReply: string := "I didn't recognize specific actions in your message. You can drag nodes from the palette below to build your workflow manually."

  predicate AsksForMammogram(text: string)
  {
    Contains(Lower(text), MammogramPhrase)
  }

  predicate AsksForRisk(text: string)
  {
    Contains(Lower(text), "high-risk") || Contains(Lower(text), "family history")
  }

  /** What the rule table makes of a chat message: the nodes and edges to
      install (none means the canvas is kept) and the reply. */
  datatype ChatResult = ChatResult(newNodes: seq<Node>, newEdges: seq<Edge>, reply: string)

  /** The rule table of `handleChatSubmit`, case by case. */
  function ChatRules(text: string, t1: nat, t2: nat, t3: nat): (r: ChatResult)
    ensures r.newNodes == [] <==> !AsksForMammogram(text) && !AsksForRisk(text)
    ensures r.newNodes == [] ==> r.newEdges == [] && r.reply == FallbackReply
    ensures r.newEdges != [] ==> AsksForMammogram(text)
    ensures AsksForMammogram(text) ==> MammogramNodes <= r.newNodes
  {
    var mammogram := AsksForMammogram(text);
    var risk := AsksForRisk(text);
    var nodes := (if mammogram then MammogramNodes else []) + (if risk then RiskNodes(t1, t2, t3) else []);
    if nodes == [] then ChatResult([], [], FallbackReply)
    else ChatResult(nodes, if mammogram then MammogramEdges else [],
      (if mammogram then MammogramReply else OpeningReply) + (if risk then RiskReply else ""))
  }

  /** The keyword steps of `handleChatSubmit`: the reply starts as the
      opening sentence, the mammogram phrase replaces it and installs the
      workflow, the risk words append the risk branch, and a message that
      produced no nodes gets the fallback reply. */
  method ApplyChatRules(chatInput: string, t1: nat, t2: nat, t3: nat) returns (newNodes: seq<Node>, newEdges: seq<Edge>, aiResponse: string)
    ensures newNodes == ChatRules(chatInput, t1, t2, t3).newNodes
    ensures newEdges == ChatRules(chatInput, t1, t2, t3).newEdges
    ensures aiResponse == ChatRules(chatInput, t1, t2, t3).reply
  {
    var input := Lower(chatInput);
    aiResponse := OpeningReply;
    newNodes := [];
    newEdges := [];
    if Contains(input, MammogramPhrase) {
      newNodes := MammogramNodes;
      newEdges := MammogramEdges;
      aiResponse := MammogramReply;
    }
    if Contains(input, "high-risk") || Contains(input, "family history") {
      newNodes := newNodes + RiskNodes(t1, t2, t3);
      aiResponse := aiResponse + RiskReply;
    }
    if |newNodes| == 0 {
      aiResponse := FallbackReply;
    }
  }

  /** The outcome of each combination of the two keyword tests: the
      workflow alone, the workflow followed by the risk branch, the risk
      branch alone (without edges, under the opening sentence), or the
      fallback reply with nothing to install. */
  lemma ChatRulesCases(text: string, t1: nat, t2: nat, t3: nat)
    ensures AsksForMammogram(text) && !AsksForRisk(text) ==> ChatRules(text, t1, t2, t3) == ChatResult(MammogramNodes, MammogramEdges, MammogramReply)
    ensures AsksForMammogram(text) && AsksForRisk(text) ==>
      ChatRules(text, t1, t2, t3) == ChatResult(MammogramNodes + RiskNodes(t1, t2, t3), MammogramEdges, MammogramReply + RiskReply)
    ensures !AsksForMammogram(text) && AsksForRisk(text) ==> ChatRules(text, t1, t2, t3) == ChatResult(RiskNodes(t1, t2, t3), [], OpeningReply + RiskReply)
    ensures !AsksForMammogram(text) && !AsksForRisk(text) ==> ChatRules(text, t1, t2, t3) == ChatResult([], [], FallbackReply)
  {
  }

  // ------------------------------------------------------------------
  // The builder's state

  class Builder {
    var nodes: seq<Node>
    var edges: seq<Edge>
    var chatHistory: seq<ChatMessage>
    var chatInput: string
    var selectedNode: Option<Node>
    var isModalOpen: bool

    /** The canvas holds the start trigger, the chat the greeting. */
    constructor ()
      ensures nodes == InitialNodes && edges == []
      ensures chatHistory == [ChatMessage(Ai, Greeting)] && chatInput == ""
      ensures selectedNode == None && !isModalOpen
    {
      nodes := InitialNodes;
      edges := [];
      chatHistory := [ChatMessage(Ai, Greeting)];
      chatInput := "";
      selectedNode := None;
      isModalOpen := false;
    }

    /** `handleNodeEdit`: opens the editor on the first node with that id,
        when there is one. */
    method HandleNodeEdit(id: string)
      modifies this
      ensures FindNode(old(nodes), id).Some? ==> selectedNode == FindNode(old(nodes), id) && isModalOpen
      ensures FindNode(old(nodes), id).None? ==> selectedNode == old(selectedNode) && isModalOpen == old(isModalOpen)
      ensures nodes == old(nodes) && edges == old(edges)
      ensures chatHistory == old(chatHistory) && chatInput == old(chatInput)
    {
      var node := FindNode(nodes, id);
      if node.Some? {
        selectedNode := node;
        isModalOpen := true;
      }
    }

    /** The editor's close button. */
    method CloseModal()
      modifies this
      ensures selectedNode == None && !isModalOpen
      ensures nodes == old(nodes) && edges == old(edges)
      ensures chatHistory == old(chatHistory) && chatInput == old(chatInput)
    {
      isModalOpen := false;
      selectedNode := None;
    }

    method UpdateNodeConfig(id: string, newConfig: Value)
      modifies this
      ensures nodes == WithConfig(old(nodes), id, newConfig)
      ensures edges == old(edges) && chatHistory == old(chatHistory) && chatInput == old(chatInput)
      ensures selectedNode == old(selectedNode) && isModalOpen == old(isModalOpen)
    {
      nodes := WithConfig(nodes, id, newConfig);
    }

    method UpdateNodeLabel(id: string, newLabel: string)
      modifies this
      ensures nodes == WithLabel(old(nodes), id, newLabel)
      ensures edges == old(edges) && chatHistory == old(chatHistory) && chatInput == old(chatInput)
      ensures selectedNode == old(selectedNode) && isModalOpen == old(isModalOpen)
    {
      nodes := WithLabel(nodes, id, newLabel);
    }

    /** `handleModalSave`: the label update, then the configuration merge,
        then the editor closes. */
    method HandleModalSave(id: string, newLabel: string, newConfig: Value)
      modifies this
      ensures nodes == WithConfig(WithLabel(old(nodes), id, newLabel), id, newConfig)
      ensures edges == old(edges) && chatHistory == old(chatHistory) && chatInput == old(chatInput)
      ensures selectedNode == None && !isModalOpen
    {
      UpdateNodeLabel(id, newLabel);
      UpdateNodeConfig(id, newConfig);
      isModalOpen := false;
      selectedNode := None;
    }

    /** `addNodeFromPalette`: `now` is `Date.now()`, `rx` and `ry` the two
        `Math.random()` draws. Exactly one node is appended. */
    method AddNodeFromPalette(nodeType: string, now: nat, rx: real, ry: real)
      requires 0.0 <= rx < 1.0 && 0.0 <= ry < 1.0
      modifies this
      ensures nodes == old(nodes) + [Node(nodeType + "-" + NatToString(now), nodeType, Position(rx * 300.0 + 100.0, ry * 200.0 + 200.0), DefaultData(nodeType))]
      ensures 100.0 <= nodes[|nodes| - 1].position.x < 400.0 && 200.0 <= nodes[|nodes| - 1].position.y < 400.0
      ensures edges == old(edges) && chatHistory == old(chatHistory) && chatInput == old(chatInput)
      ensures selectedNode == old(selectedNode) && isModalOpen == old(isModalOpen)
    {
      var data := DefaultNodeData(nodeType);
      var node := Node(nodeType + "-" + NatToString(now), nodeType, Position(rx * 300.0 + 100.0, ry * 200.0 + 200.0), data);
      nodes := nodes + [node];
    }

    /** The chat box's `onChange`. */
    method TypeChat(text: string)
      modifies this
      ensures chatInput == text
      ensures nodes == old(nodes) && edges == old(edges) && chatHistory == old(chatHistory)
      ensures selectedNode == old(selectedNode) && isModalOpen == old(isModalOpen)
    {
      chatInput := text;
    }

    /** `handleChatSubmit`; `t1`, `t2`, `t3` are the `Date.now()` values of
        the risk rule. A blank message changes nothing. Otherwise the
        message and the reply are appended, the input is cleared, and the
        rule table's nodes and edges replace the canvas when it produced
        any nodes. */
    method HandleChatSubmit(t1: nat, t2: nat, t3: nat)
      modifies this
      ensures IsBlank(old(chatInput)) ==>
        nodes == old(nodes) && edges == old(edges) && chatHistory == old(chatHistory) && chatInput == old(chatInput)
      ensures !IsBlank(old(chatInput)) ==>
        chatHistory == old(chatHistory) + [ChatMessage(User, old(chatInput)), ChatMessage(Ai, ChatRules(old(chatInput), t1, t2, t3).reply)]
      ensures !IsBlank(old(chatInput)) ==> chatInput == ""
      ensures !IsBlank(old(chatInput)) && |ChatRules(old(chatInput), t1, t2, t3).newNodes| > 0 ==>
        nodes == ChatRules(old(chatInput), t1, t2, t3).newNodes && edges == ChatRules(old(chatInput), t1, t2, t3).newEdges
      ensures |ChatRules(old(chatInput), t1, t2, t3).newNodes| == 0 ==> nodes == old(nodes) && edges == old(edges)
      ensures selectedNode == old(selectedNode) && isModalOpen == old(isModalOpen)
    {
      var message := chatInput;
      // `!chatInput.trim()`, which holds exactly for blank input (TrimEmptyIffBlank)
      if !IsBlank(message) {
        var newNodes, newEdges, aiResponse := ApplyChatRules(message, t1, t2, t3);
        if |newNodes| > 0 {
          nodes := newNodes;
          edges := newEdges;
        }
        chatHistory := chatHistory + [ChatMessage(User, message), ChatMessage(Ai, aiResponse)];
        chatInput := "";
      }
    }
  }

  // ------------------------------------------------------------------
  // What the rule table guarantees

  /** The rules read the message case-insensitively. */
  lemma RulesIgnoreCase(text: string, t1: nat, t2: nat, t3: nat)
    ensures ChatRules(Lower(text), t1, t2, t3) == ChatRules(text, t1, t2, t3)
  {
    LowerIdempotent(text);
  }

  /** A message that quotes the phrase, in any letter case, asks for the
      mammogram workflow. */
  lemma PhraseTriggersMammogram(before: string, after: string)
    ensures AsksForMammogram(before + MammogramPhrase + after)
  {
    LowerConcat(before, MammogramPhrase);
    LowerConcat(before + MammogramPhrase, after);
    LowerOfLowerCase(MammogramPhrase);
    ContainsSplice(Lower(before), MammogramPhrase, Lower(after));
  }

  const MammogramIds: seq<string> := [
    "trigger_mammogram", "age_check", "sms_education", "wait_edu", "sms_schedule_young",
    "sms_schedule_older", "wait_main", "phone_followup", "response_check", "end_success", "end_incomplete"]

  lemma MammogramIdList()
    ensures NodeIds(MammogramNodes) == MammogramIds
  {
  }

  /** The mammogram workflow has 11 nodes with distinct ids and 11 edges. */
  lemma MammogramIdsDistinct()
    ensures |MammogramNodes| == 11 && |MammogramEdges| == 11
    ensures DistinctIds(NodeIds(MammogramNodes))
  {
    MammogramIdList();
    MammogramIdListDistinct();
  }

  lemma MammogramIdListDistinct()
    ensures DistinctIds(MammogramIds)
  {
    var prints := MammogramPrints;
    assert |prints| == |MammogramIds|;
    forall i | 0 <= i < |MammogramIds| ensures Fingerprint(MammogramIds[i]) == prints[i] {
      MammogramPrintAt(i);
    }
    forall i, j | 0 <= i < j < |MammogramIds| ensures MammogramIds[i] != MammogramIds[j] {
      assert prints[i] != prints[j];
    }
  }

  /** The fingerprints of the mammogram workflow's node ids, pairwise different. */
  const MammogramPrints: seq<int> := [
    (17 * 0x110000 + 't' as int) * 0x110000 + 'm' as int,
    (9 * 0x110000 + 'a' as int) * 0x110000 + 'k' as int,
    (13 * 0x110000 + 's' as int) * 0x110000 + 'n' as int,
    (8 * 0x110000 + 'w' as int) * 0x110000 + 'u' as int,
    (18 * 0x110000 + 's' as int) * 0x110000 + 'g' as int,
    (18 * 0x110000 + 's' as int) * 0x110000 + 'r' as int,
    (9 * 0x110000 + 'w' as int) * 0x110000 + 'n' as int,
    (14 * 0x110000 + 'p' as int) * 0x110000 + 'p' as int,
    (14 * 0x110000 + 'r' as int) * 0x110000 + 'k' as int,
    (11 * 0x110000 + 'e' as int) * 0x110000 + 's' as int,
    (14 * 0x110000 + 'e' as int) * 0x110000 + 'e' as int]

  lemma MammogramPrintAt(i: int)
    requires 0 <= i < |MammogramIds|
    ensures Fingerprint(MammogramIds[i]) == MammogramPrints[i]
  {
  }

  /** The risk branch has three nodes with distinct ids whatever the clock
      reads, and none of them is a node of the mammogram workflow. */
  lemma RiskNodesDistinct(t1: nat, t2: nat, t3: nat)
    ensures |RiskNodes(t1, t2, t3)| == 3
    ensures DistinctIds(NodeIds(RiskNodes(t1, t2, t3)))
    ensures DistinctIds(NodeIds(MammogramNodes + RiskNodes(t1, t2, t3)))
  {
    var risk := NodeIds(RiskNodes(t1, t2, t3));
    assert risk[0][0] == 'k' && risk[1][0] == 'r' && risk[2][0] == 'p';
    assert risk[1][1] == 'i' && risk[2][6] == 'u';
    MammogramIdsDistinct();
    MammogramIdList();
    MammogramRiskApart(risk);
    var all := NodeIds(MammogramNodes + RiskNodes(t1, t2, t3));
    assert all == MammogramIds + risk;
  }

  /** Ids starting as the risk branch's do are none of the mammogram ids. */
  lemma MammogramRiskApart(risk: seq<string>)
    requires |risk| == 3 && |risk[0]| > 0 && |risk[1]| > 1 && |risk[2]| > 6
    requires risk[0][0] == 'k' && risk[1][0] == 'r' && risk[2][0] == 'p'
    requires risk[1][1] == 'i' && risk[2][6] == 'u'
    requires DistinctIds(risk) && DistinctIds(MammogramIds)
    ensures DistinctIds(MammogramIds + risk)
  {
    var all := MammogramIds + risk;
    forall i, j | 0 <= i < |MammogramIds| && 0 <= j < 3 ensures MammogramIds[i] != risk[j] {
      var m := MammogramIds[i];
      if j == 0 {
        assert m[0] != 'k';
      } else if j == 1 && m[0] == 'r' {
        assert m == "response_check";
        assert m[1] != risk[1][1];
      } else if j == 2 && m[0] == 'p' {
        assert m == "phone_followup";
        assert m[6] != risk[2][6];
      } else {
        assert m[0] != risk[j][0];
      }
    }
    forall i, j | 0 <= i < j < |all| ensures all[i] != all[j] {
      if i < |MammogramIds| <= j {
        assert all[j] == risk[j - |MammogramIds|];
      }
    }
  }

  /** The first `|cats|` nodes are registered types of categories `cats`. */
  predicate Categorized(nodes: seq<Node>, cats: seq<NodeDefinitions.Category>)
  {
    && |cats| <= |nodes|
    && forall s :: 0 <= s < |cats| ==> BaseNode.CategoryOf(nodes[s].nodeType) == Some(cats[s])
  }

  /** Edge `e` runs from the `s`th to the `t`th node, leaves through a
      handle the source's category `cats[s]` draws, and enters a category
      that draws a target handle. */
  predicate Joins(nodes: seq<Node>, cats: seq<NodeDefinitions.Category>, e: Edge, s: int, t: int)
  {
    && 0 <= s < |cats| && 0 <= t < |cats| && |cats| <= |nodes|
    && e.source == nodes[s].id && e.target == nodes[t].id
    && e.sourceHandle in BaseNode.SourceHandles(cats[s])
    && BaseNode.NeedsTargetHandle(cats[t])
  }

  /** The edge as the canvas resolves it: the nodes found under its source
      and target ids are registered types, the source's category draws the
      edge's handle, and the target's category draws a target handle. */
  predicate FitsHandles(nodes: seq<Node>, e: Edge)
  {
    var s := FindNode(nodes, e.source);
    var t := FindNode(nodes, e.target);
    && s.Some? && t.Some?
    && BaseNode.CategoryOf(s.value.nodeType).Some? && BaseNode.CategoryOf(t.value.nodeType).Some?
    && e.sourceHandle in BaseNode.SourceHandles(BaseNode.CategoryOf(s.value.nodeType).value)
    && BaseNode.NeedsTargetHandle(BaseNode.CategoryOf(t.value.nodeType).value)
  }

  /** With distinct ids, the `i`th node is the one found under its id. */
  lemma {:induction false} FindAt(nodes: seq<Node>, i: int)
    requires DistinctIds(NodeIds(nodes)) && 0 <= i < |nodes|
    ensures FindNode(nodes, nodes[i].id) == Some(nodes[i])
  {
    if i > 0 {
      assert nodes[0].id != nodes[i].id by {
        assert NodeIds(nodes)[0] != NodeIds(nodes)[i];
      }
      assert DistinctIds(NodeIds(nodes[1..])) by {
        forall p, q | 0 <= p < q < |nodes[1..]| ensures NodeIds(nodes[1..])[p] != NodeIds(nodes[1..])[q] {
          assert NodeIds(nodes)[p + 1] != NodeIds(nodes)[q + 1];
        }
      }
      assert nodes[1..][i - 1] == nodes[i];
      FindAt(nodes[1..], i - 1);
    }
  }

  /** In a graph with distinct ids, an edge joining two categorized nodes
      fits the handles of the nodes the canvas finds for it, and both its
      ends exist. */
  lemma JoinsFits(nodes: seq<Node>, cats: seq<NodeDefinitions.Category>, e: Edge, s: int, t: int)
    requires DistinctIds(NodeIds(nodes)) && Categorized(nodes, cats) && Joins(nodes, cats, e, s, t)
    ensures FitsHandles(nodes, e)
    ensures e.source in NodeIds(nodes) && e.target in NodeIds(nodes)
  {
    FindAt(nodes, s);
    FindAt(nodes, t);
    assert NodeIds(nodes)[s] == e.source && NodeIds(nodes)[t] == e.target;
  }

  /** Appending nodes keeps the categories and the joins of the prefix. */
  lemma JoinsInPrefix(a: seq<Node>, b: seq<Node>, cats: seq<NodeDefinitions.Category>, e: Edge, s: int, t: int)
    requires Categorized(a, cats) && Joins(a, cats, e, s, t)
    ensures Categorized(a + b, cats) && Joins(a + b, cats, e, s, t)
  {
    assert forall k :: 0 <= k < |a| ==> (a + b)[k] == a[k];
  }

  /** The category of a node whose type is the `i`th registry key. */
  lemma NodeCategory(nodes: seq<Node>, s: int, i: int)
    requires 0 <= s < |nodes| && 0 <= i < |NodeDefinitions.RegistryKeys|
    requires nodes[s].nodeType == NodeDefinitions.RegistryKeys[i]
    ensures BaseNode.CategoryOf(nodes[s].nodeType) == Some(NodeDefinitions.RegistryCategories[i])
  {
    BaseNode.RegistryCategoryOf(i);
  }

  /** The categories of the mammogram workflow's nodes, in order. */
  const MammogramCategories: seq<NodeDefinitions.Category> := [
    NodeDefinitions.Triggers, NodeDefinitions.Logic, NodeDefinitions.Outreach, NodeDefinitions.Timing,
    NodeDefinitions.Outreach, NodeDefinitions.Outreach, NodeDefinitions.Timing, NodeDefinitions.Outreach,
    NodeDefinitions.Logic, NodeDefinitions.Endpoints, NodeDefinitions.Endpoints]

  /** The registry position of each mammogram node's type. */
  const MammogramTypeIndices: seq<int> := [0, 7, 3, 11, 3, 3, 11, 5, 8, 17, 18]

  /** The age and response checks are Logic nodes, the SMS and phone steps
      Outreach, the waits Timing, the two ends Endpoints. */
  lemma MammogramNodesCategorized()
    ensures Categorized(MammogramNodes, MammogramCategories)
  {
    forall s | 0 <= s < |MammogramCategories|
      ensures BaseNode.CategoryOf(MammogramNodes[s].nodeType) == Some(MammogramCategories[s])
    {
      var k := MammogramTypeIndices[s];
      assert MammogramNodes[s].nodeType == NodeDefinitions.RegistryKeys[k];
      NodeCategory(MammogramNodes, s, k);
    }
  }

  /** The source and target positions of each mammogram edge. */
  const MammogramEnds: seq<(int, int)> := [(0, 1), (1, 2), (1, 5), (2, 3), (3, 4), (4, 6), (5, 6), (6, 7), (7, 8), (8, 9), (8, 10)]

  /** Every mammogram edge joins the nodes its ends name: the `true` and
      `false` edges leave the age check and the response check, which are
      Logic nodes and so draw exactly those handles; every other edge leaves
      a node with a single unnamed handle; no edge enters the trigger. */
  lemma MammogramEdgesJoin(i: int)
    requires 0 <= i < |MammogramEdges|
    ensures Joins(MammogramNodes, MammogramCategories, MammogramEdges[i], MammogramEnds[i].0, MammogramEnds[i].1)
  {
  }

  /** The workflow edges that name a handle are the four branch edges, and
      they leave the age check or the response check. */
  lemma HandledEdgesLeaveChecks(i: int)
    requires 0 <= i < |MammogramEdges| && MammogramEdges[i].sourceHandle.Some?
    ensures MammogramEdges[i].source == "age_check" || MammogramEdges[i].source == "response_check"
    ensures MammogramEdges[i].sourceHandle.value == "true" || MammogramEdges[i].sourceHandle.value == "false"
  {
  }

  /** Whatever the message, the canvas the rules install has distinct node
      ids, and every edge connects two of its nodes and fits the handles
      they draw. */
  lemma ChatRulesGraphsAreWellFormed(text: string, t1: nat, t2: nat, t3: nat)
    ensures DistinctIds(NodeIds(ChatRules(text, t1, t2, t3).newNodes))
    ensures Connected(ChatRules(text, t1, t2, t3).newNodes, ChatRules(text, t1, t2, t3).newEdges)
    ensures forall i :: 0 <= i < |ChatRules(text, t1, t2, t3).newEdges| ==>
      FitsHandles(ChatRules(text, t1, t2, t3).newNodes, ChatRules(text, t1, t2, t3).newEdges[i])
  {
    ChatRulesCases(text, t1, t2, t3);
    MammogramIdsDistinct();
    RiskNodesDistinct(t1, t2, t3);
    MammogramNodesCategorized();
    var r := ChatRules(text, t1, t2, t3);
    if AsksForMammogram(text) {
      forall i | 0 <= i < |r.newEdges|
        ensures FitsHandles(r.newNodes, r.newEdges[i])
        ensures r.newEdges[i].source in NodeIds(r.newNodes) && r.newEdges[i].target in NodeIds(r.newNodes)
      {
        MammogramEdgesJoin(i);
        var (s, t) := MammogramEnds[i];
        if AsksForRisk(text) {
          JoinsInPrefix(MammogramNodes, RiskNodes(t1, t2, t3), MammogramCategories, MammogramEdges[i], s, t);
        }
        JoinsFits(r.newNodes, MammogramCategories, r.newEdges[i], s, t);
      }
    }
  }

  /** The mammogram workflow on its own: every edge connects two of its
      nodes and fits their handles. */
  lemma MammogramConnected()
    ensures Connected(MammogramNodes, MammogramEdges)
    ensures forall i :: 0 <= i < |MammogramEdges| ==> FitsHandles(MammogramNodes, MammogramEdges[i])
  {
    MammogramIdsDistinct();
    MammogramNodesCategorized();
    forall i | 0 <= i < |MammogramEdges|
      ensures FitsHandles(MammogramNodes, MammogramEdges[i])
      ensures MammogramEdges[i].source in NodeIds(MammogramNodes) && MammogramEdges[i].target in NodeIds(MammogramNodes)
    {
      MammogramEdgesJoin(i);
      JoinsFits(MammogramNodes, MammogramCategories, MammogramEdges[i], MammogramEnds[i].0, MammogramEnds[i].1);
    }
  }
}
