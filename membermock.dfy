/** The member-detail page's data: the one member profile the demo knows,
    the records its logs hold, and the member's initial journey graph. */
module MemberMockData {
  import opened Wrappers
  import opened JsValues
  import opened Flow
  import EligibleMembers

  datatype PreferredTime = Morning | Afternoon | Evening

  datatype GapPriority = LowGap | MediumGap | HighGap | CriticalGap

  datatype ProfileGap = ProfileGap(gapType: string, daysOverdue: nat, priority: GapPriority)

  datatype MemberProfile = MemberProfile(
    id: string,
    name: string,
    age: nat,
    gender: string,
    riskLevel: EligibleMembers.RiskLevel,
    preferredChannel: EligibleMembers.Channel,
    preferredTime: PreferredTime,
    language: string,
    gaps: seq<ProfileGap>,
    activeCampaigns: seq<string>)

  datatype Sender = User | Agent

  /** A chat message; `timestamp` is in milliseconds since the epoch. */
  datatype ChatMessage = ChatMessage(sender: Sender, content: string, timestamp: int)

  datatype DecisionOutcome = Pending | Succeeded | Failed

  /** An entry of the agent's reasoning log; `timestamp` is in milliseconds
      since the epoch. */
  datatype AgentDecision = AgentDecision(
    timestamp: int,
    action: string,
    reasoning: string,
    affectedGaps: seq<string>,
    outcome: Option<DecisionOutcome>)

  datatype InteractionKind = Outreach | ResponseKind | Appointment | GapClosed

  /** The `type` string of each interaction kind. */
  function KindName(kind: InteractionKind): string
  {
    match kind
    case Outreach => "outreach"
    case ResponseKind => "response"
    case Appointment => "appointment"
    case GapClosed => "gap_closed"
  }

  datatype InteractionChannel = SmsChannel | EmailChannel | PhoneChannel | MailChannel

  datatype InteractionStatus = Sent | Delivered | Read | Responded | FailedStatus

  /** An entry of the member's timeline; `date` is in milliseconds since
      the epoch. */
  datatype Interaction = Interaction(
    date: int,
    kind: InteractionKind,
    channel: InteractionChannel,
    content: string,
    status: InteractionStatus)

  datatype StepState = Completed | Current | Scheduled

  /** A journey step: a flow node together with the progress fields of
      its `data` (`state`, `completedAt`, `isBundled`, `bundledGaps`;
      absent ones as `None`, `false` and the empty list). */
  datatype JourneyNode = JourneyNode(
    node: Node,
    state: StepState,
    completedAt: Option<string>,
    isBundled: bool,
    bundledGaps: seq<string>)

  datatype JourneyState = JourneyState(nodes: seq<JourneyNode>, edges: seq<Edge>, currentNodeId: string)

  /** The flow nodes of a journey, in order. */
  function Steps(state: JourneyState): (r: seq<Node>)
    ensures |r| == |state.nodes|
    ensures forall i :: 0 <= i < |r| ==> r[i] == state.nodes[i].node
  {
    seq(|state.nodes|, i requires 0 <= i < |state.nodes| => state.nodes[i].node)
  }

  const Maria: MemberProfile :=
    MemberProfile("member_maria_rodriguez", "Maria Rodriguez", 52, "Female",
      EligibleMembers.Medium, EligibleMembers.BySms, Evening, "English",
      [ProfileGap("HbA1c", 95, HighGap),
       ProfileGap("Mammogram", 45, MediumGap),
       ProfileGap("Flu Shot", 30, LowGap),
       ProfileGap("Eye Exam", 60, MediumGap)],
      ["HbA1c Testing", "Mammogram Screening"])

  /** The profiles `getMemberMockData` knows, by key. */
  const Profiles: map<string, MemberProfile> := map["maria" := Maria]

  /** `getMemberMockData(memberId)`: Maria's profile for the key `maria`
      and nothing for every other key. */
  function GetMemberMockData(memberId: string): (r: Option<MemberProfile>)
    ensures r.Some? <==> memberId == "maria"
    ensures r.Some? ==> r.value == Maria
  {
    if memberId in Profiles then Some(Profiles[memberId]) else None
  }

  function Obj2(k1: string, v1: Value, k2: string, v2: Value): Value
  {
    Obj(map[k1 := v1, k2 := v2])
  }

  function JourneyStep(id: string, nodeType: string, x: real, y: real, title: string, config: Value): Node
  {
    Node(id, nodeType, Position(x, y), NodeData(title, config))
  }

  const TriggerStep: JourneyNode :=
    JourneyNode(JourneyStep("trigger_hba1c", "gap_trigger", 400.0, 50.0, "HbA1c Overdue",
      Obj2("gapType", Str("HbA1c"), "daysOverdue", Num(90))),
      Completed, Some("2025-01-15T09:00:00Z"), false, [])

  const InitialSmsStep: JourneyNode :=
    JourneyNode(JourneyStep("initial_sms", "sms", 400.0, 150.0, "Initial SMS",
      Obj2("template", Str("hba1c_reminder_initial"), "timing", Str("evening"))),
      Completed, None, false, [])

  const WaitStep: JourneyNode :=
    JourneyNode(JourneyStep("wait_response", "wait", 400.0, 250.0, "Wait 3 Days",
      Obj2("duration", Num(3), "unit", Str("days"))),
      Completed, None, false, [])

  const BundledSmsStep: JourneyNode :=
    JourneyNode(JourneyStep("bundled_sms_1", "sms", 400.0, 350.0, "Bundled: HbA1c + Mammogram",
      Obj2("template", Str("bundled_reminder"), "timing", Str("evening"))),
      Current, None, true, ["HbA1c", "Mammogram"])

  const ResponseCheckStep: JourneyNode :=
    JourneyNode(JourneyStep("response_check", "response_check", 400.0, 450.0, "Response Check",
      Obj(map["checkFor" := Str("appointment_booking")])),
      Scheduled, None, false, [])

  const SuccessStep: JourneyNode :=
    JourneyNode(JourneyStep("end_success", "success", 250.0, 550.0, "Both Gaps Closed",
      Obj(map["outcome" := Str("bundled_completion")])),
      Scheduled, None, false, [])

  const FollowUpStep: JourneyNode :=
    JourneyNode(JourneyStep("followup_sms", "sms", 550.0, 550.0, "Follow-up SMS",
      Obj2("template", Str("second_reminder"), "timing", Str("evening"))),
      Scheduled, None, false, [])

  const JourneyNodes: seq<JourneyNode> :=
    [TriggerStep, InitialSmsStep, WaitStep, BundledSmsStep, ResponseCheckStep, SuccessStep, FollowUpStep]

  const JourneyEdges: seq<Edge> := [
    Plain("e1", "trigger_hba1c", "initial_sms"),
    Plain("e2", "initial_sms", "wait_response"),
    Plain("e3", "wait_response", "bundled_sms_1"),
    Plain("e4", "bundled_sms_1", "response_check"),
    Edge("e5", "response_check", "end_success", Some("true"), None),
    Edge("e6", "response_check", "followup_sms", Some("false"), None)]

  /** The step the journey starts on. */
  const BundledSmsId: string := "bundled_sms_1"

  /** `getInitialJourneyState()`. A Dafny function returns the same value
      on every call, so every call yields identical content. */
  function InitialJourneyState(): (s: JourneyState)
    ensures |s.nodes| == 7 && |s.edges| == 6
    ensures s.currentNodeId == BundledSmsId
  {
    JourneyState(JourneyNodes, JourneyEdges, BundledSmsId)
  }

  /** The ids of the initial journey, in order. */
  lemma JourneyIds()
    ensures NodeIds(Steps(InitialJourneyState()))
      == ["trigger_hba1c", "initial_sms", "wait_response", "bundled_sms_1", "response_check", "end_success", "followup_sms"]
  {
  }

  /** The initial journey's step ids are distinct, and every edge starts
      and ends at one of its steps. */
  lemma InitialJourneyWellFormed()
    ensures DistinctIds(NodeIds(Steps(InitialJourneyState())))
    ensures Connected(Steps(InitialJourneyState()), InitialJourneyState().edges)
  {
    JourneyIds();
    var ids := NodeIds(Steps(InitialJourneyState()));
    // the seven ids already differ in their first letter
    forall i, j | 0 <= i < j < |ids| ensures ids[i] != ids[j] {
      assert ids[i][0] != ids[j][0];
    }
  }

  /** Exactly one step is `current`, and it is the one `currentNodeId`
      names. */
  lemma ExactlyOneCurrent()
    ensures var s := InitialJourneyState();
      && (forall i :: 0 <= i < |s.nodes| ==> (s.nodes[i].state == Current <==> i == 3))
      && s.nodes[3].node.id == s.currentNodeId
  {
  }

  /** Only the two edges leaving `response_check` carry a source handle,
      and those are its `true` and `false` outcomes. */
  lemma OnlyResponseCheckBranches()
    ensures var edges := InitialJourneyState().edges;
      && (forall i :: 0 <= i < |edges| ==> (edges[i].sourceHandle.Some? <==> edges[i].source == "response_check"))
      && (forall i :: 0 <= i < |edges| && edges[i].sourceHandle.Some? ==>
            edges[i].sourceHandle.value in {"true", "false"})
      && edges[4].sourceHandle == Some("true") && edges[5].sourceHandle == Some("false")
  {
    var edges := InitialJourneyState().edges;
    forall i | 0 <= i < 4 ensures edges[i].source != "response_check" {
      assert edges[i].source[0] != 'r';
    }
  }
}
