/** The member-detail page: the state it keeps for the demo member and the
    simulation controls that step it forward, record a response and reset
    it. */
module MemberDetail {
  import opened Wrappers
  import opened JsStrings
  import opened MemberMockData

  /** The number of simulation steps. */
  const TotalSteps: int := 5

  /** `setSimulationStep(prev => Math.min(prev + 1, 5))`: one step on,
      never beyond the last. */
  function NextStep(step: int): (r: int)
    ensures 1 <= step <= TotalSteps ==> 1 <= r <= TotalSteps
    ensures step < TotalSteps ==> r == step + 1
    ensures step >= TotalSteps ==> r == TotalSteps
  {
    if step + 1 <= TotalSteps then step + 1 else TotalSteps
  }

  /** Stepping on from the last step stays there. */
  lemma NextStepIdempotentAtEnd()
    ensures NextStep(NextStep(TotalSteps)) == NextStep(TotalSteps) == TotalSteps
  {
  }

  /** Four steps on from the first reach the last, and any further step
      keeps it there. */
  lemma {:induction false} StepsReachEnd(step: int, n: nat)
    requires 1 <= step <= TotalSteps
    ensures Iterate(step, n) == if step + n <= TotalSteps then step + n else TotalSteps
    decreases n
  {
    if n > 0 {
      StepsReachEnd(NextStep(step), n - 1);
    }
  }

  /** `n` presses of "next". */
  function Iterate(step: int, n: nat): int
    decreases n
  {
    if n == 0 then step else Iterate(NextStep(step), n - 1)
  }

  /** `xs.slice(-1)`: the last element alone, or nothing for an empty list. */
  function Last1<T>(xs: seq<T>): (r: seq<T>)
    ensures |xs| == 0 ==> r == []
    ensures |xs| > 0 ==> r == [xs[|xs| - 1]]
    ensures r == xs[|xs| - |r|..]
  {
    if |xs| == 0 then [] else xs[|xs| - 1..]
  }

  /** Keeping only the last element of a list whose last element is `x`
      leaves `[x]`. */
  lemma Last1Keeps<T>(xs: seq<T>, x: T)
    requires |xs| > 0 && xs[|xs| - 1] == x
    ensures Last1(xs) == [x]
  {
  }

  /** Prepending keeps the last element. */
  lemma PrependKeepsLast<T>(x: T, xs: seq<T>)
    requires |xs| > 0
    ensures ([x] + xs)[|[x] + xs| - 1] == xs[|xs| - 1]
  {
  }

  const GreetingText: string :=
    "Hello! I'm analyzing Maria's care gaps and looking for optimization opportunities. I can explain my decisions or adapt based on your guidance."

  /** The reasoning log's first entry. */
  const InitialDecision: AgentDecision :=
    AgentDecision(1736931600000, "Campaign Application",
      "Applied HbA1c campaign template for member with 95-day gap. Initial SMS sent at preferred evening time.",
      ["HbA1c"], Some(Pending))

  /** The timeline's first entry. */
  const InitialSms: Interaction :=
    Interaction(1736969400000, Outreach, SmsChannel,
      "Hi Maria! Your HbA1c test is due. Schedule at Riverside Medical: bit.ly/schedule-hba1c Reply STOP to opt out.",
      Delivered)

  const BundlingReasoning: string :=
    "Detected opportunity to bundle HbA1c and Mammogram. Both procedures available at Riverside Medical. Member prefers fewer communications. Bundling increases completion rate by 40%."

  /** The decision recorded when the agent bundles the two gaps. */
  function BundlingDecision(now: int): (d: AgentDecision)
    ensures d.timestamp == now && d.outcome == Some(Pending)
    ensures d.affectedGaps == BundledGapsAt(2)
  {
    AgentDecision(now, "Campaign Bundling Decision", BundlingReasoning, ["HbA1c", "Mammogram"], Some(Pending))
  }

  /** The agent's delayed answer to a chat message. */
  function AgentReply(message: string): (reply: string)
    ensures Contains(reply, "\"" + message + "\"")
  {
    var prefix := "I understand. I'll incorporate your guidance: ";
    var suffix := " into Maria's journey. This will help improve the personalization.";
    ContainsSplice(prefix, "\"" + message + "\"", suffix);
    prefix + ("\"" + message + "\"") + suffix
  }

  /** The route's member key: `memberId || 'maria'`. */
  function MemberKey(memberId: Option<string>): (key: string)
    ensures memberId.None? || memberId == Some("") ==> key == "maria"
    ensures memberId.Some? && memberId.value != "" ==> key == memberId.value
  {
    if memberId.None? || memberId.value == "" then "maria" else memberId.value
  }

  /** The gaps shown as bundled for a simulation step. */
  function BundledGapsAt(step: int): (gaps: seq<string>)
    ensures gaps == ["HbA1c", "Mammogram"] <==> step >= 2
    ensures gaps == [] <==> step < 2
  {
    if step >= 2 then ["HbA1c", "Mammogram"] else []
  }

  /** The page's state. */
  class MemberDetailPage {
    var member: Option<MemberProfile>
    var journeyState: JourneyState
    var chatMessages: seq<ChatMessage>
    var agentHistory: seq<AgentDecision>
    var timeline: seq<Interaction>
    var simulationStep: int

    /** The step stays within 1..5, and the logs, which only ever grow at
        the front, still end with their initial entries. */
    ghost predicate Valid()
      reads this
    {
      && 1 <= simulationStep <= TotalSteps
      && (member.None? || member == Some(Maria))
      && |agentHistory| > 0 && agentHistory[|agentHistory| - 1] == InitialDecision
      && |timeline| > 0 && timeline[|timeline| - 1] == InitialSms
    }

    /** The page as first rendered for route parameter `memberId` at time
        `now`. */
    constructor (memberId: Option<string>, now: int)
      ensures member == GetMemberMockData(MemberKey(memberId))
      ensures journeyState == InitialJourneyState()
      ensures chatMessages == [ChatMessage(Agent, GreetingText, now)]
      ensures agentHistory == [InitialDecision]
      ensures timeline == [InitialSms]
      ensures simulationStep == 1
      ensures Valid()
    {
      member := GetMemberMockData(MemberKey(memberId));
      journeyState := InitialJourneyState();
      chatMessages := [ChatMessage(Agent, GreetingText, now)];
      agentHistory := [InitialDecision];
      timeline := [InitialSms];
      simulationStep := 1;
    }

    /** The "Member not found" view is shown exactly when there is no
        profile; otherwise the page shows Maria, the one mock member. */
    predicate ShowsNotFound(): (r: bool)
      reads this
      ensures r <==> member.None?
      ensures Valid() && !r ==> member == Some(Maria)
    {
      member.None?
    }

    /** The gaps handed to the campaign panel. */
    function BundledGaps(): (gaps: seq<string>)
      reads this
      ensures gaps == ["HbA1c", "Mammogram"] <==> simulationStep >= 2
    {
      BundledGapsAt(simulationStep)
    }

    /** `handleSendMessage(message)`: appends the user's message. The
        agent's reply arrives a second later, as `DeliverAgentReply`. */
    method SendMessage(message: string, now: int)
      modifies this
      ensures chatMessages == old(chatMessages) + [ChatMessage(User, message, now)]
      ensures member == old(member) && journeyState == old(journeyState)
      ensures agentHistory == old(agentHistory) && timeline == old(timeline)
      ensures simulationStep == old(simulationStep)
      ensures old(Valid()) ==> Valid()
    {
      chatMessages := chatMessages + [ChatMessage(User, message, now)];
    }

    /** The timed callback of `handleSendMessage`: appends the agent's
        reply, which quotes the message. */
    method DeliverAgentReply(message: string, now: int)
      modifies this
      ensures chatMessages == old(chatMessages) + [ChatMessage(Agent, AgentReply(message), now)]
      ensures member == old(member) && journeyState == old(journeyState)
      ensures agentHistory == old(agentHistory) && timeline == old(timeline)
      ensures simulationStep == old(simulationStep)
      ensures old(Valid()) ==> Valid()
    {
      chatMessages := chatMessages + [ChatMessage(Agent, AgentReply(message), now)];
    }

    /** `handleSimulateNext`: one step on; only from the first step does
        the agent log its bundling decision and point the journey at the
        bundled SMS. */
    method SimulateNext(now: int)
      modifies this
      ensures simulationStep == NextStep(old(simulationStep))
      ensures old(simulationStep) == 1 ==> agentHistory == [BundlingDecision(now)] + old(agentHistory)
      ensures old(simulationStep) == 1 ==> journeyState == old(journeyState).(currentNodeId := BundledSmsId)
      ensures old(simulationStep) != 1 ==> agentHistory == old(agentHistory) && journeyState == old(journeyState)
      ensures member == old(member) && chatMessages == old(chatMessages) && timeline == old(timeline)
      ensures old(Valid()) ==> Valid()
    {
      var step := simulationStep;
      simulationStep := NextStep(step);
      if step == 1 {
        var decision := BundlingDecision(now);
        if |agentHistory| > 0 {
          PrependKeepsLast(decision, agentHistory);
        }
        agentHistory := [decision] + agentHistory;
        journeyState := journeyState.(currentNodeId := BundledSmsId);
      }
    }

    /** `handleSimulateResponse(response)`: puts the member's SMS reply at
        the front of the timeline. */
    method SimulateResponse(response: string, now: int)
      modifies this
      ensures timeline == [Interaction(now, ResponseKind, SmsChannel, response, Delivered)] + old(timeline)
      ensures member == old(member) && journeyState == old(journeyState)
      ensures chatMessages == old(chatMessages) && agentHistory == old(agentHistory)
      ensures simulationStep == old(simulationStep)
      ensures old(Valid()) ==> Valid()
    {
      timeline := [Interaction(now, ResponseKind, SmsChannel, response, Delivered)] + timeline;
    }

    /** `handleReset`: back to the first step and the initial journey, with
        only the oldest log entries kept, which are the initial ones. */
    method Reset()
      modifies this
      ensures simulationStep == 1
      ensures journeyState == InitialJourneyState()
      ensures agentHistory == Last1(old(agentHistory)) && timeline == Last1(old(timeline))
      ensures old(Valid()) ==> agentHistory == [InitialDecision] && timeline == [InitialSms]
      ensures member == old(member) && chatMessages == old(chatMessages)
      ensures old(Valid()) ==> Valid()
    {
      simulationStep := 1;
      journeyState := InitialJourneyState();
      agentHistory := Last1(agentHistory);
      timeline := Last1(timeline);
    }
  }

  /** A route naming any member other than `maria` shows the not-found
      view; no route or an empty one shows Maria. */
  lemma UnknownMemberNotFound(memberId: Option<string>)
    ensures GetMemberMockData(MemberKey(memberId)).None?
      <==> memberId.Some? && memberId.value != "" && memberId.value != "maria"
  {
  }

  /** Stepping from the first step installs the bundled SMS as the current
      step of the initial journey, which it already is. */
  lemma FirstStepKeepsJourneyShape()
    ensures InitialJourneyState().(currentNodeId := BundledSmsId) == InitialJourneyState()
  {
  }
}
