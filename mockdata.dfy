/** The dashboard's campaign and member tables and the helpers over them:
    members with several open gaps, campaigns a member's gaps can be
    bundled into, the simulated passing of time and the member total. */
module MockData {
  import opened Wrappers
  import opened JsValues
  import opened Flow
  import opened Seqs
  import EligibleMembers

  datatype Priority = HighPriority | MediumPriority | LowPriority

  datatype Status = Active | Paused | Draft

  datatype BundlingRules = BundlingRules(canBundleWith: seq<string>, maxGapsPerMessage: nat, facilityRequired: bool)

  /** A campaign. The member counts and the closure rate are reals: the
      simulation below moves them by fractional amounts. */
  datatype Campaign = Campaign(
    id: string,
    name: string,
    priority: Priority,
    roi: int,
    targetMembers: real,
    activeMembers: real,
    closureRate: real,
    costPerGap: int,
    bundlingRules: BundlingRules,
    flowNodes: seq<Node>,
    flowEdges: seq<Edge>,
    status: Status,
    createdAt: string)

  /** One open care gap; `gapType` is the gap's `type`. */
  datatype Gap = Gap(gapType: string, description: string, priority: int, dueDate: string, campaignId: Option<string>)

  datatype ResponseType = Positive | Negative | Neutral

  datatype Response = Response(timestamp: string, message: string, responseType: ResponseType, channel: EligibleMembers.Channel)

  datatype Member = Member(
    id: string,
    name: string,
    age: nat,
    riskLevel: EligibleMembers.RiskLevel,
    gaps: seq<Gap>,
    preferredChannel: EligibleMembers.Channel,
    responseHistory: seq<Response>,
    lastVisit: string,
    facility: string)

  /** A flow step without a configuration. */
  function Step(id: string, stepType: string, x: real, title: string): Node
  {
    Node(id, stepType, Position(x, 100.0), NodeData(title, Undef))
  }

  const HbA1cCampaign: Campaign :=
    Campaign("campaign-1", "Diabetes HbA1c Testing", HighPriority, 480, 450.0, 423.0, 68.0, 38,
      BundlingRules(["mammogram", "flu-shot", "eye-exam"], 2, true),
      [Step("start", "trigger", 100.0, "HbA1c Due"),
       Step("sms", "action", 300.0, "Send SMS Reminder"),
       Step("wait", "wait", 500.0, "Wait 3 Days"),
       Step("call", "action", 700.0, "Phone Outreach")],
      [Plain("e1", "start", "sms"), Plain("e2", "sms", "wait"), Plain("e3", "wait", "call")],
      Active, "2024-09-15")

  const BloodPressureCampaign: Campaign :=
    Campaign("campaign-2", "Blood Pressure Management", MediumPriority, 320, 340.0, 312.0, 71.0, 42,
      BundlingRules(["cholesterol"], 1, false),
      [Step("start", "trigger", 100.0, "BP Check Due"),
       Step("email", "action", 300.0, "Send Email")],
      [Plain("e1", "start", "email")],
      Active, "2024-08-20")

  const FluShotCampaign: Campaign :=
    Campaign("campaign-3", "Annual Flu Shot", MediumPriority, 180, 650.0, 623.0, 45.0, 28,
      BundlingRules(["hba1c", "mammogram", "eye-exam"], 3, false),
      [Step("start", "trigger", 100.0, "Flu Season Start"),
       Step("sms", "action", 300.0, "Flu Shot Reminder")],
      [Plain("e1", "start", "sms")],
      Active, "2024-09-01")

  /** `mockCampaigns` as first declared. */
  const MockCampaigns: seq<Campaign> := [HbA1cCampaign, BloodPressureCampaign, FluShotCampaign]

  const Maria: Member :=
    Member("member-1", "Maria Rodriguez", 52, EligibleMembers.Medium,
      [Gap("hba1c", "HbA1c Test", 1, "2024-10-15", Some("campaign-1")),
       Gap("mammogram", "Annual Mammogram", 2, "2024-11-01", None),
       Gap("flu-shot", "Flu Vaccination", 3, "2024-10-30", Some("campaign-3")),
       Gap("eye-exam", "Diabetic Eye Exam", 2, "2024-12-01", None)],
      EligibleMembers.BySms,
      [Response("2024-10-01T09:00:00Z", "Time for your diabetes check", Neutral, EligibleMembers.BySms),
       Response("2024-10-03T14:00:00Z", "YES but need afternoon", Positive, EligibleMembers.BySms)],
      "2024-06-15", "Riverside Medical Center")

  const John: Member :=
    Member("member-2", "John Chen", 45, EligibleMembers.High,
      [Gap("hba1c", "HbA1c Test", 1, "2024-10-20", Some("campaign-1")),
       Gap("mammogram", "Prostate Screening", 2, "2024-11-15", None),
       Gap("colonoscopy", "Colonoscopy", 1, "2024-10-01", None)],
      EligibleMembers.ByPhone,
      [Response("2024-09-28T10:00:00Z", "Screening reminder sent", Neutral, EligibleMembers.ByPhone)],
      "2024-08-10", "Downtown Health Clinic")

  const Patricia: Member :=
    Member("member-3", "Patricia Williams", 48, EligibleMembers.Low,
      [Gap("mammogram", "Annual Mammogram", 2, "2024-11-01", None),
       Gap("flu-shot", "Flu Vaccination", 3, "2024-10-30", Some("campaign-3"))],
      EligibleMembers.ByEmail,
      [],
      "2024-07-22", "Riverside Medical Center")

  /** `mockMembers`. */
  const MockMembers: seq<Member> := [Maria, John, Patricia]

  /** The default of `getMembersByGapCount`'s `minGaps`. */
  const DefaultMinGaps: int := 2

  function HasGapCount(minGaps: int): Member -> bool
  {
    (m: Member) => |m.gaps| >= minGaps
  }

  /** `getMembersByGapCount(minGaps)`: exactly the members with at least
      `minGaps` open gaps, in table order. */
  function GetMembersByGapCount(minGaps: int): (r: seq<Member>)
    ensures IsSubsequence(r, MockMembers)
    ensures forall i :: 0 <= i < |r| ==> |r[i].gaps| >= minGaps
    ensures forall i :: 0 <= i < |MockMembers| && |MockMembers[i].gaps| >= minGaps ==> MockMembers[i] in r
  {
    FilterIsSubsequence(MockMembers, HasGapCount(minGaps));
    Filter(MockMembers, HasGapCount(minGaps))
  }

  /** With the default threshold every member qualifies (they have 4, 3
      and 2 gaps); a threshold of 3 keeps the first two. */
  lemma GapCountDefaults()
    ensures GetMembersByGapCount(DefaultMinGaps) == MockMembers
    ensures GetMembersByGapCount(3) == [Maria, John]
  {
    FilterAll(MockMembers, HasGapCount(DefaultMinGaps));
    assert Filter(MockMembers, HasGapCount(3)) == [Maria] + Filter([John, Patricia], HasGapCount(3));
    assert Filter([John, Patricia], HasGapCount(3)) == [John] + Filter([Patricia], HasGapCount(3));
  }

  /** `member.gaps.map(gap => gap.type)`. */
  function GapTypes(member: Member): (types: seq<string>)
    ensures |types| == |member.gaps|
    ensures forall i :: 0 <= i < |member.gaps| ==> types[i] == member.gaps[i].gapType
  {
    seq(|member.gaps|, i requires 0 <= i < |member.gaps| => member.gaps[i].gapType)
  }

  /** The bundling test: some type the campaign bundles with is one of the
      member's gap types. */
  predicate CanBundle(campaign: Campaign, member: Member)
  {
    exists t :: t in campaign.bundlingRules.canBundleWith && t in GapTypes(member)
  }

  function BundlesWith(member: Member): Campaign -> bool
  {
    (c: Campaign) => CanBundle(c, member)
  }

  /** Adds up `activeMembers`. */
  function SumActive(campaigns: seq<Campaign>): real
  {
    if campaigns == [] then 0.0 else campaigns[0].activeMembers + SumActive(campaigns[1..])
  }

  /** Adds up `targetMembers`. */
  function SumTarget(campaigns: seq<Campaign>): real
  {
    if campaigns == [] then 0.0 else campaigns[0].targetMembers + SumTarget(campaigns[1..])
  }

  function Min(a: real, b: real): real { if a <= b then a else b }

  function Max(a: real, b: real): real { if a >= b then a else b }

  /** The active count after `k` members leave, floored at 70% of the target. */
  function Lowered(c: Campaign, k: nat): real
  {
    Max(c.activeMembers - k as real, 0.7 * c.targetMembers)
  }

  /** What one pass of the simulation does to one campaign, given the
      random increment `inc` (`Math.random() * 5`) and the random drop
      `drop` (`Math.floor(Math.random() * 10)`). The closure rate never
      passes 85 and, from at most 85, rises by less than 5 without falling;
      the active count is the old count less the drop, but never below 70%
      of the target, and it never grows past the larger of the two. No
      other field changes. */
  function Progress(c: Campaign, inc: real, drop: nat): (r: Campaign)
    requires 0.0 <= inc < 5.0 && drop < 10
    ensures r.closureRate <= 85.0
    ensures c.closureRate <= 85.0 ==> c.closureRate <= r.closureRate < c.closureRate + 5.0
    ensures r.activeMembers >= 0.7 * c.targetMembers
    ensures r.activeMembers <= Max(c.activeMembers, 0.7 * c.targetMembers)
    ensures exists k: nat :: k < 10 && r.activeMembers == Lowered(c, k)
    ensures r == c.(closureRate := r.closureRate, activeMembers := r.activeMembers)
  {
    c.(closureRate := Min(c.closureRate + inc, 85.0), activeMembers := Lowered(c, drop))
  }

  /** Valid random inputs for one pass over `n` campaigns. */
  predicate RandomDraws(n: nat, increments: seq<real>, drops: seq<nat>)
  {
    && |increments| == n && |drops| == n
    && (forall i :: 0 <= i < n ==> 0.0 <= increments[i] < 5.0)
    && (forall i :: 0 <= i < n ==> drops[i] < 10)
  }

  /** Every campaign after one pass. */
  function Progressed(campaigns: seq<Campaign>, increments: seq<real>, drops: seq<nat>): (r: seq<Campaign>)
    requires RandomDraws(|campaigns|, increments, drops)
    ensures |r| == |campaigns|
    ensures forall i :: 0 <= i < |r| ==> r[i] == Progress(campaigns[i], increments[i], drops[i])
  {
    seq(|campaigns|, i requires 0 <= i < |campaigns| => Progress(campaigns[i], increments[i], drops[i]))
  }

  /** The bounds every campaign keeps: a closure rate between 0 and 85 and
      an active count between 70% of the target and the target. */
  predicate Bounded(c: Campaign)
  {
    0.0 <= c.closureRate <= 85.0 && 0.7 * c.targetMembers <= c.activeMembers <= c.targetMembers
  }

  /** A pass keeps every campaign within its bounds. */
  lemma ProgressKeepsBounds(c: Campaign, inc: real, drop: nat)
    requires 0.0 <= inc < 5.0 && drop < 10
    requires Bounded(c)
    ensures Bounded(Progress(c, inc, drop))
  {
  }

  /** From bounded campaigns, a pass never raises the member total and
      never takes it below 70% of the total target. */
  lemma {:induction false} ProgressedTotal(campaigns: seq<Campaign>, increments: seq<real>, drops: seq<nat>)
    requires RandomDraws(|campaigns|, increments, drops)
    requires forall i :: 0 <= i < |campaigns| ==> Bounded(campaigns[i])
    ensures SumActive(Progressed(campaigns, increments, drops)) <= SumActive(campaigns)
    ensures SumActive(Progressed(campaigns, increments, drops)) >= 0.7 * SumTarget(campaigns)
  {
    if campaigns != [] {
      var r := Progressed(campaigns, increments, drops);
      ProgressedTotal(campaigns[1..], increments[1..], drops[1..]);
      assert Progressed(campaigns, increments, drops)[1..] == Progressed(campaigns[1..], increments[1..], drops[1..]);
    }
  }

  /** Every edge of a campaign's flow joins two steps of that flow. */
  lemma CampaignFlowsConnected()
    ensures forall i :: 0 <= i < |MockCampaigns| ==> Connected(MockCampaigns[i].flowNodes, MockCampaigns[i].flowEdges)
  {
    assert NodeIds(HbA1cCampaign.flowNodes) == ["start", "sms", "wait", "call"];
    assert NodeIds(BloodPressureCampaign.flowNodes) == ["start", "email"];
    assert NodeIds(FluShotCampaign.flowNodes) == ["start", "sms"];
  }

  /** The campaigns start within their bounds, and 1358 members are
      active. */
  lemma InitialCampaigns()
    ensures forall i :: 0 <= i < |MockCampaigns| ==> Bounded(MockCampaigns[i])
    ensures SumActive(MockCampaigns) == 1358.0
  {
    assert SumActive(MockCampaigns) == 423.0 + SumActive([BloodPressureCampaign, FluShotCampaign]);
    assert SumActive([BloodPressureCampaign, FluShotCampaign]) == 312.0 + SumActive([FluShotCampaign]);
  }

  /** The mutable campaign table the dashboard reads. */
  class CampaignStore {
    var campaigns: seq<Campaign>

    /** Every campaign is within its bounds. */
    ghost predicate Valid()
      reads this
    {
      forall i :: 0 <= i < |campaigns| ==> Bounded(campaigns[i])
    }

    constructor ()
      ensures campaigns == MockCampaigns
      ensures Valid()
    {
      campaigns := MockCampaigns;
      InitialCampaigns();
    }

    /** `getBundleableCampaigns(member)`: exactly the campaigns whose
        bundling list shares a type with the member's gaps, in table
        order. */
    function GetBundleableCampaigns(member: Member): (r: seq<Campaign>)
      reads this
      ensures IsSubsequence(r, campaigns)
      ensures forall i :: 0 <= i < |r| ==> CanBundle(r[i], member)
      ensures forall i :: 0 <= i < |campaigns| && CanBundle(campaigns[i], member) ==> campaigns[i] in r
    {
      FilterIsSubsequence(campaigns, BundlesWith(member));
      Filter(campaigns, BundlesWith(member))
    }

    /** `getOverallMetrics().totalMembers`: the active members of every
        campaign added up. */
    function TotalMembers(): (total: real)
      reads this
      ensures Valid() ==> 0.7 * SumTarget(campaigns) <= total <= SumTarget(campaigns)
    {
      SumBounds(campaigns);
      SumActive(campaigns)
    }

    /** `simulateTimeProgression(days)`: one pass over the campaigns, in
        place, given one random increment and one random drop per
        campaign. `days` is only logged, so it takes no part. */
    method SimulateTimeProgression(days: int, increments: seq<real>, drops: seq<nat>)
      requires RandomDraws(|campaigns|, increments, drops)
      modifies this
      ensures campaigns == Progressed(old(campaigns), increments, drops)
      ensures old(Valid()) ==> Valid()
    {
      ghost var before := campaigns;
      var i := 0;
      while i < |campaigns|
        invariant 0 <= i <= |campaigns| == |before|
        invariant forall j :: 0 <= j < i ==> campaigns[j] == Progress(before[j], increments[j], drops[j])
        invariant campaigns[i..] == before[i..]
      {
        var c := campaigns[i];
        assert c == before[i];
        campaigns := campaigns[i := c.(closureRate := Min(c.closureRate + increments[i], 85.0),
                                      activeMembers := Max(c.activeMembers - drops[i] as real, 0.7 * c.targetMembers))];
        i := i + 1;
      }
      if old(Valid()) {
        forall j | 0 <= j < |campaigns| ensures Bounded(campaigns[j]) {
          ProgressKeepsBounds(before[j], increments[j], drops[j]);
        }
      }
    }
  }

  /** The total of bounded campaigns lies between 70% of the total target
      and the total target. */
  lemma {:induction false} SumBounds(campaigns: seq<Campaign>)
    ensures (forall i :: 0 <= i < |campaigns| ==> Bounded(campaigns[i])) ==>
      0.7 * SumTarget(campaigns) <= SumActive(campaigns) <= SumTarget(campaigns)
  {
    if campaigns != [] {
      SumBounds(campaigns[1..]);
      if forall i :: 0 <= i < |campaigns| ==> Bounded(campaigns[i]) {
        assert forall i :: 0 <= i < |campaigns[1..]| ==> Bounded(campaigns[1..][i]) by {
          forall i | 0 <= i < |campaigns[1..]| ensures Bounded(campaigns[1..][i]) {
            assert campaigns[1..][i] == campaigns[i + 1];
          }
        }
      }
    }
  }

  /** Maria's gaps (HbA1c, mammogram, flu shot, eye exam) bundle into the
      HbA1c and flu-shot campaigns but not the blood-pressure one. */
  lemma MariaBundleTests()
    ensures CanBundle(HbA1cCampaign, Maria)
    ensures !CanBundle(BloodPressureCampaign, Maria)
    ensures CanBundle(FluShotCampaign, Maria)
  {
    var types := GapTypes(Maria);
    assert types[1] == "mammogram" && types[0] == "hba1c";
    assert HbA1cCampaign.bundlingRules.canBundleWith[0] == "mammogram";
    assert FluShotCampaign.bundlingRules.canBundleWith[0] == "hba1c";
    assert "mammogram" in HbA1cCampaign.bundlingRules.canBundleWith && "mammogram" in types;
    assert "hba1c" in FluShotCampaign.bundlingRules.canBundleWith && "hba1c" in types;
    forall k | 0 <= k < |types| ensures types[k] != "cholesterol" {
      assert types[k][0] != 'c';
    }
  }

  /** So on the initial table Maria's bundleable campaigns are the first
      and the third. */
  lemma MariaBundles(store: CampaignStore)
    requires store.campaigns == MockCampaigns
    ensures store.GetBundleableCampaigns(Maria) == [HbA1cCampaign, FluShotCampaign]
  {
    MariaBundleTests();
    var p := BundlesWith(Maria);
    assert p(HbA1cCampaign) && !p(BloodPressureCampaign) && p(FluShotCampaign);
    assert Filter([FluShotCampaign], p) == [FluShotCampaign];
    assert Filter([BloodPressureCampaign, FluShotCampaign], p) == [FluShotCampaign];
    assert Filter(MockCampaigns, p) == [HbA1cCampaign, FluShotCampaign];
  }
}
