/** The members eligible for each outreach campaign (`mockEligibleMembers`)
    and the two lookups the campaign screens use: the list for a campaign
    and a case-insensitive name search capped at ten results. */
module EligibleMembers {
  import opened Wrappers
  import opened JsStrings
  import opened Seqs

  datatype RiskLevel = Low | Medium | High

  datatype Channel = BySms | ByEmail | ByPhone

  /** One eligible member. `lastContact` is kept as its `YYYY-MM-DD`
      date literal, and is absent for members never contacted. */
  datatype EligibleMember = EligibleMember(
    id: string,
    name: string,
    age: nat,
    riskLevel: RiskLevel,
    gapType: string,
    daysOverdue: nat,
    lastContact: Option<string>,
    preferredChannel: Channel)

  /** The most members a search returns. */
  const MaxResults: nat := 10

  const HbA1cMembers: seq<EligibleMember> := [
    EligibleMember("maria-rodriguez", "Maria Rodriguez", 52, Medium, "HbA1c", 95, Some("2025-01-15"), BySms),
    EligibleMember("robert-smith", "Robert Smith", 58, High, "HbA1c", 95, Some("2025-01-11"), ByPhone),
    EligibleMember("david-jones", "David Jones", 62, High, "HbA1c", 134, Some("2025-01-08"), ByEmail),
    EligibleMember("michael-taylor", "Michael Taylor", 45, Medium, "HbA1c", 67, None, BySms),
    EligibleMember("james-anderson", "James Anderson", 55, Low, "HbA1c", 42, Some("2025-01-17"), BySms),
    EligibleMember("william-thomas", "William Thomas", 61, High, "HbA1c", 112, None, ByPhone),
    EligibleMember("charles-jackson", "Charles Jackson", 49, Medium, "HbA1c", 78, Some("2025-01-13"), ByEmail),
    EligibleMember("joseph-white", "Joseph White", 53, Low, "HbA1c", 29, None, BySms),
    EligibleMember("daniel-harris", "Daniel Harris", 47, Medium, "HbA1c", 83, Some("2025-01-15"), ByPhone),
    EligibleMember("matthew-martin", "Matthew Martin", 59, High, "HbA1c", 105, None, ByEmail),
    EligibleMember("anthony-thompson", "Anthony Thompson", 52, Low, "HbA1c", 38, Some("2025-01-19"), BySms)]

  const BloodPressureMembers: seq<EligibleMember> := [
    EligibleMember("sarah-johnson", "Sarah Johnson", 48, High, "Blood Pressure", 120, Some("2025-01-10"), ByEmail),
    EligibleMember("jessica-chen", "Jessica Chen", 55, Low, "Blood Pressure", 30, Some("2025-01-18"), ByPhone),
    EligibleMember("amanda-williams", "Amanda Williams", 41, Medium, "Blood Pressure", 67, None, BySms),
    EligibleMember("rachel-brown", "Rachel Brown", 49, High, "Blood Pressure", 89, Some("2025-01-12"), ByEmail),
    EligibleMember("emily-davis", "Emily Davis", 53, Low, "Blood Pressure", 22, None, BySms),
    EligibleMember("nicole-miller", "Nicole Miller", 46, Medium, "Blood Pressure", 55, Some("2025-01-16"), ByPhone),
    EligibleMember("lisa-wilson", "Lisa Wilson", 50, High, "Blood Pressure", 98, None, ByEmail),
    EligibleMember("michelle-garcia", "Michelle Garcia", 44, Low, "Blood Pressure", 35, Some("2025-01-14"), BySms)]

  const FluShotMembers: seq<EligibleMember> := [
    EligibleMember("stephanie-martinez", "Stephanie Martinez", 47, Medium, "Flu Shot", 71, None, ByPhone),
    EligibleMember("kevin-lee", "Kevin Lee", 51, Medium, "Flu Shot", 245, Some("2025-01-09"), ByEmail),
    EligibleMember("mark-gonzalez", "Mark Gonzalez", 57, High, "Flu Shot", 412, None, ByPhone),
    EligibleMember("steven-robinson", "Steven Robinson", 63, Low, "Flu Shot", 189, Some("2025-01-16"), BySms),
    EligibleMember("paul-clark", "Paul Clark", 54, Medium, "Flu Shot", 298, None, ByEmail),
    EligibleMember("andrew-rodriguez", "Andrew Rodriguez", 48, High, "Flu Shot", 356, Some("2025-01-07"), ByPhone),
    EligibleMember("joshua-lewis", "Joshua Lewis", 52, Low, "Flu Shot", 167, None, BySms),
    EligibleMember("kenneth-walker", "Kenneth Walker", 59, Medium, "Flu Shot", 278, Some("2025-01-12"), ByEmail)]

  /** `mockEligibleMembers`, keyed by campaign id. */
  const MockEligibleMembers: map<string, seq<EligibleMember>> := map[
    "campaign-1" := HbA1cMembers,
    "campaign-2" := BloodPressureMembers,
    "campaign-3" := FluShotMembers]

  /** `getEligibleMembers`: the campaign's list, or the empty list for a
      campaign id the table does not hold. */
  function GetEligibleMembers(campaignId: string): (r: seq<EligibleMember>)
    ensures campaignId in MockEligibleMembers ==> r == MockEligibleMembers[campaignId]
    ensures campaignId !in MockEligibleMembers ==> r == []
  {
    if campaignId in MockEligibleMembers then MockEligibleMembers[campaignId] else []
  }

  /** The table holds exactly the three campaigns, with 11, 8 and 8
      members, and every member's gap is the one its campaign closes. */
  lemma CampaignTable()
    ensures MockEligibleMembers.Keys == {"campaign-1", "campaign-2", "campaign-3"}
    ensures |GetEligibleMembers("campaign-1")| == 11
    ensures |GetEligibleMembers("campaign-2")| == 8
    ensures |GetEligibleMembers("campaign-3")| == 8
    ensures forall i :: 0 <= i < |HbA1cMembers| ==> HbA1cMembers[i].gapType == "HbA1c"
    ensures forall i :: 0 <= i < |BloodPressureMembers| ==> BloodPressureMembers[i].gapType == "Blood Pressure"
    ensures forall i :: 0 <= i < |FluShotMembers| ==> FluShotMembers[i].gapType == "Flu Shot"
  {
  }

  /** An unknown campaign has no eligible members, so every search on it
      is empty. */
  lemma UnknownCampaignIsEmpty(campaignId: string, searchTerm: string)
    requires campaignId !in {"campaign-1", "campaign-2", "campaign-3"}
    ensures GetEligibleMembers(campaignId) == []
    ensures SearchEligibleMembers(campaignId, searchTerm) == []
  {
    CampaignTable();
  }

  /** `member.name.toLowerCase().includes(searchTerm.toLowerCase())`. */
  predicate NameMatches(member: EligibleMember, searchTerm: string)
  {
    Contains(Lower(member.name), Lower(searchTerm))
  }

  /** The filter callback, as one function value so that every use of it
      denotes the same predicate. */
  function Matcher(searchTerm: string): EligibleMember -> bool
  {
    (m: EligibleMember) => NameMatches(m, searchTerm)
  }

  /** `searchEligibleMembers`: at most ten members of the campaign, in
      list order. */
  function SearchEligibleMembers(campaignId: string, searchTerm: string): (r: seq<EligibleMember>)
    ensures |r| <= MaxResults
    ensures IsSubsequence(r, GetEligibleMembers(campaignId))
  {
    var members := GetEligibleMembers(campaignId);
    SubsequenceReflexive(members);
    FilterIsSubsequence(members, Matcher(searchTerm));
    PrefixOfSubsequence(members, members, |Take(members, MaxResults)|);
    var matches := Filter(members, Matcher(searchTerm));
    PrefixOfSubsequence(matches, members, |Take(matches, MaxResults)|);
    if Trim(searchTerm) == "" then Take(members, MaxResults)
    else Take(matches, MaxResults)
  }

  /** A blank or whitespace-only term returns the first min(10, n)
      members, whatever the term. */
  lemma SearchBlank(campaignId: string, searchTerm: string)
    requires IsBlank(searchTerm)
    ensures var members := GetEligibleMembers(campaignId);
      SearchEligibleMembers(campaignId, searchTerm)
        == members[..if |members| < MaxResults then |members| else MaxResults]
  {
    TrimEmptyIffBlank(searchTerm);
  }

  /** A term with a non-blank character returns the matching members, in
      list order: every result matches, the results are the first of the
      matches, there are min(10, matches) of them, and when fewer than ten
      are returned no matching member is missing. */
  lemma SearchNonBlank(campaignId: string, searchTerm: string)
    requires !IsBlank(searchTerm)
    ensures var r := SearchEligibleMembers(campaignId, searchTerm);
      var matches := Filter(GetEligibleMembers(campaignId), Matcher(searchTerm));
      && (forall i :: 0 <= i < |r| ==> NameMatches(r[i], searchTerm))
      && r <= matches
      && |r| == (if |matches| < MaxResults then |matches| else MaxResults)
      && (|r| < MaxResults ==> forall m :: m in GetEligibleMembers(campaignId) && NameMatches(m, searchTerm) ==> m in r)
  {
    TrimEmptyIffBlank(searchTerm);
    var members := GetEligibleMembers(campaignId);
    assert SearchEligibleMembers(campaignId, searchTerm) == Take(Filter(members, Matcher(searchTerm)), MaxResults);
    FirstMatches(members, searchTerm);
  }

  /** The first ten members of a list whose names match a term. */
  lemma FirstMatches(members: seq<EligibleMember>, searchTerm: string)
    ensures var matches := Filter(members, Matcher(searchTerm));
      var r := Take(matches, MaxResults);
      && (forall i :: 0 <= i < |r| ==> NameMatches(r[i], searchTerm))
      && r <= matches
      && |r| == (if |matches| < MaxResults then |matches| else MaxResults)
      && (|r| < MaxResults ==> forall m :: m in members && NameMatches(m, searchTerm) ==> m in r)
  {
    var matches := Filter(members, Matcher(searchTerm));
    var r := Take(matches, MaxResults);
    forall i | 0 <= i < |r| ensures NameMatches(r[i], searchTerm) {
      assert r[i] == matches[i];
      assert Matcher(searchTerm)(matches[i]);
    }
    if |r| < MaxResults {
      assert r == matches;
      forall m | m in members && NameMatches(m, searchTerm) ensures m in r {
        var k :| 0 <= k < |members| && members[k] == m;
        assert Matcher(searchTerm)(members[k]);
      }
    }
  }

  /** The term is matched as typed: trimming only decides whether it is
      blank. A member's own name matches it, but the same name followed by
      a space matches nothing shorter, although it trims to the name. */
  lemma SearchTermIsNotTrimmed(member: EligibleMember)
    ensures NameMatches(member, member.name)
    ensures !NameMatches(member, member.name + " ")
  {
    assert OccursAt(Lower(member.name), Lower(member.name), 0);
  }

  /** The last member of campaign 1 differs from each of the ten before it. */
  lemma HbA1cLastIsNew()
    ensures |HbA1cMembers| == 11
    ensures forall i :: 0 <= i < 10 ==> HbA1cMembers[i] != HbA1cMembers[10]
  {
    assert HbA1cMembers[10].id[0] == 'a';
    forall i | 0 <= i < 10 ensures HbA1cMembers[i] != HbA1cMembers[10] {
      assert HbA1cMembers[i].id[0] != 'a';
    }
  }

  /** Campaign 1 has eleven members, so a blank search on it stops at the
      tenth and leaves out the last. */
  lemma BlankSearchTruncatesCampaignOne(searchTerm: string)
    requires IsBlank(searchTerm)
    ensures |GetEligibleMembers("campaign-1")| == 11
    ensures var members := GetEligibleMembers("campaign-1");
      SearchEligibleMembers("campaign-1", searchTerm) == members[..10] &&
      members[10] !in SearchEligibleMembers("campaign-1", searchTerm)
  {
    var members := GetEligibleMembers("campaign-1");
    CampaignTable();
    HbA1cLastIsNew();
    assert members == HbA1cMembers;
    SearchBlank("campaign-1", searchTerm);
  }
}
