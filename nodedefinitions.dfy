/** The node type registry (`NODE_DEFINITIONS`), the palette grouping
    derived from it (`NODE_CATEGORIES`) and the builder's map from node type
    to renderer component. */
module NodeDefinitions {
  import opened Wrappers
  import opened JsValues
  import Seqs

  /** The six palette categories. */
  datatype Category = Triggers | Outreach | Logic | Timing | Actions | Endpoints

  /** The `type` tag of a configuration field. */
  datatype FieldKind =
    | Select | MultiSelect | Number | Text | Boolean | Range
    | TemplatePicker | TimePicker | ConditionBuilder

  /** One configuration field as the builder reads it: its kind, its
      `default` when the schema has that property, and its `options` when
      the schema has that property. Attributes read only by the form
      (`min`, `max`, `optional`, `readOnly`, `operators`, `maxBranches`)
      are not part of the model. */
  datatype FieldSchema = FieldSchema(kind: FieldKind, default: Option<Value>, options: Option<seq<string>>)

  /** One registry entry; `configSchema` keeps the declaration order of the fields. */
  datatype NodeTypeDef = NodeTypeDef(
    key: string,
    emoji: string,
    category: Category,
    defaultLabel: string,
    description: string,
    configSchema: seq<(string, FieldSchema)>)

  const GapTrigger: NodeTypeDef :=
    NodeTypeDef("gap_trigger", "🏁", Triggers, "Care Gap Detected",
      "Triggers when a member has an overdue care gap", [
      ("gapType", FieldSchema(Select, None, Some(["HbA1c", "Mammogram", "Colonoscopy", "Eye Exam", "Flu Shot"]))),
      ("daysOverdue", FieldSchema(Number, Some(Num(90)), None)),
      ("ageRange", FieldSchema(Range, None, None)),
      ("gender", FieldSchema(Select, None, Some(["any", "male", "female"])))])

  const EnrollmentTrigger: NodeTypeDef :=
    NodeTypeDef("enrollment_trigger", "🆕", Triggers, "New Member Enrolled",
      "Triggers when a new member joins the plan", [
      ("planType", FieldSchema(Select, None, Some(["Medicare Advantage", "Commercial", "Medicaid", "Any"]))),
      ("daysSinceEnrollment", FieldSchema(Number, Some(Num(0)), None))])

  const HealthEvent: NodeTypeDef :=
    NodeTypeDef("health_event", "🏥", Triggers, "Health Event Occurred",
      "Triggers on specific health events", [
      ("eventType", FieldSchema(Select, None, Some(["Hospital Discharge", "ER Visit", "New Diagnosis", "Procedure"]))),
      ("lookbackDays", FieldSchema(Number, Some(Num(7)), None))])

  const Sms: NodeTypeDef :=
    NodeTypeDef("sms", "📱", Outreach, "Send SMS",
      "Send a text message to member", [
      ("template", FieldSchema(TemplatePicker, None, None)),
      ("timing", FieldSchema(Select, None, Some(["morning", "afternoon", "evening", "immediate"]))),
      ("characterLimit", FieldSchema(Number, Some(Num(160)), None))])

  const Email: NodeTypeDef :=
    NodeTypeDef("email", "📧", Outreach, "Send Email",
      "Send an email to member", [
      ("template", FieldSchema(TemplatePicker, None, None)),
      ("subject", FieldSchema(Text, None, None)),
      ("includeAttachments", FieldSchema(Boolean, Some(Bool(false)), None)),
      ("trackOpens", FieldSchema(Boolean, Some(Bool(true)), None))])

  const Phone: NodeTypeDef :=
    NodeTypeDef("phone", "☎️", Outreach, "Phone Call",
      "Automated or live phone call", [
      ("callType", FieldSchema(Select, None, Some(["automated", "live_agent"]))),
      ("script", FieldSchema(TemplatePicker, None, None)),
      ("maxAttempts", FieldSchema(Number, Some(Num(2)), None)),
      ("leaveVoicemail", FieldSchema(Boolean, Some(Bool(true)), None))])

  const Mail: NodeTypeDef :=
    NodeTypeDef("mail", "📬", Outreach, "Send Direct Mail",
      "Send physical mail to member address", [
      ("format", FieldSchema(Select, None, Some(["letter", "postcard", "packet"]))),
      ("template", FieldSchema(TemplatePicker, None, None)),
      ("priority", FieldSchema(Select, None, Some(["standard", "priority"]))),
      ("trackDelivery", FieldSchema(Boolean, Some(Bool(false)), None))])

  const AgeCheck: NodeTypeDef :=
    NodeTypeDef("age_check", "🎂", Logic, "Check Age",
      "Branch based on member age", [
      ("branches", FieldSchema(ConditionBuilder, None, None))])

  const ResponseCheck: NodeTypeDef :=
    NodeTypeDef("response_check", "💭", Logic, "Check for Response",
      "Branch based on member response", [
      ("responseType", FieldSchema(Select, None, Some(["any", "positive", "negative", "no_response"]))),
      ("waitHours", FieldSchema(Number, Some(Num(48)), None))])

  const RiskCheck: NodeTypeDef :=
    NodeTypeDef("risk_check", "⚠️", Logic, "Check Risk Level",
      "Branch based on clinical risk", [
      ("riskModel", FieldSchema(Select, None, Some(["HCC", "SDOH", "Clinical", "Combined"]))),
      ("branches", FieldSchema(MultiSelect, None, Some(["high", "medium", "low"])))])

  const HistoryCheck: NodeTypeDef :=
    NodeTypeDef("history_check", "📊", Logic, "Check History",
      "Look up member history", [
      ("checkType", FieldSchema(Select, None, Some(["previous_procedure", "family_history", "past_response"]))),
      ("lookback", FieldSchema(Select, None, Some(["30_days", "90_days", "1_year", "2_years", "all_time"])))])

  const Wait: NodeTypeDef :=
    NodeTypeDef("wait", "⏳", Timing, "Wait Period",
      "Wait before continuing", [
      ("duration", FieldSchema(Number, Some(Num(3)), None)),
      ("unit", FieldSchema(Select, None, Some(["hours", "days", "weeks"]))),
      ("businessDaysOnly", FieldSchema(Boolean, Some(Bool(false)), None))])

  const ScheduleTime: NodeTypeDef :=
    NodeTypeDef("schedule_time", "🕐", Timing, "Wait Until Specific Time",
      "Wait until a specific time of day", [
      ("time", FieldSchema(TimePicker, Some(Str("09:00")), None)),
      ("timezone", FieldSchema(Select, None, Some(["member_local", "ET", "CT", "MT", "PT"])))])

  const ScheduleAppointment: NodeTypeDef :=
    NodeTypeDef("schedule_appointment", "📅", Actions, "Schedule Appointment",
      "Help member schedule appointment", [
      ("appointmentType", FieldSchema(Select, None, Some(["lab", "imaging", "provider", "specialist"]))),
      ("method", FieldSchema(Select, None, Some(["auto_schedule", "transfer_to_scheduler", "send_link"]))),
      ("allowBundling", FieldSchema(Boolean, Some(Bool(true)), None))])

  const Escalate: NodeTypeDef :=
    NodeTypeDef("escalate", "🚨", Actions, "Escalate to Human",
      "Transfer to human intervention", [
      ("escalateTo", FieldSchema(Select, None, Some(["care_coordinator", "nurse", "provider"]))),
      ("priority", FieldSchema(Select, None, Some(["routine", "urgent", "emergent"]))),
      ("reason", FieldSchema(Text, None, None))])

  const UpdateRecord: NodeTypeDef :=
    NodeTypeDef("update_record", "💾", Actions, "Update Member Record",
      "Update member data", [
      ("field", FieldSchema(Select, None, Some(["gap_status", "contact_preference", "last_contact"]))),
      ("value", FieldSchema(Text, None, None))])

  const AddTag: NodeTypeDef :=
    NodeTypeDef("add_tag", "🏷️", Actions, "Add Tag",
      "Tag member for segmentation", [
      ("tagCategory", FieldSchema(Select, None, Some(["clinical", "engagement", "preference"]))),
      ("tagValue", FieldSchema(Text, None, None))])

  const Success: NodeTypeDef :=
    NodeTypeDef("success", "✅", Endpoints, "Success",
      "Campaign succeeded", [
      ("outcome", FieldSchema(Select, None, Some(["gap_closed", "appointment_scheduled", "member_engaged"])))])

  const Incomplete: NodeTypeDef :=
    NodeTypeDef("incomplete", "❌", Endpoints, "Incomplete",
      "Campaign ended without success", [
      ("reason", FieldSchema(Select, None, Some(["max_attempts", "member_declined", "unable_to_reach"]))),
      ("followUpAction", FieldSchema(Select, None, Some(["retry_next_quarter", "different_campaign", "none"])))])

  /** `NODE_DEFINITIONS`, in declaration order. */
  const Definitions: seq<NodeTypeDef> := [
    GapTrigger,
    EnrollmentTrigger,
    HealthEvent,
    Sms,
    Email,
    Phone,
    Mail,
    AgeCheck,
    ResponseCheck,
    RiskCheck,
    HistoryCheck,
    Wait,
    ScheduleTime,
    ScheduleAppointment,
    Escalate,
    UpdateRecord,
    AddTag,
    Success,
    Incomplete]

  /** The six categories in their order of first use in the registry. */
  const AllCategories: seq<Category> := [Triggers, Outreach, Logic, Timing, Actions, Endpoints]

  /** The keys of `defs`, in order. */
  function Keys(defs: seq<NodeTypeDef>): (ks: seq<string>)
    ensures |ks| == |defs|
    ensures forall i :: 0 <= i < |defs| ==> ks[i] == defs[i].key
  {
    seq(|defs|, i requires 0 <= i < |defs| => defs[i].key)
  }

  /** No key is declared twice (an object literal cannot hold a key twice). */
  predicate DistinctKeys(defs: seq<NodeTypeDef>)
  {
    forall i, j :: 0 <= i < j < |defs| ==> defs[i].key != defs[j].key
  }

  /** `NODE_DEFINITIONS[key]`: the entry with that key, or nothing. */
  function Lookup(defs: seq<NodeTypeDef>, key: string): (r: Option<NodeTypeDef>)
    ensures r.None? <==> forall i :: 0 <= i < |defs| ==> defs[i].key != key
    ensures r.Some? ==> r.value in defs && r.value.key == key
  {
    if defs == [] then None
    else if defs[0].key == key then Some(defs[0])
    else Lookup(defs[1..], key)
  }

  /** With distinct keys, looking up an entry's key finds that entry. */
  lemma {:induction false} LookupAt(defs: seq<NodeTypeDef>, i: int)
    requires DistinctKeys(defs) && 0 <= i < |defs|
    ensures Lookup(defs, defs[i].key) == Some(defs[i])
  {
    if i > 0 {
      assert DistinctKeys(defs[1..]) by {
        forall p, q | 0 <= p < q < |defs[1..]| ensures defs[1..][p].key != defs[1..][q].key {
          assert defs[1..][p] == defs[p + 1] && defs[1..][q] == defs[q + 1];
        }
      }
      LookupAt(defs[1..], i - 1);
      assert defs[1..][i - 1] == defs[i];
    }
  }

  /** The registry's keys, in declaration order. */
  const RegistryKeys: seq<string> := ["gap_trigger", "enrollment_trigger", "health_event", "sms", "email", "phone", "mail", "age_check", "response_check", "risk_check", "history_check", "wait", "schedule_time", "schedule_appointment", "escalate", "update_record", "add_tag", "success", "incomplete"]

  /** The categories of the registry's types, in declaration order. */
  const RegistryCategories: seq<Category> := [Triggers, Triggers, Triggers, Outreach, Outreach, Outreach, Outreach, Logic, Logic, Logic, Logic, Timing, Timing, Actions, Actions, Actions, Actions, Endpoints, Endpoints]

  /** A cheap fingerprint of a key: its length and first character. */
  function KeySignature(k: string): int
  {
    if k == [] then 0 else |k| * 65536 + k[0] as int
  }

  /** The registry's keys are the 19 listed. */
  lemma RegistryKeyList()
    ensures |Definitions| == 19
    ensures Keys(Definitions) == RegistryKeys
  {
  }

  /** No two of the listed keys are equal. */
  lemma RegistryKeysNoDuplicates()
    ensures forall i, j :: 0 <= i < j < |RegistryKeys| ==> RegistryKeys[i] != RegistryKeys[j]
  {
    var sigs := RegistrySignatures;
    assert |sigs| == |RegistryKeys|;
    forall i | 0 <= i < |RegistryKeys| ensures KeySignature(RegistryKeys[i]) == sigs[i] {
      KeySignatureAt(i);
    }
    forall i, j | 0 <= i < j < |RegistryKeys| ensures RegistryKeys[i] != RegistryKeys[j] {
      assert sigs[i] != sigs[j];
    }
  }

  /** The signatures of the listed keys, pairwise different. */
  const RegistrySignatures: seq<int> := [11 * 65536 + 'g' as int, 18 * 65536 + 'e' as int, 12 * 65536 + 'h' as int, 3 * 65536 + 's' as int, 5 * 65536 + 'e' as int, 5 * 65536 + 'p' as int, 4 * 65536 + 'm' as int, 9 * 65536 + 'a' as int, 14 * 65536 + 'r' as int, 10 * 65536 + 'r' as int, 13 * 65536 + 'h' as int, 4 * 65536 + 'w' as int, 13 * 65536 + 's' as int, 20 * 65536 + 's' as int, 8 * 65536 + 'e' as int, 13 * 65536 + 'u' as int, 7 * 65536 + 'a' as int, 7 * 65536 + 's' as int, 10 * 65536 + 'i' as int]

  lemma KeySignatureAt(i: int)
    requires 0 <= i < |RegistryKeys|
    ensures KeySignature(RegistryKeys[i]) == RegistrySignatures[i]
  {
  }

  /** Looking up a listed key finds its entry. */
  lemma RegistryLookup(i: int)
    requires 0 <= i < |RegistryKeys|
    ensures Lookup(Definitions, RegistryKeys[i]) == Some(Definitions[i])
    ensures Definitions[i].category == RegistryCategories[i]
  {
    RegistryKeyList();
    RegistryKeysDistinct();
    RegistryCategoryList();
    assert Keys(Definitions)[i] == Definitions[i].key;
    assert CategoriesOf(Definitions)[i] == Definitions[i].category;
    LookupAt(Definitions, i);
  }

  /** The registry declares each key once. */
  lemma RegistryKeysDistinct()
    ensures DistinctKeys(Definitions)
  {
    RegistryKeyList();
    RegistryKeysNoDuplicates();
    forall i, j | 0 <= i < j < |Definitions| ensures Definitions[i].key != Definitions[j].key {
      assert Keys(Definitions)[i] == RegistryKeys[i] && Keys(Definitions)[j] == RegistryKeys[j];
    }
  }

  /** The categories of `defs`' types, in order. */
  function CategoriesOf(defs: seq<NodeTypeDef>): (cs: seq<Category>)
    ensures |cs| == |defs|
    ensures forall i :: 0 <= i < |defs| ==> cs[i] == defs[i].category
  {
    seq(|defs|, i requires 0 <= i < |defs| => defs[i].category)
  }

  /** `n` copies of `c`. */
  function Run(c: Category, n: nat): (r: seq<Category>)
    ensures |r| == n && forall i :: 0 <= i < n ==> r[i] == c
  {
    seq(n, _ => c)
  }

  /** The categories of the registry's types are the 19 listed. */
  lemma RegistryCategoryList()
    ensures CategoriesOf(Definitions) == RegistryCategories
  {
  }

  /** The registry's types come in six runs, one per category. */
  lemma RegistryCategoryRuns()
    ensures CategoriesOf(Definitions) == RegistryCategories
    ensures RegistryCategories == Runs(3, 4, 4, 2, 4, 2)
  {
    RegistryCategoryList();
  }

  // ------------------------------------------------------------------
  // The palette grouping (`NODE_CATEGORIES`)

  /** One palette button: the type with its emoji, default label and description. */
  datatype PaletteEntry = PaletteEntry(nodeType: string, emoji: string, name: string, description: string)

  function EntryOf(d: NodeTypeDef): PaletteEntry
  {
    PaletteEntry(d.key, d.emoji, d.defaultLabel, d.description)
  }

  /** The list the palette shows under category `c`: the entries of the
      types of that category, each appended as the `reduce` meets it. */
  function EntriesFor(defs: seq<NodeTypeDef>, c: Category): seq<PaletteEntry>
  {
    if defs == [] then []
    else
      var d := defs[|defs| - 1];
      EntriesFor(defs[..|defs| - 1], c) + (if d.category == c then [EntryOf(d)] else [])
  }

  /** How often category `c` occurs in `cs`. */
  function Count(cs: seq<Category>, c: Category): nat
  {
    if cs == [] then 0 else (if cs[0] == c then 1 else 0) + Count(cs[1..], c)
  }

  /** The distinct categories of `cs` in order of first appearance. */
  function FirstAppearances(cs: seq<Category>): seq<Category>
  {
    if cs == [] then []
    else
      var o := FirstAppearances(cs[..|cs| - 1]);
      if cs[|cs| - 1] in o then o else o + [cs[|cs| - 1]]
  }

  /** The key order of the object the `reduce` builds, which is the order
      in which the palette shows the categories. */
  function CategoryOrder(defs: seq<NodeTypeDef>): seq<Category>
  {
    FirstAppearances(CategoriesOf(defs))
  }

  /** First appearances list every category of `cs` once and no other. */
  lemma {:induction false} FirstAppearancesSpec(cs: seq<Category>)
    ensures forall c :: c in FirstAppearances(cs) <==> c in cs
    ensures forall p, q :: 0 <= p < q < |FirstAppearances(cs)| ==> FirstAppearances(cs)[p] != FirstAppearances(cs)[q]
  {
    if cs != [] {
      var init := cs[..|cs| - 1];
      FirstAppearancesSpec(init);
      assert cs == init + [cs[|cs| - 1]];
    }
  }

  /** A type's category is listed in the palette order. */
  lemma CategoryOrderMembers(defs: seq<NodeTypeDef>, c: Category)
    ensures c in CategoryOrder(defs) <==> exists i :: 0 <= i < |defs| && defs[i].category == c
  {
    FirstAppearancesSpec(CategoriesOf(defs));
    if c in CategoriesOf(defs) {
      var i :| 0 <= i < |defs| && CategoriesOf(defs)[i] == c;
    }
  }

  /** Adding one more type extends exactly its own category's list. */
  lemma EntriesForSnoc(defs: seq<NodeTypeDef>, d: NodeTypeDef, c: Category)
    ensures EntriesFor(defs + [d], c) == EntriesFor(defs, c) + (if d.category == c then [EntryOf(d)] else [])
  {
    assert (defs + [d])[..|defs|] == defs;
  }

  /** A category `defs` does not use has an empty list. */
  lemma {:induction false} EntriesForUnused(defs: seq<NodeTypeDef>, c: Category)
    requires c !in CategoriesOf(defs)
    ensures EntriesFor(defs, c) == []
  {
    if defs != [] {
      var init := defs[..|defs| - 1];
      assert CategoriesOf(defs)[|defs| - 1] == defs[|defs| - 1].category;
      assert forall i :: 0 <= i < |init| ==> CategoriesOf(init)[i] == CategoriesOf(defs)[i];
      EntriesForUnused(init, c);
    }
  }

  /** `NODE_CATEGORIES`: the `reduce` over the registry entries, whose
      accumulator gains an empty list the first time a category is met and
      then has the entry appended. `order` is the accumulator's key order. */
  method GroupByCategory(defs: seq<NodeTypeDef>) returns (order: seq<Category>, groups: map<Category, seq<PaletteEntry>>)
    ensures order == CategoryOrder(defs)
    ensures forall c :: c in groups <==> c in order
    ensures forall c :: c in groups ==> groups[c] == EntriesFor(defs, c)
  {
    order, groups := [], map[];
    ghost var seen: seq<NodeTypeDef> := [];
    var i := 0;
    while i < |defs|
      invariant 0 <= i <= |defs| && seen == defs[..i]
      invariant Grouped(seen, order, groups)
    {
      var d := defs[i];
      ghost var order0, groups0 := order, groups;
      if d.category !in groups {
        groups := groups[d.category := []];
        order := order + [d.category];
      }
      groups := groups[d.category := groups[d.category] + [EntryOf(d)]];
      GroupStep(seen, d, order0, groups0);
      seen := seen + [d];
      i := i + 1;
    }
    assert seen == defs;
  }

  /** What the accumulator holds after the entries `seen`: the categories
      in order of first appearance, each with its list so far. */
  ghost predicate Grouped(seen: seq<NodeTypeDef>, order: seq<Category>, groups: map<Category, seq<PaletteEntry>>)
  {
    && order == FirstAppearances(CategoriesOf(seen))
    && (forall c :: c in groups <==> c in order)
    && (forall c :: c in groups ==> groups[c] == EntriesFor(seen, c))
  }

  /** The accumulator after one more entry `d`: an empty list is created
      for a category met for the first time, then `d`'s entry is appended. */
  function Push(groups: map<Category, seq<PaletteEntry>>, d: NodeTypeDef): map<Category, seq<PaletteEntry>>
  {
    var g := if d.category in groups then groups else groups[d.category := []];
    g[d.category := g[d.category] + [EntryOf(d)]]
  }

  /** One step of the `reduce` keeps the accumulator `Grouped`. */
  lemma GroupStep(seen: seq<NodeTypeDef>, d: NodeTypeDef, order: seq<Category>, groups: map<Category, seq<PaletteEntry>>)
    requires Grouped(seen, order, groups)
    ensures Grouped(seen + [d], if d.category in groups then order else order + [d.category], Push(groups, d))
  {
    GroupStepOrder(seen, d, order);
    GroupStepLists(seen, d, order, groups);
  }

  /** The key order after one more entry. */
  lemma GroupStepOrder(seen: seq<NodeTypeDef>, d: NodeTypeDef, order: seq<Category>)
    requires order == FirstAppearances(CategoriesOf(seen))
    ensures FirstAppearances(CategoriesOf(seen + [d])) == if d.category in order then order else order + [d.category]
  {
    assert CategoriesOf(seen + [d]) == CategoriesOf(seen) + [d.category];
    assert (CategoriesOf(seen) + [d.category])[..|seen|] == CategoriesOf(seen);
  }

  /** The lists after one more entry: only `d`'s category gains an entry. */
  lemma GroupStepLists(seen: seq<NodeTypeDef>, d: NodeTypeDef, order: seq<Category>, groups: map<Category, seq<PaletteEntry>>)
    requires order == FirstAppearances(CategoriesOf(seen))
    requires forall c :: c in groups <==> c in order
    requires forall c :: c in groups ==> groups[c] == EntriesFor(seen, c)
    ensures forall c :: c in Push(groups, d) ==> Push(groups, d)[c] == EntriesFor(seen + [d], c)
    ensures forall c :: c in Push(groups, d) <==> c in groups || c == d.category
  {
    FirstAppearancesSpec(CategoriesOf(seen));
    if d.category !in order {
      EntriesForUnused(seen, d.category);
    }
    var g := Push(groups, d);
    forall c | c in g ensures g[c] == EntriesFor(seen + [d], c) {
      EntriesForSnoc(seen, d, c);
    }
  }

  /** How often type `t` appears in a palette list. */
  function Occurrences(es: seq<PaletteEntry>, t: string): nat
  {
    if es == [] then 0 else (if es[0].nodeType == t then 1 else 0) + Occurrences(es[1..], t)
  }

  lemma {:induction false} OccurrencesConcat(a: seq<PaletteEntry>, b: seq<PaletteEntry>, t: string)
    ensures Occurrences(a + b, t) == Occurrences(a, t) + Occurrences(b, t)
  {
    if a != [] {
      assert (a + b)[1..] == a[1..] + b;
      OccurrencesConcat(a[1..], b, t);
    } else {
      assert a + b == b;
    }
  }

  /** The first type goes first into its category's list. */
  lemma {:induction false} EntriesForCons(d: NodeTypeDef, rest: seq<NodeTypeDef>, c: Category)
    ensures EntriesFor([d] + rest, c) == (if d.category == c then [EntryOf(d)] else []) + EntriesFor(rest, c)
  {
    if rest == [] {
      assert [d] + rest == [] + [d];
      EntriesForSnoc([], d, c);
    } else {
      var init, last := rest[..|rest| - 1], rest[|rest| - 1];
      assert rest == init + [last];
      assert [d] + rest == ([d] + init) + [last];
      EntriesForSnoc([d] + init, last, c);
      EntriesForSnoc(init, last, c);
      EntriesForCons(d, init, c);
    }
  }

  /** A type that is not in `defs` is in no list. */
  lemma {:induction false} OccurrencesOfAbsent(defs: seq<NodeTypeDef>, c: Category, t: string)
    requires forall i :: 0 <= i < |defs| ==> defs[i].key != t
    ensures Occurrences(EntriesFor(defs, c), t) == 0
  {
    if defs != [] {
      EntriesForCons(defs[0], defs[1..], c);
      assert [defs[0]] + defs[1..] == defs;
      OccurrencesOfAbsent(defs[1..], c, t);
      OccurrencesConcat(if defs[0].category == c then [EntryOf(defs[0])] else [], EntriesFor(defs[1..], c), t);
    }
  }

  /** Every type of a registry with distinct keys is listed exactly once:
      once under its own category and nowhere else. */
  lemma {:induction false} PaletteListsTypeOnce(defs: seq<NodeTypeDef>, i: int, c: Category)
    requires DistinctKeys(defs) && 0 <= i < |defs|
    ensures Occurrences(EntriesFor(defs, c), defs[i].key) == if defs[i].category == c then 1 else 0
  {
    var d, rest := defs[0], defs[1..];
    assert [d] + rest == defs;
    EntriesForCons(d, rest, c);
    var head: seq<PaletteEntry> := if d.category == c then [EntryOf(d)] else [];
    OccurrencesConcat(head, EntriesFor(rest, c), defs[i].key);
    if i == 0 {
      OccurrencesOfAbsent(rest, c, d.key);
    } else {
      assert DistinctKeys(rest) by {
        forall p, q | 0 <= p < q < |rest| ensures rest[p].key != rest[q].key {
          assert rest[p] == defs[p + 1] && rest[q] == defs[q + 1];
        }
      }
      assert rest[i - 1] == defs[i];
      PaletteListsTypeOnce(rest, i - 1, c);
    }
  }

  /** Every palette entry copies the emoji, default label and description
      of a registry type of that very category. */
  lemma {:induction false} PaletteEntriesCopyDefinitions(defs: seq<NodeTypeDef>, c: Category, k: int)
    requires 0 <= k < |EntriesFor(defs, c)|
    ensures exists i :: 0 <= i < |defs| && defs[i].category == c && EntriesFor(defs, c)[k] == PaletteEntry(defs[i].key, defs[i].emoji, defs[i].defaultLabel, defs[i].description)
  {
    var init, d := defs[..|defs| - 1], defs[|defs| - 1];
    if k < |EntriesFor(init, c)| {
      PaletteEntriesCopyDefinitions(init, c, k);
      var i :| 0 <= i < |init| && init[i].category == c && EntriesFor(init, c)[k] == EntryOf(init[i]);
      assert defs[i] == init[i];
    } else {
      assert defs[|defs| - 1] == d;
    }
  }

  /** A category's list has one entry per type of that category. */
  lemma {:induction false} EntriesForSize(defs: seq<NodeTypeDef>, c: Category)
    ensures |EntriesFor(defs, c)| == Count(CategoriesOf(defs), c)
  {
    if defs != [] {
      EntriesForCons(defs[0], defs[1..], c);
      assert [defs[0]] + defs[1..] == defs;
      assert CategoriesOf(defs)[1..] == CategoriesOf(defs[1..]);
      EntriesForSize(defs[1..], c);
    }
  }

  /** The sum of the list lengths over categories `cs`. */
  function SumSizes(cs: seq<Category>, defs: seq<NodeTypeDef>): nat
  {
    if cs == [] then 0 else |EntriesFor(defs, cs[0])| + SumSizes(cs[1..], defs)
  }

  lemma {:induction false} SumSizesEmpty(cs: seq<Category>)
    ensures SumSizes(cs, []) == 0
  {
    if cs != [] {
      SumSizesEmpty(cs[1..]);
    }
  }

  /** Putting one type in front adds, once per listing of its category, one. */
  lemma {:induction false} SumSizesCons(cs: seq<Category>, d: NodeTypeDef, rest: seq<NodeTypeDef>)
    ensures SumSizes(cs, [d] + rest) == SumSizes(cs, rest) + Count(cs, d.category)
  {
    if cs != [] {
      EntriesForCons(d, rest, cs[0]);
      SumSizesCons(cs[1..], d, rest);
    }
  }

  /** A category occurs once in a list without repetitions that holds it. */
  lemma {:induction false} CountDistinct(cs: seq<Category>, c: Category)
    requires forall p, q :: 0 <= p < q < |cs| ==> cs[p] != cs[q]
    ensures Count(cs, c) == if c in cs then 1 else 0
  {
    if cs != [] {
      CountDistinct(cs[1..], c);
      assert cs[0] !in cs[1..] by {
        forall q | 0 <= q < |cs[1..]| ensures cs[1..][q] != cs[0] {
          assert cs[1..][q] == cs[q + 1];
        }
      }
    }
  }

  lemma CountAllCategories(c: Category)
    ensures Count(AllCategories, c) == 1
  {
    CountDistinct(AllCategories, c);
    assert c in AllCategories by {
      match c
      case Triggers => assert AllCategories[0] == c;
      case Outreach => assert AllCategories[1] == c;
      case Logic => assert AllCategories[2] == c;
      case Timing => assert AllCategories[3] == c;
      case Actions => assert AllCategories[4] == c;
      case Endpoints => assert AllCategories[5] == c;
    }
  }

  /** The palette lists, over all six categories, add up to the number of types. */
  lemma {:induction false} GroupSizesSum(defs: seq<NodeTypeDef>)
    ensures SumSizes(AllCategories, defs) == |defs|
  {
    if defs != [] {
      assert [defs[0]] + defs[1..] == defs;
      SumSizesCons(AllCategories, defs[0], defs[1..]);
      CountAllCategories(defs[0].category);
      GroupSizesSum(defs[1..]);
    } else {
      SumSizesEmpty(AllCategories);
    }
  }

  /** The types of a palette list, in order. */
  function EntryTypes(es: seq<PaletteEntry>): (ts: seq<string>)
    ensures |ts| == |es| && forall i :: 0 <= i < |es| ==> ts[i] == es[i].nodeType
  {
    seq(|es|, i requires 0 <= i < |es| => es[i].nodeType)
  }

  /** Each category's list follows the registry's declaration order. */
  lemma {:induction false} PaletteInDeclarationOrder(defs: seq<NodeTypeDef>, c: Category)
    ensures Seqs.IsSubsequence(EntryTypes(EntriesFor(defs, c)), Keys(defs))
  {
    if defs != [] {
      var d, rest := defs[0], defs[1..];
      assert [d] + rest == defs;
      EntriesForCons(d, rest, c);
      PaletteInDeclarationOrder(rest, c);
      var tail := EntryTypes(EntriesFor(rest, c));
      assert Keys(defs)[1..] == Keys(rest);
      if d.category == c {
        assert EntryTypes(EntriesFor(defs, c))[1..] == tail;
      } else {
        assert EntryTypes(EntriesFor(defs, c)) == tail;
        if tail != [] {
          Seqs.SubsequenceOfTail(tail, Keys(defs));
        }
      }
    }
  }

  /** A run of a new category adds it, once, to the first appearances. */
  lemma {:induction false} FirstAppearancesRun(cs: seq<Category>, c: Category, n: nat)
    requires c !in cs && n > 0
    ensures FirstAppearances(cs + Run(c, n)) == FirstAppearances(cs) + [c]
  {
    FirstAppearancesSpec(cs);
    var all := cs + Run(c, n);
    assert all[..|all| - 1] == cs + Run(c, n - 1);
    if n == 1 {
      assert cs + Run(c, 0) == cs;
    } else {
      FirstAppearancesRun(cs, c, n - 1);
    }
  }

  lemma {:induction false} CountConcat(a: seq<Category>, b: seq<Category>, c: Category)
    ensures Count(a + b, c) == Count(a, c) + Count(b, c)
  {
    if a == [] {
      assert a + b == b;
    } else {
      assert (a + b)[1..] == a[1..] + b;
      CountConcat(a[1..], b, c);
    }
  }

  lemma {:induction false} CountRun(d: Category, n: nat, c: Category)
    ensures Count(Run(d, n), c) == if d == c then n else 0
  {
    if n > 0 {
      assert Run(d, n)[1..] == Run(d, n - 1);
      CountRun(d, n - 1, c);
    }
  }

  /** Appending a run of a category not yet seen, one run at a time. */
  lemma RunsFirstAppearances(cs: seq<Category>, c: Category, n: nat, order: seq<Category>)
    requires FirstAppearances(cs) == order && c !in order && n > 0
    ensures FirstAppearances(cs + Run(c, n)) == order + [c]
  {
    FirstAppearancesSpec(cs);
    FirstAppearancesRun(cs, c, n);
  }

  /** Six runs, one per category in palette order, of the given lengths. */
  function Runs(n1: nat, n2: nat, n3: nat, n4: nat, n5: nat, n6: nat): seq<Category>
  {
    Run(Triggers, n1) + Run(Outreach, n2) + Run(Logic, n3) + Run(Timing, n4) + Run(Actions, n5) + Run(Endpoints, n6)
  }

  /** The first runs of six non-empty ones appear in the order of the
      runs; each step adds one category not met before. */
  lemma RunsOrder2(n1: nat, n2: nat)
    requires n1 > 0 && n2 > 0
    ensures FirstAppearances(Run(Triggers, n1) + Run(Outreach, n2)) == [Triggers, Outreach]
  {
    assert [] + Run(Triggers, n1) == Run(Triggers, n1);
    RunsFirstAppearances([], Triggers, n1, []);
    RunsFirstAppearances(Run(Triggers, n1), Outreach, n2, [Triggers]);
  }

  lemma RunsOrder3(n1: nat, n2: nat, n3: nat)
    requires n1 > 0 && n2 > 0 && n3 > 0
    ensures FirstAppearances(Run(Triggers, n1) + Run(Outreach, n2) + Run(Logic, n3)) == [Triggers, Outreach, Logic]
  {
    RunsOrder2(n1, n2);
    RunsFirstAppearances(Run(Triggers, n1) + Run(Outreach, n2), Logic, n3, [Triggers, Outreach]);
  }

  lemma RunsOrder4(n1: nat, n2: nat, n3: nat, n4: nat)
    requires n1 > 0 && n2 > 0 && n3 > 0 && n4 > 0
    ensures FirstAppearances(Run(Triggers, n1) + Run(Outreach, n2) + Run(Logic, n3) + Run(Timing, n4))
      == [Triggers, Outreach, Logic, Timing]
  {
    RunsOrder3(n1, n2, n3);
    RunsFirstAppearances(Run(Triggers, n1) + Run(Outreach, n2) + Run(Logic, n3), Timing, n4, [Triggers, Outreach, Logic]);
  }

  lemma RunsOrder5(n1: nat, n2: nat, n3: nat, n4: nat, n5: nat)
    requires n1 > 0 && n2 > 0 && n3 > 0 && n4 > 0 && n5 > 0
    ensures FirstAppearances(Run(Triggers, n1) + Run(Outreach, n2) + Run(Logic, n3) + Run(Timing, n4) + Run(Actions, n5))
      == [Triggers, Outreach, Logic, Timing, Actions]
  {
    RunsOrder4(n1, n2, n3, n4);
    RunsFirstAppearances(Run(Triggers, n1) + Run(Outreach, n2) + Run(Logic, n3) + Run(Timing, n4), Actions, n5,
      [Triggers, Outreach, Logic, Timing]);
  }

  /** Six non-empty runs of six different categories appear in the order
      of the runs. */
  lemma RunsOrder(n1: nat, n2: nat, n3: nat, n4: nat, n5: nat, n6: nat)
    requires n1 > 0 && n2 > 0 && n3 > 0 && n4 > 0 && n5 > 0 && n6 > 0
    ensures FirstAppearances(Runs(n1, n2, n3, n4, n5, n6)) == AllCategories
  {
    RunsOrder5(n1, n2, n3, n4, n5);
    RunsFirstAppearances(Run(Triggers, n1) + Run(Outreach, n2) + Run(Logic, n3) + Run(Timing, n4) + Run(Actions, n5),
      Endpoints, n6, [Triggers, Outreach, Logic, Timing, Actions]);
  }

  /** The palette shows the categories in the order Triggers, Outreach,
      Logic, Timing, Actions, Endpoints. */
  lemma RegistryCategoryOrder()
    ensures CategoryOrder(Definitions) == AllCategories
  {
    RegistryCategoryRuns();
    RunsOrder(3, 4, 4, 2, 4, 2);
  }

  /** How many types of each category six runs hold. */
  lemma RunCounts(n1: nat, n2: nat, n3: nat, n4: nat, n5: nat, n6: nat, c: Category)
    ensures Count(Runs(n1, n2, n3, n4, n5, n6), c) == match c
      case Triggers => n1 case Outreach => n2 case Logic => n3
      case Timing => n4 case Actions => n5 case Endpoints => n6
  {
    var r1 := Run(Triggers, n1);
    var r2 := r1 + Run(Outreach, n2);
    var r3 := r2 + Run(Logic, n3);
    var r4 := r3 + Run(Timing, n4);
    var r5 := r4 + Run(Actions, n5);
    CountConcat(r5, Run(Endpoints, n6), c);
    CountConcat(r4, Run(Actions, n5), c);
    CountConcat(r3, Run(Timing, n4), c);
    CountConcat(r2, Run(Logic, n3), c);
    CountConcat(r1, Run(Outreach, n2), c);
    CountRun(Triggers, n1, c);
    CountRun(Outreach, n2, c);
    CountRun(Logic, n3, c);
    CountRun(Timing, n4, c);
    CountRun(Actions, n5, c);
    CountRun(Endpoints, n6, c);
  }

  /** The six lists hold 3, 4, 4, 2, 4 and 2 types. */
  lemma RegistryGroupSizes(c: Category)
    ensures |EntriesFor(Definitions, c)| == match c
      case Triggers => 3 case Outreach => 4 case Logic => 4
      case Timing => 2 case Actions => 4 case Endpoints => 2
  {
    RegistryCategoryRuns();
    EntriesForSize(Definitions, c);
    RunCounts(3, 4, 4, 2, 4, 2, c);
  }
}
