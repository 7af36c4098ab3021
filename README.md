# Nexus Care Agent — a verified model of the demo's logic

Nexus Care Agent is a React demo for a healthcare outreach team. It has
three parts:

- a **campaign builder** with a workflow canvas, a palette of node types
  and a chat box that turns a request into a workflow;
- **member selection helpers** over mock campaign and member tables;
- a **member detail page** that steps through a scripted simulation of an
  agent bundling two care gaps.

This project models the logic under those screens in Dafny and proves what
it promises:

- the node registry and its palette grouping;
- editing a node, default configurations and appending palette nodes;
- the keyword rule table of the chat box and the graphs it installs;
- the handle rules of the generic and the decision node;
- member search, gap-count and bundling filters, and campaign progression;
- the member detail state machine, its logs and its initial journey;
- the expand/collapse toggles and the newest-first sorts of the two panels.

Modules follow the source files:

| module | file | models |
|---|---|---|
| `JsStrings`, `JsValues`, `Seqs`, `Wrappers` | `jsstrings.dfy`, `jsvalues.dfy`, `seqs.dfy`, `wrappers.dfy` | the JavaScript operations the code relies on: `trim`, `toLowerCase`, `includes`, `replace`, `String(n)`, object spread, truthiness, `filter`, `slice`, `sort` |
| `Flow` | `flow.dfy` | nodes, edges, ids, edge endpoints |
| `NodeDefinitions` | `nodedefinitions.dfy` | `NODE_DEFINITIONS` and the `NODE_CATEGORIES` reduce |
| `CampaignBuilder` | `builder.dfy` | `CampaignBuilder.tsx`: node edits, defaults, palette, chat rules, as a `Builder` class |
| `BaseNode`, `DecisionNode` | `basenode.dfy`, `decisionnode.dfy` | handle presence, config preview, branch captions |
| `EligibleMembers` | `eligible.dfy` | `eligibleMembers.ts` |
| `MockData` | `mockdata.dfy` | `mockData.ts`, with the mutable campaign list as a `CampaignStore` class |
| `MemberMockData`, `MemberDetail` | `membermock.dfy`, `memberdetail.dfy` | `memberMockData.ts`, and `MemberDetail.tsx` as a `MemberDetailPage` class |
| `Expansion`, `AgentHistory`, `MemberTimeline` | `expansion.dfy`, `history.dfy`, `timeline.dfy` | the two panels' `toggleExpanded` and sorts |

Modelling choices:

- **Clock and randomness.** `Date.now()`, `new Date()` and `Math.random()`
  are parameters of the operations that read them. `simulateTimeProgression`
  takes its draws as sequences `increments` (each in [0, 5)) and `drops`
  (each `Math.floor(Math.random() * 10)`, so in 0..9).
- **Numbers.** Member counts and rates are `real`. Configuration numbers are
  integers. Timestamps are integers (milliseconds).
- **State.** React state setters become field assignments on a class. An
  event the code schedules with `setTimeout` is a separate method.

Two behaviours follow from the code as written and are proved as stated:

- With only the risk words, the reply is the opening sentence followed by the risk sentence (`ChatRulesCases`). The opening sentence announces a complete mammogram workflow that was not created.
- A search term is trimmed only for the blank test, so 'Maria ' (with a trailing space) does not match 'Maria Rodriguez' (`SearchTermIsNotTrimmed`).

## Model

| member | source | states |
|---|---|---|
| CampaignBuilder.MergeConfig | src/components/CampaignBuilder.tsx:164-167 | every key of `newConfig` takes the new value; an old key that `newConfig` lacks keeps its old value; no other key appears; the result is an object |
| CampaignBuilder.MergeIntoNonObject | src/components/CampaignBuilder.tsx:165 | an old configuration that is `null`, missing, a string or a number counts as `{}` |
| CampaignBuilder.MergeIdempotent | src/components/CampaignBuilder.tsx:164-167 | merging the same update a second time changes nothing |
| CampaignBuilder.WithConfig | src/components/CampaignBuilder.tsx:157-172 | same length and order; a node whose id differs is unchanged; a node whose id matches keeps id, type, position and label and gets the merged configuration |
| CampaignBuilder.WithLabel | src/components/CampaignBuilder.tsx:174-180 | same length and order; only the matching nodes change, and only their label |
| CampaignBuilder.EditsKeepIds | src/components/CampaignBuilder.tsx:157-187 | label and configuration edits keep the id list, so a connected graph stays connected; an unknown id is a no-op for both |
| CampaignBuilder.ModalSaveEffect | src/components/CampaignBuilder.tsx:182-187 | after the label update and then the merge, the matching node is `Node(id, type, position, NodeData(newLabel, merged))` and every other node is unchanged |
| CampaignBuilder.Builder.HandleNodeEdit | src/components/CampaignBuilder.tsx:141-147 | selects the first node with that id and opens the editor; with no such node nothing changes |
| CampaignBuilder.Builder.CloseModal | src/components/CampaignBuilder.tsx:614-617 | closes the editor and clears the selection, the canvas untouched |
| CampaignBuilder.Builder.UpdateNodeConfig | src/components/CampaignBuilder.tsx:157-172 | the node list becomes `WithConfig(old nodes, id, newConfig)`; all other state is unchanged |
| CampaignBuilder.Builder.UpdateNodeLabel | src/components/CampaignBuilder.tsx:174-180 | the node list becomes `WithLabel(old nodes, id, newLabel)`; all other state is unchanged |
| CampaignBuilder.Builder.HandleModalSave | src/components/CampaignBuilder.tsx:182-187 | label update, then configuration merge, on the one id; the editor is closed and the selection cleared |
| CampaignBuilder.DefaultConfig | src/components/CampaignBuilder.tsx:426-437 | the configuration the `forEach` builds, field by field in schema order; it has at most one key per field |
| CampaignBuilder.DefaultConfigSpec | src/components/CampaignBuilder.tsx:426-437 | with distinct field names, a field has a key iff it has a starting value (its `default`, else a `select`'s first option, else `false` for boolean, `1` for number), and the key holds that value |
| CampaignBuilder.DefaultConfigAbsent | src/components/CampaignBuilder.tsx:426-437 | a name that is no schema field gets no key |
| CampaignBuilder.DefaultConfigKeys | src/components/CampaignBuilder.tsx:426-437 | every key of the default configuration is a schema field with a starting value |
| CampaignBuilder.SchemaDefaults | src/components/CampaignBuilder.tsx:426-437 | the `forEach` loop builds exactly `DefaultConfig(schema)` |
| CampaignBuilder.DefaultData | src/components/CampaignBuilder.tsx:419-443 | always an object configuration; 'New Node' with `{}` when the registry has no definition for the type; otherwise the definition's `defaultLabel` with the schema defaults, at most one key per field |
| CampaignBuilder.DefaultNodeData | src/components/CampaignBuilder.tsx:419-443 | the method returns `DefaultData(nodeType)`: 'New Node' with `{}` for an unregistered type, otherwise the definition's label with the schema defaults |
| CampaignBuilder.UnknownTypeDefaults | src/components/CampaignBuilder.tsx:420-423 | a type outside the registry gets label 'New Node' and an empty configuration |
| CampaignBuilder.KnownTypeDefaults | src/components/CampaignBuilder.tsx:419-443 | the `i`th registry type gets its own `defaultLabel` and the default configuration of its own schema |
| CampaignBuilder.WellDefaultedStart | src/components/CampaignBuilder.tsx:428-436 | a field without fallback starts at its `default`, at its `select`'s first option, or without a key |
| CampaignBuilder.RegistryNeverFallsBack | src/data/nodeDefinitions.ts:10-228 | every number and boolean field has a `default`, so the `false`/`1` fallbacks never fire, and every starting value is the field's own `default` or a `select`'s first option |
| CampaignBuilder.RegistryFieldsSpecified | src/data/nodeDefinitions.ts:10-228 | every `select` field of the registry has a non-empty option list and every time picker has a `default` |
| CampaignBuilder.WaitSchemaDefaults | src/data/nodeDefinitions.ts:145-149 | a new wait node starts at duration 3, unit 'hours', `businessDaysOnly` false |
| CampaignBuilder.Builder.AddNodeFromPalette | src/components/CampaignBuilder.tsx:409-417 | exactly one node is appended, with id `type-now`, the requested type, the default data and a position in [100, 400) × [200, 400); the old nodes stay in order |
| CampaignBuilder.FindRenderer | src/components/CampaignBuilder.tsx:55-77 | `componentMap[nodeType]` is absent iff no entry has that type, and otherwise is an entry's renderer |
| CampaignBuilder.NodeTypes | src/components/CampaignBuilder.tsx:54-82 | `nodeTypes` holds exactly the registry keys with a renderer, each with that renderer |
| CampaignBuilder.RenderersMatchKeys | src/components/CampaignBuilder.tsx:55-75 | when the component list names each key in order with a renderer of its own type, each key finds a renderer of that type |
| CampaignBuilder.EveryTypeHasRenderer | src/components/CampaignBuilder.tsx:54-82 | every registry type is in `nodeTypes`, drawn as that very type |
| CampaignBuilder.Builder.constructor | src/components/CampaignBuilder.tsx:84-117 | the canvas holds the 'start' trigger and no edges, the chat holds the greeting, nothing is selected and the editor is closed |
| CampaignBuilder.Builder.TypeChat | src/components/CampaignBuilder.tsx:598-599 | the chat input becomes the typed text; nothing else changes |
| CampaignBuilder.ChatRules | src/components/CampaignBuilder.tsx:197-402 | no nodes exactly when the message asks for neither the workflow nor the risk branch, and then no edges and the fallback reply; edges only when the workflow is asked for; the workflow's nodes come first when it is |
| CampaignBuilder.ApplyChatRules | src/components/CampaignBuilder.tsx:197-402 | the step-by-step reassignments of `newNodes`, `newEdges` and `aiResponse` give exactly `ChatRules(chatInput)` |
| CampaignBuilder.ChatRulesCases | src/components/CampaignBuilder.tsx:198-402 | workflow only: 11 nodes, 11 edges, mammogram reply; workflow and risk: the 3 risk nodes are appended, no edge is added, the risk sentence is appended; risk only: 3 nodes, no edges, opening + risk sentence; neither: nothing to install and the fallback reply |
| CampaignBuilder.Builder.HandleChatSubmit | src/components/CampaignBuilder.tsx:189-407 | blank input changes nothing; other input appends one user message and then one AI message with the rule table's reply, and clears the input; the canvas is replaced iff the rules produced nodes |
| CampaignBuilder.RulesIgnoreCase | src/components/CampaignBuilder.tsx:197 | the outcome of a message equals that of its lower-cased form |
| CampaignBuilder.PhraseTriggersMammogram | src/components/CampaignBuilder.tsx:202 | any message containing 'create a mammogram screening campaign' asks for the workflow |
| CampaignBuilder.MammogramIdList | src/components/CampaignBuilder.tsx:204-329 | the workflow's node ids, in order |
| CampaignBuilder.MammogramIdsDistinct | src/components/CampaignBuilder.tsx:204-343 | the workflow has 11 nodes with pairwise different ids and 11 edges |
| CampaignBuilder.RiskNodes | src/components/CampaignBuilder.tsx:352-390 | three nodes, each with an object configuration |
| CampaignBuilder.RiskNodeTypesRegistered | src/components/CampaignBuilder.tsx:352-390 | each risk node's type is a registry type |
| CampaignBuilder.RiskNodesDistinct | src/components/CampaignBuilder.tsx:352-392 | for any three clock readings, the risk branch has 3 nodes with different ids, none equal to a workflow id |
| CampaignBuilder.MammogramRiskApart | src/components/CampaignBuilder.tsx:352-392 | ids beginning 'knowledge_', 'ri…' and 'phone_u…' never collide with the workflow's ids |
| CampaignBuilder.FindAt | src/components/CampaignBuilder.tsx:142 | with distinct ids, `nodes.find` by a node's id returns that node |
| CampaignBuilder.JoinsFits | src/components/CampaignBuilder.tsx:331-343 | an edge joining two categorized nodes names existing nodes and fits the handles they draw |
| CampaignBuilder.JoinsInPrefix | src/components/CampaignBuilder.tsx:392 | appending the risk nodes keeps every join of the workflow |
| CampaignBuilder.NodeCategory | src/data/nodeDefinitions.ts:2-231 | a node whose type is the `i`th registry key has that key's category |
| CampaignBuilder.MammogramNodesCategorized | src/components/CampaignBuilder.tsx:204-329 | the checks are Logic nodes, the SMS and phone steps Outreach, the waits Timing, the two ends Endpoints |
| CampaignBuilder.MammogramEdgesJoin | src/components/CampaignBuilder.tsx:331-343 | each workflow edge runs between the nodes it names, leaves through a handle its source draws and enters a node that draws a target handle |
| CampaignBuilder.HandledEdgesLeaveChecks | src/components/CampaignBuilder.tsx:333-342 | an edge that names a handle leaves 'age_check' or 'response_check', by 'true' or 'false' |
| CampaignBuilder.ChatRulesGraphsAreWellFormed | src/components/CampaignBuilder.tsx:197-399 | whatever the message, the installed canvas has distinct ids and every edge names two of its nodes and fits their handles |
| CampaignBuilder.MammogramConnected | src/components/CampaignBuilder.tsx:204-343 | every workflow edge names two workflow nodes and fits their handles |
| NodeDefinitions.Keys | src/data/nodeDefinitions.ts:2-231 | the registry keys, one per definition, in declaration order |
| NodeDefinitions.Lookup | src/data/nodeDefinitions.ts:2-231 | `NODE_DEFINITIONS[key]` is absent iff no definition has that key, and otherwise is a definition with that key |
| NodeDefinitions.LookupAt | src/data/nodeDefinitions.ts:2-231 | with distinct keys, looking up a definition's key finds that definition |
| NodeDefinitions.RegistryKeyList | src/data/nodeDefinitions.ts:2-231 | the registry holds 19 types, with keys gap_trigger … incomplete in order |
| NodeDefinitions.RegistryKeysNoDuplicates | src/data/nodeDefinitions.ts:2-231 | the 19 keys are pairwise different |
| NodeDefinitions.RegistryKeysDistinct | src/data/nodeDefinitions.ts:2-231 | no two definitions share a key, as an object literal requires |
| NodeDefinitions.RegistryLookup | src/data/nodeDefinitions.ts:2-231 | looking up the `i`th key finds the `i`th definition, whose category is the `i`th listed one |
| NodeDefinitions.CategoriesOf | src/data/nodeDefinitions.ts:2-231 | each definition's category, in declaration order |
| NodeDefinitions.RegistryCategoryList | src/data/nodeDefinitions.ts:2-231 | the categories of the 19 types, in order |
| NodeDefinitions.RegistryCategoryRuns | src/data/nodeDefinitions.ts:2-231 | they come in six runs: 3 Triggers, 4 Outreach, 4 Logic, 2 Timing, 4 Actions, 2 Endpoints |
| NodeDefinitions.FirstAppearancesSpec | src/data/nodeDefinitions.ts:234-235 | the accumulator's key list holds exactly the categories met, each once |
| NodeDefinitions.CategoryOrderMembers | src/data/nodeDefinitions.ts:234-243 | a category is a key of `NODE_CATEGORIES` iff some type has it |
| NodeDefinitions.GroupByCategory | src/data/nodeDefinitions.ts:234-243 | the `reduce`, with its accumulator updated in place, yields the keys in first-appearance order, a list for exactly those keys, and for each key the entries of its types |
| NodeDefinitions.PaletteListsTypeOnce | src/data/nodeDefinitions.ts:234-243 | with distinct keys, every type appears exactly once in its own category's list and in no other list |
| NodeDefinitions.PaletteEntriesCopyDefinitions | src/data/nodeDefinitions.ts:236-241 | every entry of a category's list is `{type, emoji, label: defaultLabel, description}` of a type of that category |
| NodeDefinitions.EntriesForSize | src/data/nodeDefinitions.ts:234-243 | a category's list has one entry per type of that category |
| NodeDefinitions.GroupSizesSum | src/data/nodeDefinitions.ts:234-243 | the six list lengths add up to the number of types |
| NodeDefinitions.PaletteInDeclarationOrder | src/data/nodeDefinitions.ts:234-243 | each list's types are a subsequence of the registry keys, so declaration order is kept |
| NodeDefinitions.RegistryCategoryOrder | src/data/nodeDefinitions.ts:234-243 | the palette shows Triggers, Outreach, Logic, Timing, Actions, Endpoints, in that order |
| NodeDefinitions.RegistryGroupSizes | src/data/nodeDefinitions.ts:234-243 | the six lists hold 3, 4, 4, 2, 4 and 2 types |
| BaseNode.CategoryOf | src/components/nodes/BaseNode.tsx:19 | a type has a category iff it is registered, and it is the definition's category |
| BaseNode.RegistryCategoryOf | src/components/nodes/BaseNode.tsx:19 | the `i`th registry type's category |
| BaseNode.SourceHandles | src/components/nodes/BaseNode.tsx:67-94 | source handles are drawn iff the category is not Endpoints; Logic draws exactly 'true' and 'false'; any other category one handle without id |
| BaseNode.HandlesByCategory | src/components/nodes/BaseNode.tsx:22-94 | every node can be connected on some side, a decision node on both with two source handles, and no two source handles share an id |
| BaseNode.PreviewLine | src/components/nodes/BaseNode.tsx:61 | a string keeps its length, shows every '_' as a space and keeps every other character; any other value is shown as `String(v)` |
| BaseNode.ConfigPreview | src/components/nodes/BaseNode.tsx:57-65 | given `Object.entries(config)` in some key order, each own property once with its value: nothing for a falsy configuration, otherwise min(2, number of properties) lines, the `i`th being the preview of the `i`th entry's value |
| DecisionNode.GetBranchLabels | src/components/nodes/DecisionNode.tsx:26-37 | 'Yes'/'No' without `branches` and for any length other than 2; with length 2, the two branches' labels as the captions, and a throw iff either branch is `null` or `undefined` |
| DecisionNode.TwoBranchCaptions | src/components/nodes/DecisionNode.tsx:29-34 | for an array of two branches the captions are their labels, and drawing throws iff a branch is `null` or `undefined` |
| DecisionNode.OtherBranchCounts | src/components/nodes/DecisionNode.tsx:36 | an array of any other length, the empty one included, shows 'Yes'/'No' |
| DecisionNode.ConditionLine | src/components/nodes/DecisionNode.tsx:69-73 | hidden iff the condition is falsy; a string condition is shown with its first '_' as a space; any other truthy value throws |
| DecisionNode.ConditionKeepsLaterUnderscores | src/components/nodes/DecisionNode.tsx:71 | a '_' after the first one is still shown as '_' |
| DecisionNode.DecisionHandlesAreLogicHandles | src/components/nodes/DecisionNode.tsx:81-94 | the decision node's fixed handles are 'true' and 'false', the same as the generic node draws for Logic |
| EligibleMembers.GetEligibleMembers | src/data/eligibleMembers.ts:281-283 | the campaign's list for a listed id, the empty list otherwise |
| EligibleMembers.CampaignTable | src/data/eligibleMembers.ts:13-279 | the table holds exactly campaign-1, -2 and -3, with 11, 8 and 8 members, each member with its campaign's gap |
| EligibleMembers.UnknownCampaignIsEmpty | src/data/eligibleMembers.ts:281-296 | an unknown campaign has no members, so every search on it returns none |
| EligibleMembers.SearchEligibleMembers | src/data/eligibleMembers.ts:285-296 | at most 10 results, a subsequence of the campaign's list |
| EligibleMembers.SearchBlank | src/data/eligibleMembers.ts:287-289 | a blank term returns the first min(10, n) members, in order |
| EligibleMembers.SearchNonBlank | src/data/eligibleMembers.ts:291-295 | any other term returns a prefix of the matching members of length min(10, matches); every result matches, and when fewer than 10 are returned every match is among them |
| EligibleMembers.FirstMatches | src/data/eligibleMembers.ts:291-295 | the same for `filter` then `slice(0, 10)` over any list |
| EligibleMembers.SearchTermIsNotTrimmed | src/data/eligibleMembers.ts:287-293 | the term is matched as typed: a member's own name matches, the name followed by a space does not |
| EligibleMembers.HbA1cLastIsNew | src/data/eligibleMembers.ts:14-121 | campaign 1's eleventh member differs from the ten before it |
| EligibleMembers.BlankSearchTruncatesCampaignOne | src/data/eligibleMembers.ts:14-121 | a blank search on campaign 1 returns its first 10 members and leaves out the eleventh |
| MockData.GetMembersByGapCount | src/data/mockData.ts:241-243 | a subsequence of the members; every result has at least `minGaps` gaps, and every member that has is included |
| MockData.GapCountDefaults | src/data/mockData.ts:165-243 | with the default 2 every member qualifies; with 3 only Maria and John |
| MockData.GapTypes | src/data/mockData.ts:246 | the member's gap types, in order |
| MockData.CampaignStore.GetBundleableCampaigns | src/data/mockData.ts:245-252 | a subsequence of the campaigns; each shares a bundle type with the member's gaps, and every campaign that does is included |
| MockData.MariaBundleTests | src/data/mockData.ts:79-175 | the HbA1c and flu-shot campaigns bundle with Maria's gaps, the blood-pressure one does not |
| MockData.MariaBundles | src/data/mockData.ts:79-252 | Maria's bundleable campaigns are the HbA1c and flu-shot ones, in that order |
| MockData.Progress | src/data/mockData.ts:260-261 | the rate ends at most 85, and from at most 85 it does not fall and rises by less than 5; the active count is `max(old - k, 0.7 * target)` for some k in 0..9, so at least 0.7 × target and at most max(old, 0.7 × target); nothing else changes |
| MockData.Progressed | src/data/mockData.ts:259-262 | each campaign, in place and in order, gets one `Progress` with its own draws |
| MockData.ProgressKeepsBounds | src/data/mockData.ts:260-261 | a campaign with rate in [0, 85] and active count in [0.7 × target, target] stays so |
| MockData.ProgressedTotal | src/data/mockData.ts:259-266 | the total of active members never rises and never falls below 0.7 × the total target |
| MockData.CampaignStore.SimulateTimeProgression | src/data/mockData.ts:254-263 | the `forEach` leaves `Progressed(old campaigns, draws)`, whatever `days` is, and keeps every campaign within bounds |
| MockData.CampaignStore.TotalMembers | src/data/mockData.ts:266 | the sum of active members lies between 0.7 × and 1 × the total target |
| MockData.SumBounds | src/data/mockData.ts:266 | a list of bounded campaigns totals between 0.7 × and 1 × its target |
| MockData.CampaignStore.constructor | src/data/mockData.ts:79-162 | the store starts with the three mock campaigns, all within bounds |
| MockData.InitialCampaigns | src/data/mockData.ts:79-162 | every mock campaign starts with rate ≤ 85 and active ≤ target, and 1358 members are active in total |
| MockData.CampaignFlowsConnected | src/data/mockData.ts:79-162 | every edge of every campaign flow names two nodes of that flow |
| MemberMockData.GetMemberMockData | src/data/memberMockData.ts:46-68 | a profile iff the key is 'maria', and then it is Maria's |
| MemberMockData.Steps | src/data/memberMockData.ts:72-160 | the journey's nodes, in order |
| MemberMockData.InitialJourneyState | src/data/memberMockData.ts:70-171 | 7 nodes, 6 edges, current node 'bundled_sms_1' |
| MemberMockData.JourneyIds | src/data/memberMockData.ts:72-160 | the node ids in order |
| MemberMockData.InitialJourneyWellFormed | src/data/memberMockData.ts:72-168 | the ids are distinct and every edge names two nodes of the state |
| MemberMockData.ExactlyOneCurrent | src/data/memberMockData.ts:110-169 | exactly one node is 'current', and its id is `currentNodeId` |
| MemberMockData.OnlyResponseCheckBranches | src/data/memberMockData.ts:161-168 | an edge names a handle iff it leaves 'response_check', and the handles are 'true' then 'false' |
| MemberDetail.NextStep | src/pages/MemberDetail.tsx:69 | `min(step + 1, 5)`: one more below 5, 5 from 5 on, and in 1..5 from 1..5 |
| MemberDetail.NextStepIdempotentAtEnd | src/pages/MemberDetail.tsx:69 | at 5 the step stays 5 |
| MemberDetail.StepsReachEnd | src/pages/MemberDetail.tsx:69 | n presses from step s reach `min(s + n, 5)` |
| MemberDetail.Last1 | src/pages/MemberDetail.tsx:106-107 | `slice(-1)`: empty for an empty list, otherwise the last element alone |
| MemberDetail.PrependKeepsLast | src/pages/MemberDetail.tsx:81-100 | prepending keeps the last element |
| MemberDetail.Last1Keeps | src/pages/MemberDetail.tsx:103-108 | a list ending in x truncates to [x] |
| MemberDetail.AgentReply | src/pages/MemberDetail.tsx:61 | the reply quotes the user's message |
| MemberDetail.MemberKey | src/pages/MemberDetail.tsx:19 | `memberId \|\| 'maria'`: 'maria' for a missing or empty id, the id otherwise |
| MemberDetail.BundledGapsAt | src/pages/MemberDetail.tsx:150 | ['HbA1c', 'Mammogram'] iff the step is at least 2, empty iff it is below 2 |
| MemberDetail.MemberDetailPage.constructor | src/pages/MemberDetail.tsx:19-46 | the page starts at step 1 with the looked-up member, the initial journey, the greeting, the initial decision and the initial SMS |
| MemberDetail.MemberDetailPage.BundledGaps | src/pages/MemberDetail.tsx:150 | the gaps passed down are ['HbA1c', 'Mammogram'] iff the step is at least 2 |
| MemberDetail.MemberDetailPage.ShowsNotFound | src/pages/MemberDetail.tsx:110-119 | the not-found view iff there is no profile; otherwise, under the page invariant, the page shows Maria |
| MemberDetail.UnknownMemberNotFound | src/pages/MemberDetail.tsx:19-119 | the not-found view shows iff the id is given, non-empty and not 'maria' |
| MemberDetail.MemberDetailPage.SendMessage | src/pages/MemberDetail.tsx:48-55 | the user's message is appended to the chat; nothing else changes |
| MemberDetail.MemberDetailPage.DeliverAgentReply | src/pages/MemberDetail.tsx:58-65 | the agent's reply is appended to the chat; nothing else changes |
| MemberDetail.BundlingDecision | src/pages/MemberDetail.tsx:72-78 | the decision made at `now`, pending, about exactly the gaps the campaign panel shows from step 2 on |
| MemberDetail.MemberDetailPage.SimulateNext | src/pages/MemberDetail.tsx:68-89 | the step becomes `min(step + 1, 5)`; from step 1 one bundling decision is prepended and the current node becomes 'bundled_sms_1'; from any other step history and journey are unchanged |
| MemberDetail.FirstStepKeepsJourneyShape | src/pages/MemberDetail.tsx:84-87 | the initial journey already points at 'bundled_sms_1', so the first step leaves it as it was |
| MemberDetail.MemberDetailPage.SimulateResponse | src/pages/MemberDetail.tsx:91-101 | one delivered SMS 'response' interaction is prepended, the older entries behind it in order |
| MemberDetail.MemberDetailPage.Reset | src/pages/MemberDetail.tsx:103-108 | step 1, the initial journey, and history and timeline cut to their last entry, which are the initial decision and the initial SMS |
| Expansion.Toggled | src/components/member/RightPanel/AgentHistory.tsx:15-23 | the index's membership flips and every other index's is kept |
| Expansion.ToggleTwice | src/components/member/RightPanel/AgentHistory.tsx:15-23 | toggling an index twice restores the set |
| Expansion.TogglesCommute | src/components/member/RightPanel/AgentHistory.tsx:15-23 | toggles of two indices commute |
| Expansion.ToggleCopy | src/components/member/RightPanel/AgentHistory.tsx:16-21 | the copy-then-`delete`/`add` gives `Toggled(expanded, index)` |
| AgentHistory.AgentHistoryPanel.constructor | src/components/member/RightPanel/AgentHistory.tsx:13 | only row 0 starts expanded |
| AgentHistory.AgentHistoryPanel.ToggleExpanded | src/components/member/RightPanel/AgentHistory.tsx:15-23 | the expanded set becomes `Toggled(old set, index)`; the decisions are untouched |
| AgentHistory.AgentHistoryPanel.SortedDecisions | src/components/member/RightPanel/AgentHistory.tsx:51 | a permutation of the decisions, newest first; the panel's own list is not reordered |
| MemberTimeline.MemberTimelinePanel.constructor | src/components/member/LeftPanel/MemberTimeline.tsx:13 | no row starts expanded |
| MemberTimeline.MemberTimelinePanel.ToggleExpanded | src/components/member/LeftPanel/MemberTimeline.tsx:15-23 | the expanded set becomes `Toggled(old set, index)`; the interactions are untouched |
| MemberTimeline.MemberTimelinePanel.SortedInteractions | src/components/member/LeftPanel/MemberTimeline.tsx:65 | a permutation of the interactions, newest first; the panel's own list is not reordered |
| MemberTimeline.Badge | src/components/member/LeftPanel/MemberTimeline.tsx:87 | the badge has the type name's length and keeps every character other than '_' |
| MemberTimeline.GapClosedBadge | src/components/member/LeftPanel/MemberTimeline.tsx:87 | 'gap_closed' is shown as 'gap closed' |
| MemberTimeline.OtherBadges | src/components/member/LeftPanel/MemberTimeline.tsx:87 | the other kinds have no '_' and are shown as they are |
| Seqs.SortByKeyDescending | src/components/member/RightPanel/AgentHistory.tsx:51 | `[...s].sort((a, b) => key(b) - key(a))`: an in-place sort of a fresh array giving a permutation in non-increasing key order |
| JsStrings.TrimEmptyIffBlank | src/data/eligibleMembers.ts:287 | `!s.trim()` holds exactly for a string of whitespace only |
| JsStrings.ReplaceFirstSpec | src/components/member/LeftPanel/MemberTimeline.tsx:87 | `replace('_', ' ')` changes only the first '_' and keeps the length |
| JsStrings.NatToStringInjective | src/components/CampaignBuilder.tsx:411 | different clock readings give different decimal strings |
| JsValues.Spread | src/components/CampaignBuilder.tsx:164-166 | `{...v}` copies an object's own properties and an array's or string's elements by index, and nothing from other values |

## Left out

- JSX rendering, layout and styling, and the presentational node components: view code with nothing to state.
- The graph library (`useNodesState`, `addEdge`, drag moves, `fitView`): foreign code. `onConnect` is not modelled.
- `handleDeploy` and the campaign configuration form: `parseInt`, the ISO date and the caller's `onSave` are library and clock calls.
- `NodeConfigurationModal`'s form: only the values it hands to `handleModalSave` matter, and those are parameters.
- The `useEffect` that installs `onEdit` callbacks: functions in node data are not modelled, so `data` holds only label and configuration.
- The palette's open/close flag and the backdrop click: view state.
- Edge styling (`type: 'smoothstep'`, markers, labels shown) beyond source, target, handle and label.
- `getOverallMetrics`'s averages and `Math.round`: floating-point rounding. Only `totalMembers` is modelled.
- `console.log` in `simulateTimeProgression`: output. `days` is logged only, so it is a parameter with no effect.
- `mockAgentDecisions`: a constant that no modelled operation reads.
- `resetDemoData`: `src/components/Dashboard.tsx` imports it from `mockData.ts`, which does not define it, so there is nothing to model.
- `setTimeout` in the member chat: the delayed reply is the separate event `DeliverAgentReply`, not a timer.
- Dates are millisecond integers. `toLocaleString` formatting and the `new Date()` clock are left out; the clock is a parameter.
- Object key order: a configuration is a map, so `ConfigPreview` takes `Object.entries(config)` in key order from its caller.
- Record lookups such as `members[memberId]` see only own keys. Inherited keys like 'toString' are not modelled.
- `toLowerCase` lowers ASCII letters only: Unicode case mapping is out of scope.
- AgentHistory.AgentHistoryPanel.SortedDecisions: ties keep an unspecified order. The source's sort is stable; the model states only permutation and order.
- MemberTimeline.MemberTimelinePanel.SortedInteractions: the same, for interactions with equal dates.
- Seqs.SortByKeyDescending: stability is not stated, only permutation and non-increasing key order.
- Sets are Dafny `set<int>` values. The source copies a `Set` object before mutating it; a value cannot be shared, so "the old set is not mutated" holds by construction.
- `getInitialJourneyState` returns equal content on every call. A Dafny function is deterministic, so this holds by construction. Object identity is not modelled.
- Uniqueness of `Date.now()` ids across calls: the clock is a parameter, and its readings are not assumed distinct.
- The three `Date.now()` calls of the risk branch are independent parameters. Equal readings are allowed, and the ids still differ by prefix.
