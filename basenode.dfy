/** The rules the generic node component applies when it draws a registry
    node: the connection handles its category gives it, and the short
    preview of its configuration under the label. */
module BaseNode {
  import opened Wrappers
  import opened JsStrings
  import opened JsValues
  import opened NodeDefinitions

  /** `NODE_DEFINITIONS[type].category`; nothing for a type the registry lacks. */
  function CategoryOf(nodeType: string): (r: Option<Category>)
    ensures r.Some? <==> Lookup(Definitions, nodeType).Some?
    ensures r.Some? ==> r.value == Lookup(Definitions, nodeType).value.category
  {
    match Lookup(Definitions, nodeType)
    case None => None
    case Some(d) => Some(d.category)
  }

  /** The category of the `i`th registry type. */
  lemma RegistryCategoryOf(i: int)
    requires 0 <= i < |RegistryKeys|
    ensures CategoryOf(RegistryKeys[i]) == Some(RegistryCategories[i])
  {
    RegistryLookup(i);
  }

  /** Everything but a trigger can be connected into. */
  predicate NeedsTargetHandle(c: Category)
  {
    c != Triggers
  }

  /** Everything but an endpoint can be connected out of. */
  predicate NeedsSourceHandle(c: Category)
  {
    c != Endpoints
  }

  /** Logic nodes branch. */
  predicate IsDecisionNode(c: Category)
  {
    c == Logic
  }

  /** The ids of the source handles drawn: `true` and `false` on a decision
      node, a single handle without id on the other nodes that need one,
      none on an endpoint. */
  function SourceHandles(c: Category): (hs: seq<Option<string>>)
    ensures |hs| > 0 <==> NeedsSourceHandle(c)
    ensures IsDecisionNode(c) ==> hs == [Some("true"), Some("false")]
    ensures NeedsSourceHandle(c) && !IsDecisionNode(c) ==> hs == [None]
  {
    if !NeedsSourceHandle(c) then []
    else if IsDecisionNode(c) then [Some("true"), Some("false")]
    else [None]
  }

  /** Every node can be connected on at least one side, a decision node on
      both, and no node draws two source handles with the same id. */
  lemma HandlesByCategory(c: Category)
    ensures NeedsTargetHandle(c) || NeedsSourceHandle(c)
    ensures IsDecisionNode(c) ==> NeedsTargetHandle(c) && |SourceHandles(c)| == 2
    ensures forall i, j :: 0 <= i < j < |SourceHandles(c)| ==> SourceHandles(c)[i] != SourceHandles(c)[j]
  {
  }

  /** One preview line: a string with every `_` shown as a space, any other
      value as `String(v)`. */
  function PreviewLine(v: Value): (line: string)
    ensures v.Str? ==> |line| == |v.s| && '_' !in line
    ensures v.Str? ==> forall i :: 0 <= i < |v.s| && v.s[i] != '_' ==> line[i] == v.s[i]
    ensures v.Str? ==> forall i :: 0 <= i < |v.s| && v.s[i] == '_' ==> line[i] == ' '
    ensures !v.Str? ==> line == JsString(v)
  {
    if v.Str? then ReplaceAll(v.s, '_', ' ') else JsString(v)
  }

  /** `entries` lists every own property of `config` exactly once, with its
      value: `Object.entries(config)` in some key order. */
  predicate EntriesOf(config: Value, entries: seq<(string, Value)>)
  {
    && |entries| == |Spread(config)|
    && (forall i, j :: 0 <= i < j < |entries| ==> entries[i].0 != entries[j].0)
    && (forall i :: 0 <= i < |entries| ==> entries[i].0 in Spread(config) && Spread(config)[entries[i].0] == entries[i].1)
  }

  /** The preview under a node's label: nothing when `config` is falsy,
      otherwise one line for each of the first two of `entries`, which are
      `Object.entries(config)` in the object's key order (the map model of
      a configuration has no key order, so the caller supplies it). */
  function ConfigPreview(config: Value, entries: seq<(string, Value)>): (lines: seq<string>)
    requires EntriesOf(config, entries)
    ensures !Truthy(config) ==> lines == []
    ensures Truthy(config) ==> |lines| == if |Spread(config)| < 2 then |Spread(config)| else 2
    ensures forall i :: 0 <= i < |lines| ==> lines[i] == PreviewLine(entries[i].1)
    ensures forall i :: 0 <= i < |lines| ==> lines[i] == PreviewLine(Spread(config)[entries[i].0])
  {
    if !Truthy(config) then []
    else
      var shown := if |entries| < 2 then entries else entries[..2];
      seq(|shown|, i requires 0 <= i < |shown| => PreviewLine(shown[i].1))
  }
}
