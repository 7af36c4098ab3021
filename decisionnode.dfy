/** The rules of the decision node component: the two branch captions it
    shows, its condition line, and its fixed handles. Reading a property of
    `null` or `undefined` throws in JavaScript; such a read is modelled as
    the outcome `Throws`. */
module DecisionNode {
  import opened Wrappers
  import opened JsStrings
  import opened JsValues
  import BaseNode
  import NodeDefinitions

  datatype Outcome<T> = Ok(value: T) | Throws

  /** The captions drawn under the left and the right handle. */
  datatype BranchLabels = BranchLabels(left: Value, right: Value)

  const YesNo: BranchLabels := BranchLabels(Str("Yes"), Str("No"))

  /** `x.label` where reading from `null` or `undefined` throws. */
  function LabelOf(x: Value): Outcome<Value>
  {
    if x.Undef? || x.Null? then Throws else Ok(Get(x, "label"))
  }

  /** `getBranchLabels`: `Yes`/`No` unless `config.branches` exists and has
      length 2, in which case the captions are the two branches' labels. */
  function GetBranchLabels(config: Value): (r: Outcome<BranchLabels>)
    ensures !Truthy(Get(config, "branches")) ==> r == Ok(YesNo)
    ensures Truthy(Get(config, "branches")) && Get(Get(config, "branches"), "length") != Num(2) ==> r == Ok(YesNo)
    ensures Get(Get(config, "branches"), "length") == Num(2) ==>
      (r.Ok? <==> LabelOf(Get(Get(config, "branches"), "0")).Ok? && LabelOf(Get(Get(config, "branches"), "1")).Ok?)
    ensures Get(Get(config, "branches"), "length") == Num(2) && r.Ok? ==>
      r.value == BranchLabels(LabelOf(Get(Get(config, "branches"), "0")).value, LabelOf(Get(Get(config, "branches"), "1")).value)
  {
    var branches := Get(config, "branches");
    if !Truthy(branches) then Ok(YesNo)
    else if Get(branches, "length") == Num(2) then
      var first := LabelOf(Get(branches, "0"));
      var second := LabelOf(Get(branches, "1"));
      if first.Throws? || second.Throws? then Throws
      else Ok(BranchLabels(first.value, second.value))
    else Ok(YesNo)
  }

  /** With an array of exactly two branches the captions are their labels,
      and drawing throws when either branch is `null` or `undefined`. */
  lemma TwoBranchCaptions(config: Value, b0: Value, b1: Value)
    requires Get(config, "branches") == Arr([b0, b1])
    ensures GetBranchLabels(config).Ok? <==> !(b0.Undef? || b0.Null? || b1.Undef? || b1.Null?)
    ensures GetBranchLabels(config).Ok? ==> GetBranchLabels(config) == Ok(BranchLabels(Get(b0, "label"), Get(b1, "label")))
  {
    PairReads(b0, b1);
  }

  /** Any other number of array branches, none included, shows `Yes`/`No`. */
  lemma OtherBranchCounts(config: Value, items: seq<Value>)
    requires Get(config, "branches") == Arr(items) && |items| != 2
    ensures GetBranchLabels(config) == Ok(YesNo)
  {
  }

  /** The condition line: hidden when `config.condition` is falsy, otherwise
      the condition with its first `_` shown as a space. A truthy condition
      that is not a string has no `replace` method, so drawing throws. */
  function ConditionLine(config: Value): (r: Outcome<Option<string>>)
    ensures !Truthy(Get(config, "condition")) <==> r == Ok(None)
    ensures Get(config, "condition").Str? && Truthy(Get(config, "condition")) ==>
      r == Ok(Some(ReplaceFirst(Get(config, "condition").s, '_', ' ')))
    ensures Truthy(Get(config, "condition")) && !Get(config, "condition").Str? ==> r == Throws
  {
    var condition := Get(config, "condition");
    if !Truthy(condition) then Ok(None)
    else if condition.Str? then Ok(Some(ReplaceFirst(condition.s, '_', ' ')))
    else Throws
  }

  /** The decision node always draws the source handles `true` and `false`. */
  const DecisionHandles: seq<Option<string>> := [Some("true"), Some("false")]

  /** They are the handles the generic node draws for a Logic node, so an
      edge leaving one by `true` or `false` has a handle to attach to. */
  lemma DecisionHandlesAreLogicHandles()
    ensures DecisionHandles == BaseNode.SourceHandles(NodeDefinitions.Logic)
    ensures forall i, j :: 0 <= i < j < |DecisionHandles| ==> DecisionHandles[i] != DecisionHandles[j]
  {
  }

  /** Only the first `_` of a condition is rewritten: a second one stays. */
  lemma ConditionKeepsLaterUnderscores(config: Value, j: int)
    requires Get(config, "condition").Str?
    requires 0 <= j < |Get(config, "condition").s| && Get(config, "condition").s[j] == '_'
    requires j != IndexOf(Get(config, "condition").s, '_')
    ensures ConditionLine(config).Ok? && ConditionLine(config).value.Some?
    ensures ConditionLine(config).value.value[j] == '_'
  {
    ReplaceFirstKeepsLater(Get(config, "condition").s, '_', ' ', j);
  }
}
