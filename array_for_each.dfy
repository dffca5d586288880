/**
 * The Schematyc graph node Array::ForEach.  Its runtime data holds a cursor
 * `pos`; every activation either emits the element under the cursor on the
 * Loop port and asks to be run again, or fires Out once the array is
 * exhausted.  An Input activation rewinds the cursor first.
 */
module ArrayForEach {
  import opened Common
  import MenuLabels

  newtype uint32 = x: int | 0 <= x < 0x1_0000_0000

  /** InvalidIdx: the all-ones 32-bit index. */
  const InvalidIdx: uint32 := 0xFFFF_FFFF

  /** The two activation modes that matter here: a fresh Input, or a repeat the node asked for. */
  datatype ActivationMode = Input | Repeat

  datatype RuntimeStatus = Continue | ContinueAndRepeat

  /** EOutputIdx: the output ports, in layout order. */
  datatype OutputPort = Out | Loop | Value

  datatype RuntimeResult = RuntimeResult(status: RuntimeStatus, output: OutputPort)

  /** SRuntimeData: the cursor that survives between activations. */
  class RuntimeData {
    var pos: uint32

    constructor ()
      ensures pos == InvalidIdx
    {
      pos := InvalidIdx;
    }

    /** The copy constructor. */
    constructor Copy(rhs: RuntimeData)
      ensures pos == rhs.pos
    {
      pos := rhs.pos;
    }
  }

  /** The node's value output, written in place by Execute. */
  class OutputSlot<T> {
    var value: T

    constructor (value: T)
      ensures this.value == value
    {
      this.value := value;
    }
  }

  /** What one activation does, as a value. */
  datatype Activation<T> = Activation(pos: nat, result: RuntimeResult, emitted: Option<T>)

  /** The effect of one activation with cursor `pos` over `elements`. */
  function Step<T>(pos: nat, mode: ActivationMode, elements: seq<T>): (a: Activation<T>)
    ensures a.result.output == Loop <==> a.emitted.Some?
    ensures a.result.output == Loop ==> a.result.status == ContinueAndRepeat
    ensures a.result.output == Out ==> a.result.status == Continue
  {
    var start := if mode == Input then 0 else pos;
    if start < |elements| then
      Activation(start + 1, RuntimeResult(ContinueAndRepeat, Loop), Some(elements[start]))
    else
      Activation(start, RuntimeResult(Continue, Out), None)
  }

  /**
   * Execute: rewind on Input, then emit the element under the cursor and advance, or fire Out.
   * The array size is a uint32 in the source, so the increment never wraps.
   */
  method Execute<T>(data: RuntimeData, output: OutputSlot<T>, mode: ActivationMode, elements: seq<T>)
    returns (result: RuntimeResult)
    requires |elements| < 0x1_0000_0000
    modifies data, output
    ensures var a := Step(old(data.pos) as nat, mode, elements);
      && data.pos as nat == a.pos
      && result == a.result
      && output.value == (if a.emitted.Some? then a.emitted.value else old(output.value))
  {
    if mode == Input {
      data.pos := 0;
    }
    if (data.pos as int) < |elements| {
      output.value := elements[data.pos];
      data.pos := data.pos + 1;
      return RuntimeResult(ContinueAndRepeat, Loop);
    } else {
      return RuntimeResult(Continue, Out);
    }
  }

  /** The ports fired by `count` repeat activations from cursor `pos`, and what each emitted. */
  function Repeats<T>(pos: nat, elements: seq<T>, count: nat): seq<Activation<T>>
    decreases count
  {
    if count == 0 then []
    else
      var a := Step(pos, Repeat, elements);
      [a] + Repeats(a.pos, elements, count - 1)
  }

  /** The ports fired by one Input activation followed by `count` repeats. */
  function Run<T>(pos: nat, elements: seq<T>, count: nat): seq<Activation<T>>
  {
    var first := Step(pos, Input, elements);
    [first] + Repeats(first.pos, elements, count)
  }

  /** A repeat never moves the cursor past the end of the array. */
  lemma StepStaysInBounds<T>(pos: nat, mode: ActivationMode, elements: seq<T>)
    requires pos <= |elements|
    ensures Step(pos, mode, elements).pos <= |elements|
    ensures mode == Repeat ==>
      || (Step(pos, mode, elements).pos == pos + 1 && Step(pos, mode, elements).result.output == Loop)
      || (Step(pos, mode, elements).pos == pos && Step(pos, mode, elements).result.output == Out)
  {
  }

  /** From cursor `pos`, the repeats emit the rest of the array in order, one element per activation. */
  lemma {:induction false} RepeatsEmitInOrder<T>(pos: nat, elements: seq<T>)
    requires pos <= |elements|
    ensures var trace := Repeats(pos, elements, |elements| - pos + 1);
      && |trace| == |elements| - pos + 1
      && (forall i :: 0 <= i < |elements| - pos ==>
            trace[i].result == RuntimeResult(ContinueAndRepeat, Loop) && trace[i].emitted == Some(elements[pos + i])
            && trace[i].pos == pos + i + 1)
      && trace[|elements| - pos].result == RuntimeResult(Continue, Out)
      && trace[|elements| - pos].pos == |elements|
      && trace[|elements| - pos].emitted == None
    decreases |elements| - pos
  {
    var trace := Repeats(pos, elements, |elements| - pos + 1);
    if pos == |elements| {
      assert trace == [Step(pos, Repeat, elements)];
    } else {
      RepeatsEmitInOrder(pos + 1, elements);
      var rest := Repeats(pos + 1, elements, |elements| - pos);
      assert trace == [Step(pos, Repeat, elements)] + rest;
      forall i | 0 <= i < |elements| - pos
        ensures trace[i].result == RuntimeResult(ContinueAndRepeat, Loop) && trace[i].emitted == Some(elements[pos + i])
          && trace[i].pos == pos + i + 1
      {
        if i > 0 {
          assert trace[i] == rest[i - 1];
        }
      }
    }
  }

  /**
   * One Input activation and then repeats, whatever the cursor held before:
   * Loop fires exactly |elements| times with the elements in index order, then
   * Out fires, and the cursor never exceeds the array size.
   */
  lemma ForEachVisitsEveryElement<T>(pos: nat, elements: seq<T>)
    ensures var trace := Run(pos, elements, |elements|);
      && |trace| == |elements| + 1
      && (forall i :: 0 <= i < |elements| ==>
            trace[i].result.output == Loop && trace[i].emitted == Some(elements[i]))
      && trace[|elements|].result == RuntimeResult(Continue, Out)
      && trace[|elements|].emitted == None
      && (forall i :: 0 <= i < |trace| ==> trace[i].pos <= |elements|)
  {
    var trace := Run(pos, elements, |elements|);
    if |elements| == 0 {
      assert trace == [Step(pos, Input, elements)] + [];
    } else {
      var first := Step(pos, Input, elements);
      assert first.pos == 1 && first.emitted == Some(elements[0]);
      RepeatsEmitInOrder(1, elements);
      var rest := Repeats(1, elements, |elements|);
      assert trace == [first] + rest;
      forall i | 0 < i < |trace| ensures trace[i] == rest[i - 1] {
      }
    }
  }

  // ---------------------------------------------------------------------
  // Layout
  // ---------------------------------------------------------------------

  datatype PortFlag = Flow | MultiLink | Data | Array

  datatype Color = Purple

  /** A typed constant; the default value of the node's element type. */
  datatype AnyValue = AnyValue(bytes: seq<bv8>)

  /** The node's element type, as chosen in the editor; Empty until a type is chosen. */
  datatype ScriptVariable = Empty | Typed(typeGuid: Guid, typeName: string, value: AnyValue)

  datatype Port = Port(name: string, typeGuid: Guid, flags: set<PortFlag>, data: Option<AnyValue>)

  /** CScriptGraphNodeLayout: the node's name, color and port lists, appended to in place. */
  class Layout {
    var name: string
    var color: Option<Color>
    var inputs: seq<Port>
    var outputs: seq<Port>

    constructor ()
      ensures name == "" && color == None && inputs == [] && outputs == []
    {
      name, color, inputs, outputs := "", None, [], [];
    }
  }

  /** The input ports CreateLayout adds, in order. */
  function LayoutInputs(defaultValue: ScriptVariable): seq<Port>
  {
    [Port("In", EmptyGuid, {Flow, MultiLink}, None)]
    + (if defaultValue.Empty? then []
       else [Port("Array", defaultValue.typeGuid, {Data, Array}, None)])
  }

  /** The output ports CreateLayout adds, in order. */
  function LayoutOutputs(defaultValue: ScriptVariable): seq<Port>
  {
    [Port("Out", EmptyGuid, {Flow}, None), Port("Loop", EmptyGuid, {Flow}, None)]
    + (if defaultValue.Empty? then []
       else [Port(defaultValue.typeName, defaultValue.typeGuid, {Data, MultiLink}, Some(defaultValue.value))])
  }

  /**
   * The flow ports are always there; the array input and the element output
   * appear exactly when a type has been chosen, and both carry its GUID.
   */
  lemma LayoutShape(defaultValue: ScriptVariable)
    ensures var ins, outs := LayoutInputs(defaultValue), LayoutOutputs(defaultValue);
      && ins[0].name == "In" && Flow in ins[0].flags
      && outs[0].name == "Out" && outs[1].name == "Loop"
      && (|ins| == 2 <==> !defaultValue.Empty?) && (|outs| == 3 <==> !defaultValue.Empty?)
      && |ins| + 1 == |outs|
      && (!defaultValue.Empty? ==>
            ins[1].typeGuid == defaultValue.typeGuid && outs[2].typeGuid == defaultValue.typeGuid
            && outs[2].data == Some(defaultValue.value) && Array in ins[1].flags)
      && (forall i :: 0 <= i < |outs| ==> (Flow in outs[i].flags <==> outs[i].data.None?))
  {
  }

  /** CScriptGraphArrayForEachNode: the node with its chosen element type. */
  class ForEachNode {
    const defaultValue: ScriptVariable

    constructor (defaultValue: ScriptVariable)
      ensures this.defaultValue == defaultValue
    {
      this.defaultValue := defaultValue;
    }

    /** CreateLayout: name and color, then the ports, appended one by one. */
    method CreateLayout(layout: Layout)
      modifies layout
      ensures layout.name == "Array::ForEach" && layout.color == Some(Purple)
      ensures layout.inputs == old(layout.inputs) + LayoutInputs(defaultValue)
      ensures layout.outputs == old(layout.outputs) + LayoutOutputs(defaultValue)
    {
      layout.name := "Array::ForEach";
      layout.color := Some(Purple);
      layout.inputs := layout.inputs + [Port("In", EmptyGuid, {Flow, MultiLink}, None)];
      layout.outputs := layout.outputs + [Port("Out", EmptyGuid, {Flow}, None)];
      layout.outputs := layout.outputs + [Port("Loop", EmptyGuid, {Flow}, None)];
      if !defaultValue.Empty? {
        var typeGuid := defaultValue.typeGuid;
        layout.inputs := layout.inputs + [Port("Array", typeGuid, {Data, Array}, None)];
        layout.outputs := layout.outputs + [Port(defaultValue.typeName, typeGuid, {Data, MultiLink}, Some(defaultValue.value))];
      }
    }

    /** Compile: bind Execute as the callback and fresh runtime data with the cursor at InvalidIdx. */
    method Compile(compiler: NodeCompiler)
      modifies compiler
      ensures compiler.callback == Some(ExecuteCallback)
      ensures compiler.data != null && fresh(compiler.data) && compiler.data.pos == InvalidIdx
    {
      compiler.callback := Some(ExecuteCallback);
      var data := new RuntimeData();
      compiler.data := data;
    }
  }

  /** The one callback this node binds. */
  datatype Callback = ExecuteCallback

  /** IGraphNodeCompiler: what a node binds while it is compiled. */
  class NodeCompiler {
    var callback: Option<Callback>
    var data: RuntimeData?

    constructor ()
      ensures callback == None && data == null
    {
      callback, data := None, null;
    }
  }

  // ---------------------------------------------------------------------
  // Node-creation menu
  // ---------------------------------------------------------------------

  const ForEachLabel: string := "Array::ForEach"

  /** The menu option for the element type with this qualified name: `<type>::Array::ForEach`. */
  function TypedLabel(qualifiedName: string): (optionLabel: string)
    ensures qualifiedName <= optionLabel
    ensures optionLabel[|qualifiedName|..] == MenuLabels.Separator + ForEachLabel
  {
    qualifiedName + MenuLabels.Separator + ForEachLabel
  }

  /**
   * Read back through the dictionary's label splitting, a typed option lands
   * in the type's own category path, under a category "Array", as a node
   * named "ForEach".
   */
  lemma TypedLabelPath(qualifiedName: string)
    requires !MenuLabels.EndsWithColon(qualifiedName)
    ensures MenuLabels.LabelPath(TypedLabel(qualifiedName)) == MenuLabels.Split(qualifiedName) + ["Array"]
    ensures MenuLabels.LabelName(TypedLabel(qualifiedName)) == "ForEach"
  {
    TypedLabelSplit(qualifiedName);
    LastTwo(MenuLabels.Split(qualifiedName), "Array", "ForEach");
  }

  lemma TypedLabelSplit(qualifiedName: string)
    requires !MenuLabels.EndsWithColon(qualifiedName)
    ensures MenuLabels.Split(TypedLabel(qualifiedName)) == MenuLabels.Split(qualifiedName) + ["Array", "ForEach"]
  {
    MenuLabels.SplitConcat(qualifiedName, ForEachLabel);
    ForEachLabelParts();
  }

  lemma LastTwo<T>(a: seq<T>, x: T, y: T)
    ensures (a + [x, y])[..|a + [x, y]| - 1] == a + [x]
    ensures (a + [x, y])[|a + [x, y]| - 1] == y
  {
    assert (a + [x, y])[..|a| + 1] == a + [x];
  }

  /** "Array::ForEach" splits into the category "Array" and the name "ForEach". */
  lemma ForEachLabelParts()
    ensures MenuLabels.Split(ForEachLabel) == ["Array", "ForEach"]
  {
    assert ForEachLabel == "Array" + MenuLabels.Separator + "ForEach";
    PlainWords();
    MenuLabels.SplitConcat("Array", "ForEach");
    MenuLabels.SplitOfPlain("Array");
    MenuLabels.SplitOfPlain("ForEach");
  }

  lemma PlainWords()
    ensures MenuLabels.NoSeparator("Array") && !MenuLabels.EndsWithColon("Array")
    ensures MenuLabels.NoSeparator("ForEach")
  {
    var w := "Array";
    forall i | 0 <= i < |w| - 1 ensures !(w[i] == ':' && w[i + 1] == ':') {
      assert w[i] in {'A', 'r', 'a', 'y'};
    }
    var v := "ForEach";
    forall i | 0 <= i < |v| - 1 ensures !(v[i] == ':' && v[i + 1] == ':') {
      assert v[i] in {'F', 'o', 'r', 'E', 'a', 'c', 'h'};
    }
  }

  /** An option as the menu receives it; `reference` is the element type's GUID when there is one. */
  datatype MenuOption = MenuOption(caption: string, description: string, reference: Option<Guid>)

  /** An environment data type the script view visits: its qualified name and GUID. */
  const IterateDescription: string := "Iterate through elements in array"
  const IterateAllDescription: string := "Iterate through all elements in array"

  datatype EnvDataType = EnvDataType(qualifiedName: string, guid: Guid)

  /** One typed option per visited data type, in visiting order. */
  function TypedOptions(types: seq<EnvDataType>): (options: seq<MenuOption>)
    ensures |options| == |types|
    ensures forall i :: 0 <= i < |types| ==>
      options[i] == MenuOption(TypedLabel(types[i].qualifiedName), IterateAllDescription, Some(types[i].guid))
  {
    if |types| == 0 then []
    else [MenuOption(TypedLabel(types[0].qualifiedName), IterateAllDescription, Some(types[0].guid))]
         + TypedOptions(types[1..])
  }

  /** PopulateNodeCreationMenu as written: the untyped option is added twice. */
  function MenuOptionsAsWritten(types: seq<EnvDataType>): seq<MenuOption>
  {
    [MenuOption(ForEachLabel, IterateDescription, None),
     MenuOption(ForEachLabel, IterateAllDescription, None)]
    + TypedOptions(types)
  }

  /** The as-written menu lists the untyped ForEach twice, for any set of data types. */
  lemma UntypedOptionListedTwice(types: seq<EnvDataType>)
    ensures var options := MenuOptionsAsWritten(types);
      options[0].caption == options[1].caption == ForEachLabel
      && options[0].reference == options[1].reference == None
  {
  }

  /** PopulateNodeCreationMenu with one untyped option, as evidently intended. */
  function MenuOptions(types: seq<EnvDataType>): (options: seq<MenuOption>)
    ensures |options| == |types| + 1
    ensures options[0] == MenuOption(ForEachLabel, IterateAllDescription, None)
    ensures forall i :: 0 <= i < |types| ==> options[i + 1].reference == Some(types[i].guid)
  {
    var typed := TypedOptions(types);
    var options := [MenuOption(ForEachLabel, IterateAllDescription, None)] + typed;
    assert forall i :: 0 <= i < |typed| ==> options[i + 1] == typed[i];
    options
  }

  /** Typed labels of different types differ, and none equals the untyped label. */
  lemma TypedLabelsDiffer(a: string, b: string)
    ensures TypedLabel(a) != ForEachLabel
    ensures a != b ==> TypedLabel(a) != TypedLabel(b)
  {
    if a != b && |a| == |b| {
      assert TypedLabel(a)[..|a|] == a;
      assert TypedLabel(b)[..|b|] == b;
    }
  }

  /** The caption of the k-th menu option: the untyped label first, then one typed label per type. */
  lemma OptionCaption(types: seq<EnvDataType>, k: nat)
    requires k <= |types|
    ensures MenuOptions(types)[k].caption == if k == 0 then ForEachLabel else TypedLabel(types[k - 1].qualifiedName)
  {
    if k > 0 {
      assert MenuOptions(types)[k] == TypedOptions(types)[k - 1];
    }
  }

  /** With distinct qualified type names, every option of the menu has its own label. */
  lemma MenuLabelsDistinct(types: seq<EnvDataType>)
    requires forall i, j :: 0 <= i < j < |types| ==> types[i].qualifiedName != types[j].qualifiedName
    ensures var options := MenuOptions(types);
      forall i, j :: 0 <= i < j < |options| ==> options[i].caption != options[j].caption
  {
    forall i, j | 0 <= i < j < |types| + 1 ensures MenuOptions(types)[i].caption != MenuOptions(types)[j].caption {
      OptionCaption(types, i);
      OptionCaption(types, j);
      if i == 0 {
        TypedLabelsDiffer(types[j - 1].qualifiedName, "");
      } else {
        TypedLabelsDiffer(types[i - 1].qualifiedName, types[j - 1].qualifiedName);
      }
    }
  }
}
