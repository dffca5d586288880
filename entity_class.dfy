/**
 * Entity property registration helpers of IEntityClass.h.  Each helper fills
 * one property record and appends it to an entity property handler; the
 * group helper brackets the registrations made in its scope with a
 * FolderBegin and a FolderEnd record.
 */
module EntityClass {
  import opened Common

  // ---------------------------------------------------------------------
  // Flags
  // ---------------------------------------------------------------------

  /** EEntityClassFlags, BIT(0) to BIT(6). */
  const ClassInvisible: bv32 := 1 << 0
  const ClassDefault: bv32 := 1 << 1
  const ClassBBoxSelection: bv32 := 1 << 2
  const ClassDoNotSpawnAsStatic: bv32 := 1 << 3
  const ClassModifyExisting: bv32 := 1 << 4
  const ClassSendScriptEventsFromFlowgraph: bv32 := 1 << 5
  const ClassEntityArchetype: bv32 := 1 << 6

  const ClassFlags: seq<bv32> := [ClassInvisible, ClassDefault, ClassBBoxSelection, ClassDoNotSpawnAsStatic,
                                  ClassModifyExisting, ClassSendScriptEventsFromFlowgraph, ClassEntityArchetype]

  /** EPropertyFlags. */
  const PropertyFlagUIEnum: bv32 := 1 << 0
  const PropertyFlagUnsorted: bv32 := 1 << 1

  /** Exactly one bit is set. */
  predicate SingleBit(flag: bv32)
  {
    flag != 0 && flag & (flag - 1) == 0
  }

  /** The class flags are single bits, the i-th one being bit i, so no two overlap. */
  lemma ClassFlagsAreDistinctBits()
    ensures |ClassFlags| == 7
    ensures forall i :: 0 <= i < |ClassFlags| ==> SingleBit(ClassFlags[i]) && ClassFlags[i] == 1 << i
    ensures forall i, j :: 0 <= i < j < |ClassFlags| ==> ClassFlags[i] & ClassFlags[j] == 0
  {
  }

  // ---------------------------------------------------------------------
  // Property records
  // ---------------------------------------------------------------------

  /** EPropertyType. */
  datatype PropertyType = Bool | Int | Float | Vector | String | Entity | FolderBegin | FolderEnd

  /** A field of a stack record the helper never assigns holds an indeterminate value. */
  datatype Init<T> = Unset | Set(value: T)

  /** SLimits: two floats that are only copied. */
  datatype Limits = Limits(min: real, max: real)

  /** SPropertyInfo; the name and the type are assigned by every helper. */
  datatype PropertyInfo = PropertyInfo(
    name: string,
    legacyName: Init<string>,
    propertyType: PropertyType,
    editType: Init<string>,
    description: Init<string>,
    flags: Init<bv32>,
    defaultValue: Init<string>,
    limits: Init<Limits>)

  /** The record every value helper builds, with its own type, edit type, flags and limits. */
  function ValueProperty(name: string, legacyName: string, defaultVal: string, desc: string,
                         propertyType: PropertyType, editType: string, flags: bv32, limits: Init<Limits>): PropertyInfo
  {
    PropertyInfo(name, Set(legacyName), propertyType, Set(editType), Set(desc), Set(flags), Set(defaultVal), limits)
  }

  /** The record of the group helper: only name and type are assigned. */
  function FolderProperty(name: string, propertyType: PropertyType): PropertyInfo
  {
    PropertyInfo(name, Unset, propertyType, Unset, Unset, Unset, Unset, Unset)
  }

  /** The C++ types RegisterEntityProperty<T> is instantiated with; `Unsupported` stands for any other. */
  datatype ValueType = Vec3 | ColorF | FloatValue | IntValue | BoolValue | StringValue | Texture | Material | Unsupported

  /** The named String-property helpers. */
  datatype NamedHelper = Flare | Object | AudioTrigger | AudioRtpc | AudioSwitch | AudioState
                       | AudioEnvironment | AudioPreloadRequest

  /** Which helper produced a record. */
  datatype Helper = Typed(valueType: ValueType) | Named(helper: NamedHelper) | EnumHelper

  /**
   * The specialisations that exist: the five-argument form for Vec3, ColorF,
   * bool, string, ITexture and IMaterial; the seven-argument form, with
   * limits, for float and int.  Everything else reaches the unspecialised
   * template, which only asserts.
   */
  predicate Specialised(t: ValueType, withLimits: bool)
  {
    if withLimits then t == FloatValue || t == IntValue
    else t in {Vec3, ColorF, BoolValue, StringValue, Texture, Material}
  }

  /** The record RegisterEntityProperty<T> registers, or None where the unspecialised template asserts. */
  function TypedProperty(t: ValueType, name: string, legacyName: string, defaultVal: string, desc: string,
                         range: Option<Limits>): (r: Option<PropertyInfo>)
    ensures r.Some? <==> Specialised(t, range.Some?)
  {
    match (t, range)
    case (Vec3, None) => Some(ValueProperty(name, legacyName, defaultVal, desc, Vector, "", 0, Unset))
    case (ColorF, None) => Some(ValueProperty(name, legacyName, defaultVal, desc, Vector, "color", 0, Unset))
    case (FloatValue, Some(limits)) => Some(ValueProperty(name, legacyName, defaultVal, desc, Float, "", 0, Set(limits)))
    case (IntValue, Some(limits)) => Some(ValueProperty(name, legacyName, defaultVal, desc, Int, "", 0, Set(limits)))
    case (BoolValue, None) => Some(ValueProperty(name, legacyName, defaultVal, desc, Bool, "b", 0, Set(Limits(0.0, 1.0))))
    case (StringValue, None) => Some(ValueProperty(name, legacyName, defaultVal, desc, String, "", 0, Unset))
    case (Texture, None) => Some(ValueProperty(name, legacyName, defaultVal, desc, String, "tex", 0, Unset))
    case (Material, None) => Some(ValueProperty(name, legacyName, defaultVal, desc, String, "material", 0, Unset))
    case _ => None
  }

  /** The edit type each named helper sets. */
  function NamedEditType(helper: NamedHelper): string
  {
    match helper
    case Flare => "flare_"
    case Object => "obj"
    case AudioTrigger => "audioTrigger"
    case AudioRtpc => "audioRTPC"
    case AudioSwitch => "audioSwitch"
    case AudioState => "audioSwitchState"
    case AudioEnvironment => "audioEnvironment"
    case AudioPreloadRequest => "audioPreloadRequest"
  }

  /** The record of RegisterEntityPropertyFlare, ...Object, ...AudioTrigger and the other named helpers. */
  function NamedProperty(helper: NamedHelper, name: string, legacyName: string, defaultVal: string, desc: string): PropertyInfo
  {
    ValueProperty(name, legacyName, defaultVal, desc, String, NamedEditType(helper), 0, Unset)
  }

  /** The record of RegisterEntityPropertyEnum: a String with the UIEnum and Unsorted flags and the given limits. */
  function EnumProperty(name: string, legacyName: string, defaultVal: string, desc: string, limits: Limits): PropertyInfo
  {
    ValueProperty(name, legacyName, defaultVal, desc, String, "", PropertyFlagUIEnum | PropertyFlagUnsorted, Set(limits))
  }

  /** The record a helper registers, when it registers one. */
  function HelperProperty(helper: Helper, name: string, legacyName: string, defaultVal: string, desc: string,
                          range: Option<Limits>): Option<PropertyInfo>
  {
    match helper
    case Typed(t) => TypedProperty(t, name, legacyName, defaultVal, desc, range)
    case Named(h) => Some(NamedProperty(h, name, legacyName, defaultVal, desc))
    case EnumHelper => if range.Some? then Some(EnumProperty(name, legacyName, defaultVal, desc, range.value)) else None
  }

  /** The (type, edit type, flags) signature each helper gives its records. */
  function Signature(helper: Helper): (PropertyType, string, bv32)
    requires helper != Typed(Unsupported)
  {
    match helper
    case Typed(Vec3) => (Vector, "", 0)
    case Typed(ColorF) => (Vector, "color", 0)
    case Typed(FloatValue) => (Float, "", 0)
    case Typed(IntValue) => (Int, "", 0)
    case Typed(BoolValue) => (Bool, "b", 0)
    case Typed(StringValue) => (String, "", 0)
    case Typed(Texture) => (String, "tex", 0)
    case Typed(Material) => (String, "material", 0)
    case Named(h) => (String, NamedEditType(h), 0)
    case EnumHelper => (String, "", PropertyFlagUIEnum | PropertyFlagUnsorted)
  }

  /**
   * Every helper copies the caller's name, legacy name, default and
   * description, and stamps the record with its own signature; the limits
   * are the caller's for float, int and Enum, 0..1 for bool, and left
   * unassigned otherwise.
   */
  lemma HelperRecord(helper: Helper, name: string, legacyName: string, defaultVal: string, desc: string,
                     range: Option<Limits>)
    requires HelperProperty(helper, name, legacyName, defaultVal, desc, range).Some?
    ensures var p := HelperProperty(helper, name, legacyName, defaultVal, desc, range).value;
      && p.name == name && p.legacyName == Set(legacyName)
      && p.defaultValue == Set(defaultVal) && p.description == Set(desc)
      && (p.propertyType, p.editType, p.flags) == (Signature(helper).0, Set(Signature(helper).1), Set(Signature(helper).2))
      && (p.flags == Set(0) <==> helper != EnumHelper)
      && p.limits == (if helper == Typed(BoolValue) then Set(Limits(0.0, 1.0))
                      else if helper in {Typed(FloatValue), Typed(IntValue), EnumHelper} then Set(range.value)
                      else Unset)
  {
  }

  /** Different helpers leave different signatures, so a record tells which helper registered it. */
  lemma SignatureIdentifiesHelper(a: Helper, b: Helper)
    requires a != b && a != Typed(Unsupported) && b != Typed(Unsupported)
    ensures Signature(a) != Signature(b)
  {
  }

  // ---------------------------------------------------------------------
  // Folder brackets
  // ---------------------------------------------------------------------

  /** FolderBegin records minus FolderEnd records. */
  function Depth(properties: seq<PropertyInfo>): int
  {
    if |properties| == 0 then 0
    else Depth(properties[..|properties| - 1]) + (match properties[|properties| - 1].propertyType
                                                  case FolderBegin => 1
                                                  case FolderEnd => -1
                                                  case _ => 0)
  }

  /** Every FolderEnd closes an earlier FolderBegin, and all are closed. */
  ghost predicate Balanced(properties: seq<PropertyInfo>)
  {
    Depth(properties) == 0 && forall k :: 0 <= k <= |properties| ==> Depth(properties[..k]) >= 0
  }

  /** The records one group-helper scope registers around the properties registered inside it. */
  function Grouped(name: string, inner: seq<PropertyInfo>): seq<PropertyInfo>
  {
    [FolderProperty(name, FolderBegin)] + inner + [FolderProperty(name, FolderEnd)]
  }

  lemma {:induction false} DepthConcat(a: seq<PropertyInfo>, b: seq<PropertyInfo>)
    ensures Depth(a + b) == Depth(a) + Depth(b)
    decreases |b|
  {
    if |b| == 0 {
      assert a + b == a;
    } else {
      var last := b[|b| - 1];
      assert (a + b)[..|a + b| - 1] == a + b[..|b| - 1];
      DepthConcat(a, b[..|b| - 1]);
    }
  }

  /** A group around balanced registrations is balanced. */
  lemma GroupBalanced(name: string, inner: seq<PropertyInfo>)
    requires Balanced(inner)
    ensures Balanced(Grouped(name, inner))
  {
    var begin := [FolderProperty(name, FolderBegin)];
    var end := [FolderProperty(name, FolderEnd)];
    var g := Grouped(name, inner);
    assert Depth(begin) == 1 by {
      assert begin[..0] == [];
    }
    assert Depth(end) == -1 by {
      assert end[..0] == [];
    }
    DepthConcat(begin, inner);
    DepthConcat(begin + inner, end);
    assert g == begin + inner + end;
    forall k | 0 <= k <= |g| ensures Depth(g[..k]) >= 0 {
      if k == 0 {
      } else if k <= |inner| + 1 {
        assert g[..k] == begin + inner[..k - 1];
        DepthConcat(begin, inner[..k - 1]);
      } else {
        assert g[..k] == g;
      }
    }
  }

  /** Registrations that are balanced one after the other are balanced together. */
  lemma BalancedConcat(a: seq<PropertyInfo>, b: seq<PropertyInfo>)
    requires Balanced(a) && Balanced(b)
    ensures Balanced(a + b)
  {
    DepthConcat(a, b);
    forall k | 0 <= k <= |a + b| ensures Depth((a + b)[..k]) >= 0 {
      if k <= |a| {
        assert (a + b)[..k] == a[..k];
      } else {
        assert (a + b)[..k] == a + b[..k - |a|];
        DepthConcat(a, b[..k - |a|]);
      }
    }
  }

  /** A value helper's record is not a folder record, so on its own it is balanced. */
  lemma HelperRecordBalanced(helper: Helper, name: string, legacyName: string, defaultVal: string, desc: string,
                             range: Option<Limits>)
    requires HelperProperty(helper, name, legacyName, defaultVal, desc, range).Some?
    ensures Balanced([HelperProperty(helper, name, legacyName, defaultVal, desc, range).value])
  {
    var p := HelperProperty(helper, name, legacyName, defaultVal, desc, range).value;
    assert [p][..0] == [];
    assert [p][..1] == [p];
  }

  // ---------------------------------------------------------------------
  // The handler
  // ---------------------------------------------------------------------

  /** IEntityPropertyHandler, as an append-only list of property records. */
  class PropertyHandler {
    var properties: seq<PropertyInfo>

    constructor ()
      ensures properties == []
    {
      properties := [];
    }

    /** RegisterProperty: append the record; the result is the new property's index. */
    method RegisterProperty(info: PropertyInfo) returns (index: int)
      modifies this
      ensures properties == old(properties) + [info]
      ensures index == old(|properties|) && properties[index] == info
    {
      index := |properties|;
      properties := properties + [info];
    }

    /** GetPropertyCount. */
    function GetPropertyCount(): (count: int)
      reads this
      ensures count >= 0 && count == |properties|
    {
      |properties|
    }

    /** GetPropertyInfo: the record at `index`, or failure outside 0..GetPropertyCount()-1. */
    function GetPropertyInfo(index: int): (r: Option<PropertyInfo>)
      reads this
      ensures r.Some? <==> 0 <= index < GetPropertyCount()
      ensures r.Some? ==> r.value == properties[index]
    {
      if 0 <= index < |properties| then Some(properties[index]) else None
    }

    /** GetDefaultProperty: the record's default when the lookup succeeds, else "". */
    function GetDefaultProperty(index: int): (r: Init<string>)
      reads this
      ensures 0 <= index < |properties| ==> r == properties[index].defaultValue
      ensures !(0 <= index < |properties|) ==> r == Set("")
    {
      match GetPropertyInfo(index)
      case Some(info) => info.defaultValue
      case None => Set("")
    }
  }

  /** RegisterEntityProperty<T>, both overloads: one record for a specialised type, none otherwise. */
  method RegisterEntityProperty(handler: PropertyHandler, t: ValueType, name: string, legacyName: string,
                                defaultVal: string, desc: string, range: Option<Limits>)
    modifies handler
    ensures Specialised(t, range.Some?) ==>
      handler.properties == old(handler.properties) + [TypedProperty(t, name, legacyName, defaultVal, desc, range).value]
    ensures !Specialised(t, range.Some?) ==> handler.properties == old(handler.properties)
  {
    var info := TypedProperty(t, name, legacyName, defaultVal, desc, range);
    if info.Some? {
      var _ := handler.RegisterProperty(info.value);
    }
  }

  /** RegisterEntityPropertyFlare, ...Object and the audio helpers. */
  method RegisterEntityPropertyNamed(handler: PropertyHandler, helper: NamedHelper, name: string, legacyName: string,
                                     defaultVal: string, desc: string)
    modifies handler
    ensures handler.properties == old(handler.properties) + [NamedProperty(helper, name, legacyName, defaultVal, desc)]
  {
    var _ := handler.RegisterProperty(NamedProperty(helper, name, legacyName, defaultVal, desc));
  }

  /** RegisterEntityPropertyEnum. */
  method RegisterEntityPropertyEnum(handler: PropertyHandler, name: string, legacyName: string,
                                    defaultVal: string, desc: string, min: real, max: real)
    modifies handler
    ensures handler.properties == old(handler.properties) + [EnumProperty(name, legacyName, defaultVal, desc, Limits(min, max))]
  {
    var _ := handler.RegisterProperty(EnumProperty(name, legacyName, defaultVal, desc, Limits(min, max)));
  }

  /**
   * SEntityPropertyGroupHelper: construction registers FolderBegin, and
   * Close, the destructor, registers FolderEnd with the same name.
   */
  class PropertyGroup {
    const name: string
    const handler: PropertyHandler

    constructor (handler: PropertyHandler, name: string)
      modifies handler
      ensures this.name == name && this.handler == handler
      ensures handler.properties == old(handler.properties) + [FolderProperty(name, FolderBegin)]
    {
      this.name := name;
      this.handler := handler;
      new;
      var _ := handler.RegisterProperty(FolderProperty(name, FolderBegin));
    }

    method Close()
      modifies handler
      ensures handler.properties == old(handler.properties) + [FolderProperty(name, FolderEnd)]
    {
      var _ := handler.RegisterProperty(FolderProperty(name, FolderEnd));
    }
  }

  // ---------------------------------------------------------------------
  // Class descriptions
  // ---------------------------------------------------------------------

  /** SEditorClassInfo. */
  datatype EditorClassInfo = EditorClassInfo(icon: string, helper: string, category: string)

  /**
   * SEntityClassDesc.  Pointers are None when null; the attribute arrays are
   * kept as lists of attribute names.
   */
  datatype EntityClassDesc = EntityClassDesc(
    flags: int,
    name: string,
    scriptFile: string,
    scriptTable: Option<nat>,
    editorClassInfo: EditorClassInfo,
    userProxyCreateFunc: Option<nat>,
    userProxyData: Option<nat>,
    eventHandler: Option<nat>,
    scriptFileHandler: Option<nat>,
    classAttributes: seq<string>,
    entityAttributes: seq<string>)

  /** The default-constructed description. */
  function DefaultClassDesc(): (d: EntityClassDesc)
    ensures d.flags == 0 && d.name == "" && d.scriptFile == ""
    ensures d.editorClassInfo == EditorClassInfo("", "", "")
    ensures d.scriptTable.None? && d.userProxyCreateFunc.None? && d.userProxyData.None?
    ensures d.eventHandler.None? && d.scriptFileHandler.None?
    ensures d.classAttributes == [] && d.entityAttributes == []
  {
    EntityClassDesc(0, "", "", None, EditorClassInfo("", "", ""), None, None, None, None, [], [])
  }
}
