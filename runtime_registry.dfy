/**
 * CRuntimeRegistry of Schematyc: the runtime classes compiled so far, keyed
 * by GUID.  The map field is updated in place by RegisterClass, ReleaseClass
 * and Reset; GetClass and GetClassImpl are lookups.
 */
module RuntimeRegistry {
  import opened Common

  /** A compiled runtime class; only the GUID it reports matters to the registry. */
  datatype RuntimeClass = RuntimeClass(guid: Guid, name: string)

  /** The map after RegisterClass: unchanged for an empty or taken GUID, else one more entry. */
  function Registered(classes: map<Guid, RuntimeClass>, runtimeClass: RuntimeClass): (r: map<Guid, RuntimeClass>)
    ensures IsEmpty(runtimeClass.guid) || runtimeClass.guid in classes ==> r == classes
    ensures !IsEmpty(runtimeClass.guid) && runtimeClass.guid !in classes ==>
      r.Keys == classes.Keys + {runtimeClass.guid} && r[runtimeClass.guid] == runtimeClass
    ensures forall g :: g in classes ==> g in r && r[g] == classes[g]
  {
    var guid := runtimeClass.guid;
    if IsEmpty(guid) || guid in classes then classes else classes[guid := runtimeClass]
  }

  /** The map after ReleaseClass: the entry for `guid`, if any, is gone. */
  function Released(classes: map<Guid, RuntimeClass>, guid: Guid): (r: map<Guid, RuntimeClass>)
    ensures guid !in r
    ensures forall g :: g != guid ==> (g in r <==> g in classes)
    ensures forall g :: g in r ==> r[g] == classes[g]
  {
    classes - {guid}
  }

  /** Every key is a non-empty GUID and is the GUID of the class stored under it. */
  ghost predicate KeyedByOwnGuid(classes: map<Guid, RuntimeClass>)
  {
    forall g :: g in classes ==> !IsEmpty(g) && classes[g].guid == g
  }

  /** Registering keeps every key the GUID of its class. */
  lemma RegisterKeepsKeys(classes: map<Guid, RuntimeClass>, runtimeClass: RuntimeClass)
    requires KeyedByOwnGuid(classes)
    ensures KeyedByOwnGuid(Registered(classes, runtimeClass))
  {
  }

  /** Releasing an absent GUID changes nothing; releasing twice is releasing once. */
  lemma ReleaseAbsent(classes: map<Guid, RuntimeClass>, guid: Guid)
    ensures guid !in classes ==> Released(classes, guid) == classes
    ensures Released(Released(classes, guid), guid) == Released(classes, guid)
  {
  }

  /** Registering a class and then releasing its GUID gives the original map back. */
  lemma ReleaseUndoesRegister(classes: map<Guid, RuntimeClass>, runtimeClass: RuntimeClass)
    requires !IsEmpty(runtimeClass.guid) && runtimeClass.guid !in classes
    ensures Released(Registered(classes, runtimeClass), runtimeClass.guid) == classes
  {
  }

  /** A second registration under a GUID never displaces the first. */
  lemma FirstRegistrationWins(classes: map<Guid, RuntimeClass>, first: RuntimeClass, second: RuntimeClass)
    requires !IsEmpty(first.guid) && first.guid == second.guid
    ensures var m := Registered(Registered(classes, first), second);
      first.guid in m && m[first.guid] == (if first.guid in classes then classes[first.guid] else first)
  {
  }

  class Registry {
    /** m_classes. */
    var classes: map<Guid, RuntimeClass>

    ghost predicate Valid()
      reads this
    {
      KeyedByOwnGuid(classes)
    }

    constructor ()
      ensures Valid() && classes == map[]
    {
      classes := map[];
    }

    /** GetClass: the class registered under `guid`, or null. */
    function GetClass(guid: Guid): (r: Option<RuntimeClass>)
      reads this
      ensures r.Some? <==> guid in classes
      ensures r.Some? ==> r == Some(classes[guid])
      ensures Valid() && r.Some? ==> r.value.guid == guid && !IsEmpty(guid)
    {
      if guid in classes then Some(classes[guid]) else None
    }

    /** GetClassImpl: the same lookup, handing back the concrete class. */
    method GetClassImpl(guid: Guid) returns (r: Option<RuntimeClass>)
      ensures r == GetClass(guid)
    {
      r := None;
      if guid in classes {
        r := Some(classes[guid]);
      }
    }

    /**
     * RegisterClass: a class whose GUID is empty or already taken is refused
     * (the source reports a critical error) and the map is left alone;
     * otherwise the class is stored under its GUID.
     */
    method RegisterClass(runtimeClass: RuntimeClass)
      requires Valid()
      modifies this
      ensures Valid()
      ensures classes == Registered(old(classes), runtimeClass)
      ensures !IsEmpty(runtimeClass.guid) && old(GetClass(runtimeClass.guid)).None? ==>
        GetClass(runtimeClass.guid) == Some(runtimeClass)
      ensures forall g :: g != runtimeClass.guid ==> GetClass(g) == old(GetClass(g))
    {
      var guid := runtimeClass.guid;
      if IsEmpty(guid) || GetClass(guid).Some? {
        return;
      }
      classes := classes[guid := runtimeClass];
    }

    /** ReleaseClass: erase the entry for `guid`; nothing happens if there is none. */
    method ReleaseClass(guid: Guid)
      requires Valid()
      modifies this
      ensures Valid()
      ensures classes == Released(old(classes), guid)
      ensures GetClass(guid) == None
      ensures forall g :: g != guid ==> GetClass(g) == old(GetClass(g))
    {
      classes := classes - {guid};
    }

    /** Reset: forget every class. */
    method Reset()
      modifies this
      ensures Valid()
      ensures classes == map[]
      ensures forall g :: GetClass(g) == None
    {
      classes := map[];
    }
  }
}
