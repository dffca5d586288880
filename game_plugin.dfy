/**
 * The registrator list of the game plugin template.  Every entity
 * registrator links itself, as it is constructed, to the end of one global
 * singly linked list that starts at g_pFirst and ends at g_pLast; the plugin
 * later walks the list from g_pFirst along m_pNext.
 */
module GamePlugin {
  import opened Common

  /** IEntityRegistrator: one node of the list. */
  class EntityRegistrator {
    /** m_pNext. */
    var next: EntityRegistrator?

    /** A registrator object as static zero-initialisation leaves it: not linked to anything. */
    constructor ()
      ensures next == null
    {
      next := null;
    }
  }

  /** The statics g_pFirst and g_pLast, and (as ghost state) the registrators in construction order. */
  class RegistratorList {
    var first: EntityRegistrator?
    var last: EntityRegistrator?
    ghost var registrators: seq<EntityRegistrator>

    /** The list from `first` along `next` is exactly `registrators`, ending at `last`. */
    ghost predicate Valid()
      reads this, registrators
    {
      && (|registrators| == 0 ==> first == null && last == null)
      && (|registrators| > 0 ==>
            first == registrators[0] && last == registrators[|registrators| - 1] && last.next == null)
      && (forall i :: 0 <= i < |registrators| - 1 ==> registrators[i].next == registrators[i + 1])
      && (forall i, j :: 0 <= i < j < |registrators| ==> registrators[i] != registrators[j])
    }

    /** Both statics start out null. */
    constructor ()
      ensures Valid() && registrators == [] && first == null && last == null
    {
      first, last := null, null;
      registrators := [];
    }

    /**
     * The IEntityRegistrator constructor for `r`: the first registrator
     * becomes both ends of the list; a later one is linked after the current
     * last one and becomes the new last.  The constructor never writes
     * `r.next`; the list stays terminated only because `r.next` is null.
     */
    method Construct(r: EntityRegistrator)
      requires Valid()
      requires r.next == null && r !in registrators
      modifies this, last
      ensures Valid()
      ensures registrators == old(registrators) + [r]
      ensures old(first) == null ==> first == r && last == r
      ensures old(first) != null ==> first == old(first) && last == r && old(last).next == r
    {
      if first == null {
        first := r;
        last := r;
      } else {
        last.next := r;
        last := last.next;
      }
      registrators := registrators + [r];
      assert forall i :: 0 <= i < |old(registrators)| ==> registrators[i] == old(registrators)[i];
    }

    /** Follow `next` from `first` to the end, collecting the registrators met on the way. */
    method Walk() returns (visited: seq<EntityRegistrator>)
      requires Valid()
      ensures visited == registrators
    {
      visited := [];
      var current := first;
      while current != null
        invariant |visited| <= |registrators|
        invariant visited == registrators[..|visited|]
        invariant current == (if |visited| < |registrators| then registrators[|visited|] else null)
        decreases |registrators| - |visited|
      {
        visited := visited + [current];
        current := current.next;
      }
    }
  }

  /** CObjectCreator::GetGameObjectExtensionRMIData: no RMI table, so a null pointer and a count of 0. */
  method GetGameObjectExtensionRMIData() returns (rmi: Option<nat>, count: nat)
    ensures rmi == None && count == 0
  {
    rmi := None;
    count := 0;
  }
}
