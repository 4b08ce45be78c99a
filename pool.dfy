/** Pool: the children of an object, kept in child-index order, handed out
    one inactive object at a time.  Patterns/Pool.cs and UI/Pool.cs are the
    same component; they differ only in how the LINQ query that finds an
    inactive object is written, and both forms are given here. */
module Pools {
  import opened Engine

  /** The pooled objects that are inactive in the hierarchy, in pool order
      (the Where of UI/Pool.cs). */
  function InactiveObjects(objs: seq<GameObject>): (r: seq<GameObject>)
    reads objs
    ensures forall i :: 0 <= i < |r| ==> r[i] in objs && !r[i].ActiveInHierarchy()
    ensures forall j :: 0 <= j < |objs| && !objs[j].ActiveInHierarchy() ==> objs[j] in r
    ensures |r| <= |objs|
  {
    if objs == [] then []
    else (if objs[0].ActiveInHierarchy() then [] else [objs[0]]) + InactiveObjects(objs[1..])
  }

  /** FirstOrDefault on a sequence of references: its first element, or null. */
  function FirstOrDefault(objs: seq<GameObject>): (r: GameObject?)
    ensures objs == [] <==> r == null
    ensures objs != [] ==> r == objs[0]
  {
    if objs == [] then null else objs[0]
  }

  /** FirstOrDefault with the predicate "not active in hierarchy" (the
      query of Patterns/Pool.cs). */
  function FirstInactive(objs: seq<GameObject>): (r: GameObject?)
    reads objs
  {
    if objs == [] then null
    else if !objs[0].ActiveInHierarchy() then objs[0]
    else FirstInactive(objs[1..])
  }

  /** FirstInactive finds the lowest-index inactive object, and null exactly
      when every object is active. */
  lemma {:induction false} FirstInactiveIsLowest(objs: seq<GameObject>)
    ensures FirstInactive(objs) == null <==> forall j :: 0 <= j < |objs| ==> objs[j].ActiveInHierarchy()
    ensures FirstInactive(objs) != null ==>
              exists k :: 0 <= k < |objs| && objs[k] == FirstInactive(objs) && !objs[k].ActiveInHierarchy() &&
                          forall j :: 0 <= j < k ==> objs[j].ActiveInHierarchy()
  {
    if objs != [] && objs[0].ActiveInHierarchy() {
      FirstInactiveIsLowest(objs[1..]);
      if FirstInactive(objs[1..]) != null {
        var k :| 0 <= k < |objs[1..]| && objs[1..][k] == FirstInactive(objs[1..]) && !objs[1..][k].ActiveInHierarchy() &&
                 forall j :: 0 <= j < k ==> objs[1..][j].ActiveInHierarchy();
        assert objs[k + 1] == FirstInactive(objs);
        assert forall j :: 0 <= j < k + 1 ==> objs[j].ActiveInHierarchy() by {
          forall j | 0 <= j < k + 1
            ensures objs[j].ActiveInHierarchy()
          {
            if j > 0 {
              assert objs[j] == objs[1..][j - 1];
            }
          }
        }
      } else {
        assert forall j :: 0 <= j < |objs| ==> objs[j].ActiveInHierarchy() by {
          forall j | 0 <= j < |objs|
            ensures objs[j].ActiveInHierarchy()
          {
            if j > 0 {
              assert objs[j] == objs[1..][j - 1];
            }
          }
        }
      }
    }
  }

  /** The two formulations of GetInactiveObject agree on every pool. */
  lemma {:induction false} WhereThenFirstIsFirstInactive(objs: seq<GameObject>)
    ensures FirstOrDefault(InactiveObjects(objs)) == FirstInactive(objs)
  {
    if objs != [] && objs[0].ActiveInHierarchy() {
      WhereThenFirstIsFirstInactive(objs[1..]);
      assert InactiveObjects(objs) == InactiveObjects(objs[1..]);
    }
  }

  class Pool {
    var pooledObjects: seq<GameObject>

    constructor ()
      ensures pooledObjects == []
    {
      pooledObjects := [];
    }

    /** Awake: `children` are transform.GetChild(0..childCount-1); the pool
        becomes exactly those objects, in child-index order. */
    method Awake(children: seq<GameObject>)
      modifies this`pooledObjects
      ensures pooledObjects == children
    {
      pooledObjects := [];
      var i := 0;
      while i < |children|
        invariant 0 <= i <= |children|
        invariant pooledObjects == children[..i]
      {
        pooledObjects := pooledObjects + [children[i]];
        i := i + 1;
      }
    }

    /** GetInactiveObject: the lowest-index pooled object that is inactive
        in the hierarchy, or null when all are active.  Being a query, it
        changes no object. */
    function GetInactiveObject(): (r: GameObject?)
      reads this, pooledObjects
      ensures r == null <==> forall j :: 0 <= j < |pooledObjects| ==> pooledObjects[j].ActiveInHierarchy()
      ensures r != null ==>
                exists k :: 0 <= k < |pooledObjects| && pooledObjects[k] == r && !r.ActiveInHierarchy() &&
                            forall j :: 0 <= j < k ==> pooledObjects[j].ActiveInHierarchy()
    {
      FirstInactiveIsLowest(pooledObjects);
      FirstInactive(pooledObjects)
    }

    /** SetAllObjectsInactive: every pooled object ends with its own flag
        off (SetActive is called only on those whose flag was on), so the
        next GetInactiveObject hands out the first pooled object. */
    method SetAllObjectsInactive()
      modifies set o | o in pooledObjects :: o
      ensures forall o :: o in pooledObjects ==> !o.activeSelf
      ensures forall o :: o in pooledObjects ==> !o.ActiveInHierarchy()
      ensures pooledObjects != [] ==> GetInactiveObject() == pooledObjects[0]
    {
      var i := 0;
      while i < |pooledObjects|
        invariant 0 <= i <= |pooledObjects|
        invariant forall j :: 0 <= j < i ==> !pooledObjects[j].activeSelf
      {
        var obj := pooledObjects[i];
        assert obj in pooledObjects;
        if obj.activeSelf {
          obj.SetActive(false);
        }
        i := i + 1;
      }
      assert forall o :: o in pooledObjects ==> !o.activeSelf by {
        forall o | o in pooledObjects
          ensures !o.activeSelf
        {
          var j :| 0 <= j < |pooledObjects| && pooledObjects[j] == o;
        }
      }
      if pooledObjects != [] {
        assert !pooledObjects[0].ActiveInHierarchy();
      }
    }
  }
}
