/**
 * The observation dictionary that the simulator hands to the wrappers: a Python
 * dict from key to array. Callers hold a reference to it and the merger inserts
 * into it in place, so it is an object; iteration visits keys in insertion order.
 */
module ObsDicts {
  import opened NdArrays

  class ObsDict<T> {
    /** The keys in insertion order, which is the order `for key in d` visits them. */
    var order: seq<string>
    /** The value stored under each key. */
    var entries: map<string, NdArray<T>>

    /** Every key occurs once in the order, and the order lists exactly the stored keys. */
    ghost predicate Valid()
      reads this
    {
      (forall i, j :: 0 <= i < j < |order| ==> order[i] != order[j]) &&
      (forall key :: key in entries <==> key in order)
    }

    /** `d[key] = value`: a new key goes to the end of the order, an existing key keeps its place. */
    method SetItem(key: string, value: NdArray<T>)
      requires Valid()
      modifies this
      ensures Valid()
      ensures entries == old(entries)[key := value]
      ensures order == if key in old(entries) then old(order) else old(order) + [key]
    {
      if key !in entries {
        order := order + [key];
      }
      entries := entries[key := value];
    }
  }
}
