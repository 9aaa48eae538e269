/** The key value store: single values, lists and sets under string keys, the elements of a list or
    set being of the type of its first element. */
module KeyValueStore {

  datatype Item = Int32(i32: int) | Int64(i64: int) | Str(str: string)

  datatype Type = TInt32 | TInt64 | TString

  function TypeOf(v: Item): Type {
    match v
    case Int32(_) => TInt32
    case Int64(_) => TInt64
    case Str(_) => TString
  }

  datatype Stored<C> = Stored(elementType: Type, elements: C)

  type Lists = map<string, Stored<seq<Item>>>
  type Sets = map<string, Stored<set<Item>>>

  datatype Outcome<+T> = Ok(value: T) | KeyDoesNotExist | ElementTypeMismatch | ValueExists | OutOfRange | TypeMismatch

  predicate GoodLists(lists: Lists) {
    forall k :: k in lists ==>
      lists[k].elements != [] && forall v :: v in lists[k].elements ==> TypeOf(v) == lists[k].elementType
  }

  predicate GoodSets(sets: Sets) {
    forall k :: k in sets ==>
      sets[k].elements != {} && forall v :: v in sets[k].elements ==> TypeOf(v) == sets[k].elementType
  }

  class Store {
    var singles: map<string, Item>
    var lists: Lists
    var sets: Sets

    /** A list or set that exists is not empty, and its elements are of its type. */
    predicate Valid()
      reads this
    {
      GoodLists(lists) && GoodSets(sets)
    }

    constructor ()
      ensures Valid() && singles == map[] && lists == map[] && sets == map[]
    {
      singles, lists, sets := map[], map[], map[];
    }

    method Add(key: string, v: Item)
      requires Valid()
      modifies this
      ensures Valid() && singles == old(singles)[key := v] && lists == old(lists) && sets == old(sets)
    {
      singles := singles[key := v];
    }

    function Get(key: string, t: Type): (r: Outcome<Item>)
      reads this
      ensures r.Ok? <==> key in singles && TypeOf(singles[key]) == t
      ensures r.Ok? ==> r.value == singles[key]
      ensures r.KeyDoesNotExist? <==> key !in singles
      ensures r.TypeMismatch? <==> key in singles && TypeOf(singles[key]) != t
    {
      if key !in singles then KeyDoesNotExist
      else if TypeOf(singles[key]) != t then TypeMismatch
      else Ok(singles[key])
    }

    /** Adds at the end of a list of the right type, or of a new list; otherwise changes nothing. */
    method AddToList(key: string, v: Item) returns (result: Outcome<()>)
      requires Valid()
      modifies this
      ensures Valid() && singles == old(singles) && sets == old(sets)
      ensures result.Ok? <==> key !in old(lists) || old(lists)[key].elementType == TypeOf(v)
      ensures !result.Ok? ==> result == ElementTypeMismatch && lists == old(lists)
      ensures result.Ok? ==>
        && lists.Keys == old(lists.Keys) + {key}
        && lists[key].elements == (if key in old(lists) then old(lists)[key].elements else []) + [v]
        && forall k :: k in old(lists) && k != key ==> lists[k] == old(lists)[k]
    {
      if key in lists {
        var list := lists[key];
        if list.elementType == TypeOf(v) {
          lists := lists[key := list.(elements := list.elements + [v])];
        } else {
          return ElementTypeMismatch;
        }
      } else {
        lists := lists[key := Stored(TypeOf(v), [v])];
      }
      return Ok(());
    }

    /** The key holds a single string. */
    predicate HoldsString(key: string)
      reads this
    {
      key in singles && singles[key].Str?
    }

    function GetListCount(key: string): (r: Outcome<nat>)
      requires Valid()
      reads this
      ensures r.Ok? <==> key in lists
      ensures r.Ok? ==> r.value == |lists[key].elements| > 0
    {
      if key in lists then Ok(|lists[key].elements|) else KeyDoesNotExist
    }

    function GetAtList(key: string, position: nat, t: Type): (r: Outcome<Item>)
      requires Valid()
      reads this
      ensures r.Ok? <==> key in lists && position < |lists[key].elements| && lists[key].elementType == t
      ensures r.Ok? ==> r.value == lists[key].elements[position] && TypeOf(r.value) == t
      ensures r.OutOfRange? <==> key in lists && position >= |lists[key].elements|
      ensures r.KeyDoesNotExist? <==> key !in lists
    {
      if key !in lists then KeyDoesNotExist
      else if position >= |lists[key].elements| then OutOfRange
      else if TypeOf(lists[key].elements[position]) != t then TypeMismatch
      else Ok(lists[key].elements[position])
    }

    /** Adds a value that is not there yet, of the type of the set; otherwise changes nothing. */
    method AddToSet(key: string, v: Item) returns (result: Outcome<()>)
      requires Valid()
      modifies this
      ensures Valid() && singles == old(singles) && lists == old(lists)
      ensures result.Ok? <==>
                key !in old(sets) || (old(sets)[key].elementType == TypeOf(v) && v !in old(sets)[key].elements)
      ensures result.ValueExists? <==> key in old(sets) && v in old(sets)[key].elements
      ensures result.ElementTypeMismatch? <==> key in old(sets) && old(sets)[key].elementType != TypeOf(v)
      ensures !result.Ok? ==> sets == old(sets)
      ensures result.Ok? ==>
        && sets.Keys == old(sets.Keys) + {key}
        && sets[key].elements == (if key in old(sets) then old(sets)[key].elements else {}) + {v}
        && forall k :: k in old(sets) && k != key ==> sets[k] == old(sets)[k]
    {
      if key in sets {
        var stored := sets[key];
        if stored.elementType == TypeOf(v) {
          if v in stored.elements {
            return ValueExists;
          }
          sets := sets[key := stored.(elements := stored.elements + {v})];
        } else {
          return ElementTypeMismatch;
        }
      } else {
        sets := sets[key := Stored(TypeOf(v), {v})];
      }
      return Ok(());
    }

    predicate SetKeyExist(key: string)
      reads this
    {
      key in sets
    }

    /** The program looks at the set before it checks that the key was found, so the key must exist. */
    function ContainsInSet(key: string, v: Item): (r: Outcome<bool>)
      requires Valid() && SetKeyExist(key)
      reads this
      ensures r == Ok(true) <==> v in sets[key].elements
      ensures r.Ok? <==> exists w :: w in sets[key].elements && TypeOf(w) == TypeOf(v)
    {
      if sets[key].elementType != TypeOf(v) then ElementTypeMismatch
      else Ok(v in sets[key].elements)
    }
  }
}
