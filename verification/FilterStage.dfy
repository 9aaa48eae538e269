/** The filter that lets a message pass if its values are (whitelist) or are not (blacklist) in the
    sets it names. */
module FilterStage {
  import opened DynamicMessage
  import KV = KeyValueStore

  type Field = (string, string)

  /** The field that names a set, and the field whose value is looked up in it. */
  type Combination = (Field, Field)

  /** A field of the combination is missing or not a string, or the set does not hold strings. */
  predicate Raises(sets: KV.Sets, fields: Fields, c: Combination) {
    || !HasString(fields, c.0.0, c.0.1)
    || !HasString(fields, c.1.0, c.1.1)
    || (var key := String(fields, c.0.0, c.0.1); key in sets && sets[key].elementType != KV.TString)
  }

  predicate Present(sets: KV.Sets, fields: Fields, c: Combination)
    requires !Raises(sets, fields, c)
  {
    var key := String(fields, c.0.0, c.0.1);
    key in sets && KV.Str(String(fields, c.1.0, c.1.1)) in sets[key].elements
  }

  /** A set that does not exist switches its combination off. */
  predicate Applies(sets: KV.Sets, fields: Fields, c: Combination)
    requires !Raises(sets, fields, c)
  {
    String(fields, c.0.0, c.0.1) in sets
  }

  datatype Verdict = Out | Filtered | Exception

  /** The verdict as a statement about all combinations. */
  ghost predicate IsVerdict(ifPresent: bool, sets: KV.Sets, fields: Fields, cs: seq<Combination>, v: Verdict) {
    match v
    case Exception => exists c :: c in cs && Raises(sets, fields, c)
    case Out => forall c :: c in cs ==>
                  !Raises(sets, fields, c) && (Applies(sets, fields, c) ==> Present(sets, fields, c) == ifPresent)
    case Filtered =>
      && (forall c :: c in cs ==> !Raises(sets, fields, c))
      && exists c :: c in cs && Applies(sets, fields, c) && Present(sets, fields, c) != ifPresent
  }

  class Filter {
    const ifPresent: bool
    const store: KV.Store
    const combinations: seq<Combination>
    var out: seq<Message>
    var filteredOut: seq<Message>
    var exceptionOut: seq<Message>

    constructor (ifPresent: bool, store: KV.Store, combinations: seq<Combination>)
      ensures this.ifPresent == ifPresent && this.store == store && this.combinations == combinations
      ensures out == filteredOut == exceptionOut == []
    {
      this.ifPresent, this.store, this.combinations := ifPresent, store, combinations;
      out, filteredOut, exceptionOut := [], [], [];
    }

    method Decide(fields: Fields) returns (v: Verdict)
      requires store.Valid()
      ensures IsVerdict(ifPresent, store.sets, fields, combinations, v)
    {
      var filtered := false;
      for i := 0 to |combinations|
        invariant forall j :: 0 <= j < i ==> !Raises(store.sets, fields, combinations[j])
        invariant filtered <==> exists j :: 0 <= j < i && Applies(store.sets, fields, combinations[j])
                                  && Present(store.sets, fields, combinations[j]) != ifPresent
      {
        var c := combinations[i];
        assert c in combinations;
        if !HasString(fields, c.0.0, c.0.1) || !HasString(fields, c.1.0, c.1.1) {
          return Exception;
        }
        var setKey, value := String(fields, c.0.0, c.0.1), String(fields, c.1.0, c.1.1);
        if !store.SetKeyExist(setKey) {
          continue;
        }
        var contained := store.ContainsInSet(setKey, KV.Str(value));
        if !contained.Ok? {
          return Exception;
        }
        if ifPresent && !contained.value {
          filtered := true;
        } else if !ifPresent && contained.value {
          filtered := true;
        }
      }
      return if filtered then Filtered else Out;
    }

    /** A message leaves through exactly one output; an exception is also recorded in the message. */
    method OnMessage(message: Message) returns (ghost v: Verdict)
      requires store.Valid()
      modifies this, message
      ensures IsVerdict(ifPresent, store.sets, old(message.fields), combinations, v)
      ensures out == old(out) + (if v.Out? then [message] else [])
      ensures filteredOut == old(filteredOut) + (if v.Filtered? then [message] else [])
      ensures exceptionOut == old(exceptionOut) + (if v.Exception? then [message] else [])
      ensures !v.Exception? ==> message.fields == old(message.fields)
      ensures v.Exception? ==> exists what ::
                message.fields == Set(old(message.fields), "exceptions", "FilterPresentAbsentStage", Str(what))
    {
      var verdict := Decide(message.fields);
      v := verdict;
      match verdict
      case Out => out := out + [message];
      case Filtered => filteredOut := filteredOut + [message];
      case Exception =>
        var what := "lookup failed";
        message.SetField("exceptions", "FilterPresentAbsentStage", Str(what));
        exceptionOut := exceptionOut + [message];
    }
  }

  /** There is exactly one verdict, and it does not depend on the order of the combinations. */
  lemma VerdictIsUnique(ifPresent: bool, sets: KV.Sets, fields: Fields, a: seq<Combination>, b: seq<Combination>,
                        v: Verdict, w: Verdict)
    requires forall c :: c in a <==> c in b
    requires IsVerdict(ifPresent, sets, fields, a, v) && IsVerdict(ifPresent, sets, fields, b, w)
    ensures v == w
  {
    match v
    case Exception =>
      var c :| c in a && Raises(sets, fields, c);
      assert c in b;
    case Out =>
      assert forall c :: c in b ==> c in a;
    case Filtered =>
      var c :| c in a && Applies(sets, fields, c) && Present(sets, fields, c) != ifPresent;
      assert c in b;
  }

  /** The message holds the name of a set, and a value, in the two fields of a combination. */
  predicate Names(fields: Fields, c: Combination, key: string, value: string) {
    Get(fields, c.0.0, c.0.1) == Found(Str(key)) && Get(fields, c.1.0, c.1.1) == Found(Str(value))
  }

  predicate HasValue(sets: KV.Sets, key: string, value: string) {
    key in sets && KV.Str(value) in sets[key].elements
  }

  predicate HoldsStrings(sets: KV.Sets, key: string) {
    key in sets ==> sets[key].elementType == KV.TString
  }

  lemma NamedCombination(sets: KV.Sets, fields: Fields, c: Combination, key: string, value: string)
    requires Names(fields, c, key, value) && HoldsStrings(sets, key)
    ensures !Raises(sets, fields, c)
    ensures Applies(sets, fields, c) <==> key in sets
    ensures Present(sets, fields, c) <==> HasValue(sets, key, value)
  {}

  /** The verdict is an exception if and only if some combination has a field that is not there or not a
      string, or names a set of another type. */
  lemma ExceptionMeans(ifPresent: bool, sets: KV.Sets, fields: Fields, cs: seq<Combination>, v: Verdict)
    requires IsVerdict(ifPresent, sets, fields, cs, v)
    ensures v.Exception? <==>
      exists c :: c in cs && !exists key, value :: Names(fields, c, key, value) && HoldsStrings(sets, key)
  {
    forall c
      ensures Raises(sets, fields, c) <==> !exists key, value :: Names(fields, c, key, value) && HoldsStrings(sets, key)
    {
      if !Raises(sets, fields, c) {
        assert Names(fields, c, String(fields, c.0.0, c.0.1), String(fields, c.1.0, c.1.1));
      }
    }
  }

  /** Otherwise a whitelist lets the message pass if and only if every value is in its set, and a blacklist
      if and only if no value is, sets that do not exist being ignored. */
  lemma VerdictMeans(ifPresent: bool, sets: KV.Sets, fields: Fields, cs: seq<Combination>,
                     keys: seq<string>, values: seq<string>, v: Verdict)
    requires |cs| == |keys| == |values| && IsVerdict(ifPresent, sets, fields, cs, v)
    requires forall i :: 0 <= i < |cs| ==> Names(fields, cs[i], keys[i], values[i]) && HoldsStrings(sets, keys[i])
    ensures v.Out? || v.Filtered?
    ensures ifPresent ==>
      (v.Out? <==> forall i :: 0 <= i < |cs| && keys[i] in sets ==> HasValue(sets, keys[i], values[i]))
    ensures !ifPresent ==>
      (v.Out? <==> forall i :: 0 <= i < |cs| ==> !HasValue(sets, keys[i], values[i]))
  {
    forall i | 0 <= i < |cs|
      ensures !Raises(sets, fields, cs[i]) && cs[i] in cs
      ensures Applies(sets, fields, cs[i]) <==> keys[i] in sets
      ensures Present(sets, fields, cs[i]) <==> HasValue(sets, keys[i], values[i])
    {
      NamedCombination(sets, fields, cs[i], keys[i], values[i]);
    }
    if v.Filtered? {
      var c :| c in cs && Applies(sets, fields, c) && Present(sets, fields, c) != ifPresent;
      var i :| 0 <= i < |cs| && cs[i] == c;
      assert keys[i] in sets && HasValue(sets, keys[i], values[i]) != ifPresent;
    }
  }
}
