/** A message: fields in named groups, each holding a value of one of a few types. */
module DynamicMessage {

  datatype Value = Int32(i32: int) | Int64(i64: int) | Str(str: string) | Pointer

  type Fields = map<string, map<string, Value>>

  /** What reading a field gives: its value, or the exception thrown instead. */
  datatype Lookup = Found(value: Value) | NoSuchGroup | NoSuchName

  function Get(fields: Fields, group: string, name: string): (l: Lookup)
    ensures l.NoSuchGroup? <==> group !in fields
    ensures l.NoSuchName? <==> group in fields && name !in fields[group]
    ensures l.Found? ==> group in fields && name in fields[group] && l.value == fields[group][name]
  {
    if group !in fields then NoSuchGroup
    else if name !in fields[group] then NoSuchName
    else Found(fields[group][name])
  }

  predicate HasString(fields: Fields, group: string, name: string) {
    var l := Get(fields, group, name);
    l.Found? && l.value.Str?
  }

  function String(fields: Fields, group: string, name: string): string
    requires HasString(fields, group, name)
  {
    fields[group][name].str
  }

  function Set(fields: Fields, group: string, name: string, value: Value): (fields': Fields)
    ensures Get(fields', group, name) == Found(value)
    ensures forall g, n :: (g, n) != (group, name) && Get(fields, g, n).Found? ==>
              Get(fields', g, n) == Get(fields, g, n)
    ensures forall g, n :: (g, n) != (group, name) && Get(fields', g, n).Found? ==>
              Get(fields', g, n) == Get(fields, g, n)
  {
    var inner := if group in fields then fields[group] else map[];
    fields[group := inner[name := value]]
  }

  /** A string is read exactly where a string was set. */
  lemma StringsAreRead(fields: Fields, group: string, name: string, value: string)
    ensures HasString(fields, group, name) && String(fields, group, name) == value <==>
              Get(fields, group, name) == Found(Str(value))
  {}

  class Message {
    var fields: Fields

    constructor (fields: Fields)
      ensures this.fields == fields
    {
      this.fields := fields;
    }

    method SetField(group: string, name: string, value: Value)
      modifies this
      ensures fields == Set(old(fields), group, name, value)
    {
      if group !in fields {
        fields := fields[group := map[]];
      }
      fields := fields[group := fields[group][name := value]];
    }
  }
}
