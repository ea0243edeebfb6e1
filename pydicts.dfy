/**
 * Python dictionaries as heap objects, so that the aliasing of nested dictionaries made
 * by `dict.copy()` (a shallow copy) and `setdefault` is visible: a nested dictionary is a
 * reference, and two entries holding the same reference see each other's updates.
 */
module PyDicts {

  /** A value in a configuration document. Lists are kept as values; dictionaries are objects. */
  datatype Value =
    | NoneValue
    | Bool(b: bool)
    | Int(i: int)
    | Real(r: real)
    | Text(s: string)
    | List(items: seq<Value>)
    | Ref(dict: Dict)

  /** Python truthiness of a value. */
  predicate Truthy(v: Value)
    reads if v.Ref? then {v.dict} else {}
  {
    match v
    case NoneValue => false
    case Bool(b) => b
    case Int(i) => i != 0
    case Real(r) => r != 0.0
    case Text(s) => s != ""
    case List(items) => items != []
    case Ref(d) => d.entries != map[]
  }

  class Dict {
    var entries: map<string, Value>

    constructor(entries: map<string, Value>)
      ensures this.entries == entries
    {
      this.entries := entries;
    }

    /** `d.get(key, default)`. */
    function Get(key: string, default: Value): (v: Value)
      reads this
      ensures key in entries ==> v == entries[key]
      ensures key !in entries ==> v == default
    {
      if key in entries then entries[key] else default
    }

    /** `d.setdefault(key, default)`: insert only when absent, and return what the key now holds. */
    method SetDefault(key: string, default: Value) returns (v: Value)
      modifies this
      ensures key in old(entries) ==> entries == old(entries)
      ensures key !in old(entries) ==> entries == old(entries)[key := default]
      ensures key in entries && v == entries[key]
    {
      if key !in entries {
        entries := entries[key := default];
      }
      v := entries[key];
    }

    /** `d[key] = value`. */
    method Set(key: string, value: Value)
      modifies this
      ensures entries == old(entries)[key := value]
    {
      entries := entries[key := value];
    }

    /** `d.copy()`: a new dictionary with the same entries, so nested dictionaries are shared. */
    method Copy() returns (c: Dict)
      ensures fresh(c) && c.entries == entries
    {
      c := new Dict(entries);
    }
  }
}
