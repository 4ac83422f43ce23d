/**
 * The Python values and exceptions the action-group handler works with.
 *
 * An inbound event is decoded JSON, so every value the handler touches is a
 * `Json`: `None`, a boolean, an integer, a string, a list or a dict. A dict
 * is kept as its ordered list of (key, value) pairs, as Python keeps it.
 * Exceptions carry what `str(e)` prints for them; a call either returns a
 * value or raises (`Outcome`).
 */
module Runtime {
  import opened Text

  datatype Option<+T> = None | Some(value: T)

  datatype Json =
    | JNull
    | JBool(b: bool)
    | JInt(i: int)
    | JStr(s: string)
    | JList(items: seq<Json>)
    | JDict(fields: seq<(string, Json)>)

  /** `type(v).__name__`. */
  function TypeName(v: Json): string
  {
    match v
    case JNull => "NoneType"
    case JBool(_) => "bool"
    case JInt(_) => "int"
    case JStr(_) => "str"
    case JList(_) => "list"
    case JDict(_) => "dict"
  }

  /** `bool(v)`: `None`, `False`, `0` and empty strings, lists and dicts are falsy. */
  predicate Truthy(v: Json)
  {
    match v
    case JNull => false
    case JBool(b) => b
    case JInt(i) => i != 0
    case JStr(s) => s != ""
    case JList(items) => items != []
    case JDict(fields) => fields != []
  }

  /** The entry for `key` in a dict's pairs: the last pair with that key, as a later duplicate overwrites an earlier one. */
  function Lookup(fields: seq<(string, Json)>, key: string): Option<Json>
  {
    if fields == [] then None
    else if fields[|fields| - 1].0 == key then Some(fields[|fields| - 1].1)
    else Lookup(fields[..|fields| - 1], key)
  }

  /** The pair at `i` gives the entry when no later pair has the same key. */
  lemma {:induction false} LookupAt(fields: seq<(string, Json)>, i: nat)
    requires i < |fields| && forall j :: i < j < |fields| ==> fields[j].0 != fields[i].0
    ensures Lookup(fields, fields[i].0) == Some(fields[i].1)
  {
    if i < |fields| - 1 {
      var init := fields[..|fields| - 1];
      assert init[i] == fields[i];
      LookupAt(init, i);
    }
  }

  /** A key no pair holds has no entry, and a key some pair holds has one. */
  lemma {:induction false} LookupAbsent(fields: seq<(string, Json)>, key: string)
    ensures Lookup(fields, key).None? <==> forall k :: 0 <= k < |fields| ==> fields[k].0 != key
  {
    if fields != [] && fields[|fields| - 1].0 != key {
      var init := fields[..|fields| - 1];
      LookupAbsent(init, key);
      assert forall k :: 0 <= k < |init| ==> init[k] == fields[k];
    }
  }

  /** Appending a pair overrides the entry for its key and leaves the others alone. */
  lemma LookupAppend(fields: seq<(string, Json)>, k: string, v: Json, key: string)
    ensures Lookup(fields + [(k, v)], key) == if k == key then Some(v) else Lookup(fields, key)
  {
    assert (fields + [(k, v)])[..|fields|] == fields;
  }

  /** `d.get(key)`, on a dict's pairs: `None` when the key is absent. */
  function GetOrNone(fields: seq<(string, Json)>, key: string): Json
  {
    match Lookup(fields, key)
    case Some(v) => v
    case None => JNull
  }

  datatype Exception =
    | ValueError(message: string)
    | AttributeError(typeName: string, attribute: string)
    | NotIterable(typeName: string)
    | UnboundLocal(variable: string)
      /** Raised inside a client library the model does not see; only its text is known. */
    | External(text: string)

  /** `str(e)`, with the texts CPython 3.12 gives its built-in exceptions. */
  function ExcText(e: Exception): string
  {
    match e
    case ValueError(m) => m
    case AttributeError(t, a) => "'" + t + "' object has no attribute '" + a + "'"
    case NotIterable(t) => "'" + t + "' object is not iterable"
    case UnboundLocal(n) => "cannot access local variable '" + n + "' where it is not associated with a value"
    case External(t) => t
  }

  /** A call that returns a value or raises an exception. */
  datatype Outcome<+T> = Returned(value: T) | Raised(exc: Exception)

  /** `d.get(key, default)`, which raises `AttributeError` when `d` is not a dict. */
  function DictGet(d: Json, key: string, default: Json): (r: Outcome<Json>)
    ensures r.Raised? <==> !d.JDict?
  {
    if !d.JDict? then Raised(AttributeError(TypeName(d), "get"))
    else match Lookup(d.fields, key)
      case Some(v) => Returned(v)
      case None => Returned(default)
  }

  /** `repr(v)`. */
  function Repr(v: Json): string
    decreases v
  {
    match v
    case JNull => "None"
    case JBool(b) => if b then "True" else "False"
    case JInt(i) => IntToString(i)
    case JStr(s) => ReprStr(s)
    case JList(items) =>
      "[" + Join(", ", seq(|items|, k requires 0 <= k < |items| => Repr(items[k]))) + "]"
    case JDict(fields) =>
      "{" + Join(", ", seq(|fields|, k requires 0 <= k < |fields| => ReprStr(fields[k].0) + ": " + Repr(fields[k].1))) + "}"
  }

  /** A dict with one entry is shown as `{key: value}`, the key by its `repr`. */
  lemma ReprSingleEntry(key: string, v: Json)
    ensures Repr(JDict([(key, v)])) == "{" + (ReprStr(key) + ": " + Repr(v)) + "}"
  {
    var fields := [(key, v)];
    var parts := seq(|fields|, k requires 0 <= k < |fields| => ReprStr(fields[k].0) + ": " + Repr(fields[k].1));
    assert parts == [ReprStr(key) + ": " + Repr(v)];
  }

  /** `str(v)`, which is also what an f-string writes for `{v}`. */
  function Show(v: Json): string
  {
    if v.JStr? then v.s else Repr(v)
  }
}
