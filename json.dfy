/** The Python values the agents exchange: parsed JSON (plus the odd non-JSON
    object), dictionary lookup with `.get`, truthiness, `str()`, iteration and
    `len()`, and the exceptions that travel between the layers. */
module PyValue {
  import opened Base
  import opened PyText

  /** A JSON-like Python value. Dictionaries keep their insertion order and are
      read by their first entry with a given key (a Python dict has one).
      `JFloat` carries the text `str()` prints for it; `JOther` stands for any
      non-JSON object, with its type name and its `str()`. */
  datatype Json =
    | JNull
    | JBool(b: bool)
    | JInt(i: int)
    | JFloat(r: real, text: string)
    | JStr(s: string)
    | JArr(items: seq<Json>)
    | JObj(members: seq<(string, Json)>)
    | JOther(typeName: string, text: string)

  /** The value stored under `key`, if any. */
  function Lookup(members: seq<(string, Json)>, key: string): (r: Option<Json>)
    ensures r.None? <==> forall i :: 0 <= i < |members| ==> members[i].0 != key
    decreases |members|
  {
    if |members| == 0 then None
    else if members[0].0 == key then Some(members[0].1)
    else Lookup(members[1..], key)
  }

  /** What `Lookup` finds is the value of the first member with that key. */
  lemma {:induction false} LookupIsFirstMatch(members: seq<(string, Json)>, key: string)
    requires Lookup(members, key).Some?
    ensures exists i :: 0 <= i < |members| && members[i] == (key, Lookup(members, key).value) &&
                        forall k :: 0 <= k < i ==> members[k].0 != key
    decreases |members|
  {
    if members[0].0 != key {
      var v := Lookup(members, key).value;
      LookupIsFirstMatch(members[1..], key);
      var i :| 0 <= i < |members[1..]| && members[1..][i] == (key, v) &&
               forall k :: 0 <= k < i ==> members[1..][k].0 != key;
      assert members[i + 1] == (key, v);
      forall k | 0 <= k < i + 1 ensures members[k].0 != key {
        if k > 0 { assert members[k] == members[1..][k - 1]; }
      }
    }
  }

  /** `key in d` for a dictionary `d`. */
  predicate HasKey(d: Json, key: string) {
    d.JObj? && Lookup(d.members, key).Some?
  }

  /** `d.get(key, default)` for a dictionary `d`. */
  function Get(d: Json, key: string, default: Json): Json
    requires d.JObj?
  {
    match Lookup(d.members, key)
    case Some(v) => v
    case None => default
  }

  /** Python truthiness: `None`, `False`, zero and empty containers are false. */
  predicate Truthy(j: Json) {
    match j
    case JNull => false
    case JBool(b) => b
    case JInt(i) => i != 0
    case JFloat(r, _) => r != 0.0
    case JStr(s) => s != ""
    case JArr(items) => items != []
    case JObj(members) => members != []
    case JOther(_, _) => true
  }

  /** `type(j).__name__`. */
  function TypeName(j: Json): string {
    match j
    case JNull => "NoneType"
    case JBool(_) => "bool"
    case JInt(_) => "int"
    case JFloat(_, _) => "float"
    case JStr(_) => "str"
    case JArr(_) => "list"
    case JObj(_) => "dict"
    case JOther(t, _) => t
  }

  /** `str(j)`. */
  function PyStr(j: Json): string
    decreases j, 0
  {
    match j
    case JNull => "None"
    case JBool(b) => if b then "True" else "False"
    case JInt(i) => IntToString(i)
    case JFloat(_, text) => text
    case JStr(s) => s
    case JArr(items) =>
      "[" + Join(seq(|items|, k requires 0 <= k < |items| => Repr(items[k])), ", ") + "]"
    case JObj(members) =>
      "{" + Join(seq(|members|, k requires 0 <= k < |members| =>
                       "'" + members[k].0 + "': " + Repr(members[k].1)), ", ") + "}"
    case JOther(_, text) => text
  }

  /** `repr(j)`: what `str()` prints for a value nested in a container. */
  function Repr(j: Json): string
    decreases j, 1
  {
    if j.JStr? then "'" + j.s + "'" else PyStr(j)
  }

  /** What a `for` loop over `j` visits: a list's items, a string's characters,
      a dictionary's keys; `None` when Python raises "object is not iterable". */
  function IterItems(j: Json): (r: Option<seq<Json>>)
    ensures j.JArr? ==> r == Some(j.items)
    ensures r.Some? <==> j.JArr? || j.JStr? || j.JObj?
  {
    match j
    case JArr(items) => Some(items)
    case JStr(s) => Some(seq(|s|, k requires 0 <= k < |s| => JStr([s[k]])))
    case JObj(members) => Some(seq(|members|, k requires 0 <= k < |members| => JStr(members[k].0)))
    case _ => None
  }

  /** `len(j)`, or `None` when Python raises "object has no len()". */
  function Len(j: Json): Option<nat> {
    match j
    case JArr(items) => Some(|items|)
    case JStr(s) => Some(|s|)
    case JObj(members) => Some(|members|)
    case _ => None
  }

  /** An exception: an HTTP error raised by an endpoint or any other Python
      exception, with the text `str()` gives for it. */
  datatype Exc = HttpExc(status: nat, detail: string) | PyExc(msg: string)

  /** `str(e)`; an HTTP exception prints as "<status>: <detail>". */
  function ExcText(e: Exc): string {
    match e
    case HttpExc(status, detail) => NatToString(status) + ": " + detail
    case PyExc(msg) => msg
  }

  /** The AttributeError raised by calling `.get` on a value that is not a dictionary. */
  function NoGetMethod(j: Json): Exc {
    PyExc("'" + TypeName(j) + "' object has no attribute 'get'")
  }

  /** The TypeError raised by iterating over a value that is not iterable. */
  function NotIterable(j: Json): Exc {
    PyExc("'" + TypeName(j) + "' object is not iterable")
  }

  /** The TypeError raised by `len()` on a value that has no length. */
  function NoLen(j: Json): Exc {
    PyExc("object of type '" + TypeName(j) + "' has no len()")
  }

  /** How a request to the language model can fail: a `requests` exception, or
      any other error while reading the reply; each carries the exception's text. */
  datatype CallFailure = RequestFailed(text: string) | Unexpected(text: string)

  /** `d[key] = v` on a dictionary's members: the value of an existing key is
      replaced where it stands, a new key goes at the end. */
  function SetKey(members: seq<(string, Json)>, key: string, v: Json): seq<(string, Json)>
    decreases |members|
  {
    if |members| == 0 then [(key, v)]
    else if members[0].0 == key then [(key, v)] + members[1..]
    else [members[0]] + SetKey(members[1..], key, v)
  }

  /** After `d[key] = v`, `key` reads `v` and every other key reads what it read
      before; the keys keep their order, a new key coming last. */
  lemma {:induction false} SetKeySpec(members: seq<(string, Json)>, key: string, v: Json)
    ensures Lookup(SetKey(members, key, v), key) == Some(v)
    ensures forall other :: other != key ==> Lookup(SetKey(members, key, v), other) == Lookup(members, other)
    ensures Lookup(members, key).Some? ==> |SetKey(members, key, v)| == |members|
    ensures Lookup(members, key).None? ==> SetKey(members, key, v) == members + [(key, v)]
    decreases |members|
  {
    if |members| > 0 && members[0].0 != key {
      SetKeySpec(members[1..], key, v);
      assert members == [members[0]] + members[1..];
    }
  }

  /** The 400 an agent's `execute` raises for a capability it does not know. */
  function UnknownCapability(capability: Json): Exc {
    HttpExc(400, "Unknown capability: " + PyStr(capability))
  }

  /** The 500 the outer handler of an agent's `execute` turns any exception into. */
  function ExecutionFailed(e: Exc): Exc {
    HttpExc(500, "Execution failed: " + ExcText(e))
  }
}
