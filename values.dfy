/** JSON-like values exchanged between the processes of the uploader, and the
    replies that travel over its IPC channels. */
module Values {

  datatype Option<+T> = None | Some(value: T) {
    function GetOr(default: T): T {
      match this
      case Some(v) => v
      case None => default
    }
  }

  /** A value as `JSON.parse` produces it (numbers restricted to integers). */
  datatype Value =
    | Null
    | Bool(b: bool)
    | Num(n: int)
    | Str(s: string)
    | Obj(fields: map<string, Value>)

  /** JavaScript truthiness of a value. */
  predicate Truthy(v: Value) {
    match v
    case Null => false
    case Bool(b) => b
    case Num(n) => n != 0
    case Str(s) => s != ""
    case Obj(_) => true
  }

  /** Truthiness of `o[k]`, where a missing key reads as `undefined`. */
  predicate TruthyAt(o: map<string, Value>, k: string) {
    k in o && Truthy(o[k])
  }

  /** `o[k]` as the optional value a lookup gives (`None` for `undefined`). */
  function Lookup(o: map<string, Value>, k: string): (r: Option<Value>)
    ensures r.Some? <==> k in o
    ensures r.Some? ==> r.value == o[k]
  {
    if k in o then Some(o[k]) else None
  }

  /** An object the program passes by reference and changes in place. */
  class JsObject {
    var entries: map<string, Value>

    constructor (entries: map<string, Value>)
      ensures this.entries == entries
    {
      this.entries := entries;
    }
  }

  /** A callback argument: a function, known by an identifier, or any other value. */
  datatype Callback = Function(id: nat) | NotFunction(v: Value)

  /** One `name=value` pair of a URL query, before percent-encoding. */
  datatype Param = Param(name: string, value: string)

  /** The names of a query, in order. */
  function Names(query: seq<Param>): (r: seq<string>)
    ensures |r| == |query|
    ensures forall i :: 0 <= i < |query| ==> r[i] == query[i].name
  {
    seq(|query|, i requires 0 <= i < |query| => query[i].name)
  }

  /** The parameter names of an LdA upload query, in the order they are appended. */
  const QueryNames: seq<string> :=
    ["user", "pass", "micall", "sucall", "banda", "modo", "fecha", "hora", "rst", "x_qslMSG"]

  /** An LdA upload query, in the order of its `append` calls. */
  function Query(user: string, pass: string, micall: string, sucall: string, banda: string, modo: string,
                 fecha: string, hora: string, rst: string, message: string): (q: seq<Param>)
    ensures Names(q) == QueryNames
    ensures q[0].value == user && q[1].value == pass && q[2].value == micall && q[3].value == sucall
            && q[4].value == banda && q[5].value == modo && q[6].value == fecha && q[7].value == hora
            && q[8].value == rst && q[9].value == message
  {
    var q := [Param("user", user)] + [Param("pass", pass)] + [Param("micall", micall)]
             + [Param("sucall", sucall)] + [Param("banda", banda)] + [Param("modo", modo)]
             + [Param("fecha", fecha)] + [Param("hora", hora)] + [Param("rst", rst)]
             + [Param("x_qslMSG", message)];
    assert forall i :: 0 <= i < 10 ==> Names(q)[i] == QueryNames[i];
    q
  }

  /** What the main process answers on the 'save-config' channel. */
  datatype SaveReply =
    | Saved(config: map<string, Value>, message: string, updatedFields: seq<string>, softwareChanged: bool)
    | Refused(error: string)
}
