/** JSON values as Python holds them after parsing: objects are insertion-ordered
    dictionaries, and 1 and 1.0 are the same number. */
module Json {
  import opened Dict

  datatype Json =
    | Null
    | Bool(b: bool)
    | Num(n: real)
    | Str(s: string)
    | Arr(items: seq<Json>)
    | Obj(fields: seq<Entry<string, Json>>)

  type Fields = seq<Entry<string, Json>>

  /** Values directly inside a container, in order. */
  function Children(v: Json): (c: seq<Json>)
    ensures forall i :: 0 <= i < |c| ==> c[i] < v
    ensures v.Obj? ==> |c| == |v.fields| && forall i :: 0 <= i < |c| ==> c[i] == v.fields[i].value
    ensures v.Arr? ==> c == v.items
  {
    match v
    case Arr(items) => items
    case Obj(fields) => seq(|fields|, i requires 0 <= i < |fields| => fields[i].value)
    case _ => []
  }

  /** Number of values in a tree, itself included. */
  function Nodes(v: Json): (n: nat)
    decreases v, |Children(v)| + 1
  {
    1 + NodesFrom(v, 0)
  }

  function NodesFrom(v: Json, k: nat): nat
    requires k <= |Children(v)|
    decreases v, |Children(v)| - k
  {
    if k == |Children(v)| then 0 else Nodes(Children(v)[k]) + NodesFrom(v, k + 1)
  }
}
