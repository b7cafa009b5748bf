/**
 * Python values as they flow through the extractor: whatever `json.loads`
 * returns, plus the strings and `None`s the extractors put in their dicts.
 */
module Json {

  datatype Json =
    | Null
    | Bool(b: bool)
    | Int(i: int)
    | Float(f: real)
    | Str(s: string)
    | Arr(items: seq<Json>)
    | Obj(fields: map<string, Json>)

  /** Python truthiness: None, False, 0, 0.0, "", [] and {} are falsy. */
  predicate Truthy(v: Json)
  {
    match v
    case Null => false
    case Bool(b) => b
    case Int(i) => i != 0
    case Float(f) => f != 0.0
    case Str(s) => s != ""
    case Arr(items) => items != []
    case Obj(fields) => fields != map[]
  }

  /** `d.get(key)`: the value, or None when the key is absent. */
  function Get(d: map<string, Json>, key: string): Json
  {
    if key in d then d[key] else Null
  }

  /** `d.get(key)` on a dict whose values are all strings. */
  function GetStr(d: map<string, string>, key: string): Json
  {
    if key in d then Str(d[key]) else Null
  }

  /** `v or None`: a truthy value is kept, a falsy one becomes None. */
  function OrNone(v: Json): (r: Json)
    ensures Truthy(v) ==> r == v
    ensures !Truthy(v) ==> r == Null
  {
    if Truthy(v) then v else Null
  }

  /** Index `i` holds the first truthy operand of `operands`. */
  ghost predicate FirstTruthyAt(operands: seq<Json>, i: int)
  {
    && 0 <= i < |operands|
    && Truthy(operands[i])
    && forall j :: 0 <= j < i ==> !Truthy(operands[j])
  }

  /**
   * `r` is what the Python chain `o0 or o1 or ... or on` evaluates to: the
   * first truthy operand, or the last operand when none is truthy.
   */
  ghost predicate IsOrOf(r: Json, operands: seq<Json>)
    requires operands != []
  {
    && (forall i :: FirstTruthyAt(operands, i) ==> r == operands[i])
    && ((forall i :: 0 <= i < |operands| ==> !Truthy(operands[i])) ==> r == operands[|operands| - 1])
  }

  /** Evaluates `o0 or o1 or ... or on`; the result is one of the operands. */
  function OrChain(operands: seq<Json>): (r: Json)
    requires operands != []
    ensures IsOrOf(r, operands)
    ensures r in operands
    ensures Truthy(r) <==> exists i :: 0 <= i < |operands| && Truthy(operands[i])
  {
    if |operands| == 1 || Truthy(operands[0]) then operands[0]
    else
      var r := OrChain(operands[1..]);
      assert forall i :: FirstTruthyAt(operands, i) ==> i > 0 && FirstTruthyAt(operands[1..], i - 1);
      r
  }
}
