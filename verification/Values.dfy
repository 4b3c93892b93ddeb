/** Values, three-valued truth and the small wrappers shared by every module. */
module Values {

  datatype Option<+T> = None | Some(value: T)

  datatype Result<+T, +E> = Ok(value: T) | Err(error: E)

  /** A column value, a JSON value and a SQL value are one type: `Null` is both
      SQL NULL and JSON null, and an object keeps its keys in insertion order.
      `Error` is the value of an expression whose evaluation aborts the
      statement, such as a scalar subquery that yields two rows. */
  datatype Value =
    | Null
    | Bool(b: bool)
    | Num(n: int)
    | Text(s: string)
    | Arr(items: seq<Value>)
    | Obj(fields: seq<(string, Value)>)
    | Error

  /** SQL truth values. */
  datatype Tri = True | False | Unknown

  function Truth(b: bool): Tri {
    if b then True else False
  }

  function Not3(a: Tri): Tri {
    match a
    case True => False
    case False => True
    case Unknown => Unknown
  }

  function And3(a: Tri, b: Tri): Tri {
    if a.False? || b.False? then False
    else if a.Unknown? || b.Unknown? then Unknown
    else True
  }

  function Or3(a: Tri, b: Tri): Tri {
    Not3(And3(Not3(a), Not3(b)))
  }

  /** `t1 AND t2 AND ...`, read left to right; the empty chain is TRUE. */
  function AndChain(ts: seq<Tri>): Tri {
    if ts == [] then True else And3(AndChain(ts[..|ts| - 1]), ts[|ts| - 1])
  }

  /** `t1 OR t2 OR ...`, read left to right; the empty chain is FALSE. */
  function OrChain(ts: seq<Tri>): Tri {
    if ts == [] then False else Or3(OrChain(ts[..|ts| - 1]), ts[|ts| - 1])
  }

  /** The chain is decided by which truth values occur in it, not by their order. */
  lemma {:induction false} AndChainMeaning(ts: seq<Tri>)
    ensures AndChain(ts).True? <==> forall i :: 0 <= i < |ts| ==> ts[i].True?
    ensures AndChain(ts).False? <==> exists i :: 0 <= i < |ts| && ts[i].False?
  {
    if ts != [] {
      var init := ts[..|ts| - 1];
      AndChainMeaning(init);
      assert forall i :: 0 <= i < |init| ==> init[i] == ts[i];
    }
  }

  lemma {:induction false} OrChainMeaning(ts: seq<Tri>)
    ensures OrChain(ts).True? <==> exists i :: 0 <= i < |ts| && ts[i].True?
    ensures OrChain(ts).False? <==> forall i :: 0 <= i < |ts| ==> ts[i].False?
  {
    if ts != [] {
      var init := ts[..|ts| - 1];
      OrChainMeaning(init);
      assert forall i :: 0 <= i < |init| ==> init[i] == ts[i];
    }
  }
}
