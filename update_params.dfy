/**
 * `get_update_params`: turns the fields of an update request into a DynamoDB
 * `set` expression and the map binding each value placeholder `:name`.
 */
module UpdateParams {
  import opened Json
  import Store

  /** The value placeholder of a field. */
  function Placeholder(k: string): string {
    ":" + k
  }

  lemma PlaceholderInjective(a: string, b: string)
    ensures Placeholder(a) == Placeholder(b) ==> a == b
  {
    assert Placeholder(a)[1..] == a && Placeholder(b)[1..] == b;
  }

  /** One assignment of the expression, ` name = :name`. */
  function Assignment(k: string): string {
    " " + k + " = " + Placeholder(k)
  }

  /** The assignments for the fields of the body, in iteration order. */
  function Assignments(body: Dict): seq<string> {
    seq(Len(body), i requires 0 <= i < Len(body) => Assignment(body.keys[i]))
  }

  /** `"".join(parts)`. */
  function Concat(parts: seq<string>): string {
    if parts == [] then "" else parts[0] + Concat(parts[1..])
  }

  /** `sep.join(parts)`. */
  function Join(sep: string, parts: seq<string>): string {
    if |parts| == 0 then ""
    else if |parts| == 1 then parts[0]
    else parts[0] + sep + Join(sep, parts[1..])
  }

  /** Each part followed by a comma. */
  function Suffixed(parts: seq<string>): seq<string> {
    seq(|parts|, i requires 0 <= i < |parts| => parts[i] + ",")
  }

  /**
   * The expression the update is sent with: `set ` followed by the assignments
   * separated by commas; for a body with no fields, `set` alone.
   */
  function UpdateExpression(body: Dict): string {
    if Len(body) == 0 then "set" else "set " + Join(",", Assignments(body))
  }

  /** The placeholder map: `:name` for every field of the body, bound to that field's value, and nothing else. */
  function UpdateValues(body: Dict): (values: map<string, Value>)
    ensures values.Keys == set k | k in body.keys :: Placeholder(k)
    ensures forall k :: k in body.keys ==> values[Placeholder(k)] == body.bindings[k]
  {
    forall a, b | a in body.keys && b in body.keys && Placeholder(a) == Placeholder(b) ensures a == b {
      PlaceholderInjective(a, b);
    }
    map k | k in body.keys :: Placeholder(k) := body.bindings[k]
  }

  /** Joining the comma-suffixed parts is the comma-separated parts plus one trailing comma. */
  lemma {:induction false} ConcatSuffixed(parts: seq<string>)
    requires |parts| > 0
    ensures Concat(Suffixed(parts)) == Join(",", parts) + ","
  {
    var s := Suffixed(parts);
    assert s[1..] == Suffixed(parts[1..]);
    if |parts| > 1 {
      ConcatSuffixed(parts[1..]);
    }
  }

  /** A comma-separated join ends with its last part: nothing trails it. */
  lemma {:induction false} JoinEndsWithLast(sep: string, parts: seq<string>)
    requires |parts| > 0
    ensures var j := Join(sep, parts); var last := parts[|parts| - 1];
      |last| <= |j| && j[|j| - |last|..] == last
  {
    if |parts| > 1 {
      JoinEndsWithLast(sep, parts[1..]);
    }
  }

  /** Joining `set ` and the comma-suffixed assignments, then dropping the last character, gives the expression. */
  lemma TrimmedJoin(body: Dict)
    ensures var joined := Concat(["set "] + Suffixed(Assignments(body)));
      |joined| > 0 && joined[..|joined| - 1] == UpdateExpression(body)
  {
    var pieces := ["set "] + Suffixed(Assignments(body));
    assert pieces[1..] == Suffixed(Assignments(body));
    if Len(body) > 0 {
      ConcatSuffixed(Assignments(body));
    }
  }

  /** The pieces GetUpdateParams has listed after its first `i` fields. */
  function PiecesUpTo(body: Dict, i: nat): seq<string>
    requires i <= Len(body)
  {
    ["set "] + Suffixed(Assignments(body)[..i])
  }

  /** The placeholder map GetUpdateParams has built after its first `i` fields. */
  function ValuesUpTo(body: Dict, i: nat): map<string, Value>
    requires i <= Len(body)
  {
    forall a, b | a in body.keys[..i] && b in body.keys[..i] && Placeholder(a) == Placeholder(b) ensures a == b {
      PlaceholderInjective(a, b);
    }
    map k | k in body.keys[..i] :: Placeholder(k) := body.bindings[k]
  }

  /** What one turn of the loop in GetUpdateParams adds. */
  lemma LoopStep(body: Dict, i: nat)
    requires i < Len(body)
    ensures var key := body.keys[i];
      && PiecesUpTo(body, i + 1) == PiecesUpTo(body, i) + [" " + key + " = :" + key + ","]
      && ValuesUpTo(body, i + 1) == ValuesUpTo(body, i)[":" + key := body.bindings[key]]
  {
    PiecesStep(body, i);
    ValuesStep(body, i);
  }

  lemma PiecesStep(body: Dict, i: nat)
    requires i < Len(body)
    ensures var key := body.keys[i];
      PiecesUpTo(body, i + 1) == PiecesUpTo(body, i) + [" " + key + " = :" + key + ","]
  {
    var key := body.keys[i];
    assert Suffixed(Assignments(body)[..i + 1]) == Suffixed(Assignments(body)[..i]) + [Assignment(key) + ","];
    assert " " + key + " = :" + key + "," == Assignment(key) + ",";
  }

  lemma ValuesStep(body: Dict, i: nat)
    requires i < Len(body)
    ensures var key := body.keys[i];
      ValuesUpTo(body, i + 1) == ValuesUpTo(body, i)[":" + key := body.bindings[key]]
  {
    var key := body.keys[i];
    assert body.keys[..i + 1] == body.keys[..i] + [key];
    forall k | k in body.keys[..i] ensures Placeholder(k) != Placeholder(key) {
      PlaceholderInjective(k, key);
    }
  }

  /** Once the loop has seen every field, it has listed every piece and built the whole placeholder map. */
  lemma WholePrefix(body: Dict)
    ensures PiecesUpTo(body, Len(body)) == ["set "] + Suffixed(Assignments(body))
    ensures ValuesUpTo(body, Len(body)) == UpdateValues(body)
  {
    assert body.keys[..Len(body)] == body.keys;
    assert Assignments(body)[..Len(body)] == Assignments(body);
  }

  /**
   * get_update_params: builds the pieces `set ` and ` name = :name,` in a list,
   * joins them and drops the last character, so the trailing comma goes (or,
   * for an empty body, the space after `set`).
   */
  method GetUpdateParams(body: Dict) returns (expression: string, values: map<string, Value>)
    ensures expression == UpdateExpression(body)
    ensures values == UpdateValues(body)
  {
    var pieces := ["set "];
    values := map[];
    for i := 0 to Len(body)
      invariant pieces == PiecesUpTo(body, i)
      invariant values == ValuesUpTo(body, i)
    {
      var key := body.keys[i];
      var val := body.bindings[key];
      LoopStep(body, i);
      pieces := pieces + [" " + key + " = :" + key + ","];
      values := values[":" + key := val];
    }
    WholePrefix(body);
    TrimmedJoin(body);
    var joined := Concat(pieces);
    expression := joined[..|joined| - 1];
  }

  /** For a body with fields, the expression ends with the last field's placeholder: no trailing comma. */
  lemma ExpressionEndsWithLastPlaceholder(body: Dict)
    requires Len(body) > 0
    ensures var e := UpdateExpression(body); var p := Placeholder(body.keys[Len(body) - 1]);
      |p| <= |e| && e[|e| - |p|..] == p
  {
    var parts := Assignments(body);
    JoinEndsWithLast(",", parts);
    var e := UpdateExpression(body);
    var last := parts[|parts| - 1];
    var p := Placeholder(body.keys[Len(body) - 1]);
    assert e[|e| - |last|..] == last;
    assert last[|last| - |p|..] == p;
    assert e[|e| - |p|..] == e[|e| - |last|..][|last| - |p|..];
  }

  /** A body with one field gives `set`, then that field's assignment with its own leading space: two spaces after `set`. */
  lemma SingleFieldExpression(body: Dict)
    requires Len(body) == 1
    ensures var k := body.keys[0]; UpdateExpression(body) == "set  " + k + " = :" + k
  {
    var k := body.keys[0];
    assert Assignments(body) == [Assignment(k)];
  }

  /** A key that is not in the body has no placeholder in the map. */
  lemma NoPlaceholderForAbsentKey(body: Dict, k: string)
    requires k !in body.keys
    ensures Placeholder(k) !in UpdateValues(body)
  {
    forall x | x in body.keys ensures Placeholder(x) != Placeholder(k) {
      PlaceholderInjective(x, k);
    }
  }

  /** Read back by the store, the placeholder map assigns exactly the body's fields their values. */
  lemma ValuesAssignBody(body: Dict)
    ensures Store.Assigned(UpdateValues(body)) == body.bindings
  {
    var values := UpdateValues(body);
    var attributes := Store.Assigned(values);
    forall a | a in body.bindings ensures a in attributes && attributes[a] == body.bindings[a] {
      assert Placeholder(a) in values && Store.IsPlaceholder(Placeholder(a));
      assert Placeholder(a)[1..] == a;
    }
    forall a | a in attributes ensures a in body.bindings {
      var k :| k in body.keys && Placeholder(k) == ":" + a;
      PlaceholderInjective(k, a);
    }
  }
}
