/**
  JSON values, and the explicit-stack walk that bounds how deeply a tool payload may nest.
  An object is its list of key/value pairs in insertion order.
*/
module Json {
  datatype Json =
    | Null
    | Bool(b: bool)
    | Num(n: real)
    | Str(s: string)
    | Arr(items: seq<Json>)
    | Obj(fields: seq<(string, Json)>)

  const MAX_TOOL_JSON_DEPTH := 32

  function Children(j: Json): (cs: seq<Json>)
    ensures forall c :: c in cs ==> c < j
  {
    match j
    case Arr(items) => items
    case Obj(fields) => seq(|fields|, i requires 0 <= i < |fields| => fields[i].1)
    case _ => []
  }

  /** Nesting depth: a scalar or an empty container has depth one. */
  function Depth(j: Json): (d: nat)
    ensures d >= 1
    decreases j, |Children(j)| + 1
  {
    1 + DeepestChild(j, |Children(j)|)
  }

  function DeepestChild(j: Json, n: nat): nat
    requires n <= |Children(j)|
    decreases j, n
  {
    if n == 0 then 0
    else
      var d := Depth(Children(j)[n - 1]);
      var before := DeepestChild(j, n - 1);
      if d > before then d else before
  }

  /** A value fits in n levels exactly when everything in it fits in one less; what holds nothing fits in one. */
  lemma DepthIs(j: Json, n: nat)
    ensures Depth(j) <= n <==>
              n >= 1 && match j
                        case Arr(items) => forall i :: 0 <= i < |items| ==> Depth(items[i]) <= n - 1
                        case Obj(fields) => forall i :: 0 <= i < |fields| ==> Depth(fields[i].1) <= n - 1
                        case _ => true
  {
    if n >= 1 {
      DeepestChildBound(j, |Children(j)|, n - 1);
      assert forall i :: 0 <= i < |Children(j)| ==> Children(j)[i] == if j.Arr? then j.items[i] else j.fields[i].1;
    }
  }

  function Nodes(j: Json): nat
    decreases j, |Children(j)| + 1
  {
    1 + NodesBelow(j, |Children(j)|)
  }

  function NodesBelow(j: Json, n: nat): nat
    requires n <= |Children(j)|
    decreases j, n
  {
    if n == 0 then 0 else NodesBelow(j, n - 1) + Nodes(Children(j)[n - 1])
  }

  lemma NodesSplit(j: Json)
    ensures Nodes(j) == 1 + NodesBelow(j, |Children(j)|)
  {
  }

  type Frame = (Json, nat)

  function NodesLeft(stack: seq<Frame>): nat {
    if stack == [] then 0
    else NodesLeft(stack[..|stack| - 1]) + Nodes(stack[|stack| - 1].0)
  }

  function Frames(children: seq<Json>, depth: nat): seq<Frame> {
    seq(|children|, i requires 0 <= i < |children| => (children[i], depth))
  }

  lemma {:induction false} DeepestChildBound(j: Json, n: nat, bound: int)
    requires n <= |Children(j)| && 0 <= bound
    ensures DeepestChild(j, n) <= bound <==>
              forall i :: 0 <= i < n ==> Depth(Children(j)[i]) <= bound
  {
    hide Depth, Children;
    if n > 0 {
      DeepestChildBound(j, n - 1, bound);
      assert DeepestChild(j, n) <= bound <==>
               DeepestChild(j, n - 1) <= bound && Depth(Children(j)[n - 1]) <= bound;
    }
  }

  lemma {:induction false} PushingChildrenSpendsOneNode(stack: seq<Frame>, j: Json, depth: nat, n: nat)
    requires n <= |Children(j)|
    ensures NodesLeft(stack + Frames(Children(j), depth)[..n]) == NodesLeft(stack) + NodesBelow(j, n)
  {
    hide Nodes, Children;
    var pushed := Frames(Children(j), depth);
    if n == 0 {
      assert stack + pushed[..0] == stack;
    } else {
      PushingChildrenSpendsOneNode(stack, j, depth, n - 1);
      var longer := stack + pushed[..n];
      assert longer[..|longer| - 1] == stack + pushed[..n - 1];
    }
  }

  predicate FrameFits(frame: Frame) {
    frame.1 - 1 + Depth(frame.0) <= MAX_TOOL_JSON_DEPTH
  }

  /** Popping a shallow enough frame and pushing its children keeps the verdict of the stack. */
  lemma ExpandingKeepsTheVerdict(rest: seq<Frame>, j: Json, depth: nat)
    requires depth <= MAX_TOOL_JSON_DEPTH
    ensures (forall f :: f in rest + Frames(Children(j), depth + 1) ==> FrameFits(f)) <==>
              (forall f :: f in rest ==> FrameFits(f)) && FrameFits((j, depth))
  {
    hide DeepestChild, Children;
    var pushed := Frames(Children(j), depth + 1);
    DeepestChildBound(j, |Children(j)|, MAX_TOOL_JSON_DEPTH - depth);
    assert forall i :: 0 <= i < |pushed| ==> pushed[i] in rest + pushed;
    assert forall f :: f in rest ==> f in rest + pushed;
    if forall f :: f in rest + pushed ==> FrameFits(f) {
      forall i | 0 <= i < |pushed| ensures Depth(Children(j)[i]) <= MAX_TOOL_JSON_DEPTH - depth {
        assert FrameFits(pushed[i]);
      }
    }
  }

  /** The iterative walk accepts exactly the values whose recursive depth is within the bound. */
  method ValidateComplexity(value: Json) returns (ok: bool)
    ensures ok <==> Depth(value) <= 32
  {
    hide Depth, DeepestChild, Nodes, NodesBelow, Children;
    var stack: seq<Frame> := [(value, 1)];
    assert FrameFits(stack[0]) <==> Depth(value) <= MAX_TOOL_JSON_DEPTH;
    while stack != []
      invariant Depth(value) <= MAX_TOOL_JSON_DEPTH <==> forall f :: f in stack ==> FrameFits(f)
      decreases NodesLeft(stack)
    {
      var (current, depth) := stack[|stack| - 1];
      var rest := stack[..|stack| - 1];
      assert stack == rest + [(current, depth)];
      if depth > MAX_TOOL_JSON_DEPTH {
        assert !FrameFits((current, depth));
        return false;
      }
      var children := Children(current);
      NodesSplit(current);
      PushingChildrenSpendsOneNode(rest, current, depth + 1, |children|);
      ExpandingKeepsTheVerdict(rest, current, depth);
      assert Frames(children, depth + 1)[..|children|] == Frames(children, depth + 1);
      stack := rest + Frames(children, depth + 1);
    }
    return true;
  }
}
