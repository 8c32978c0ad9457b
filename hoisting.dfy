/** The `var`-hoisting collector of src/a.js (`getElevationVariableList`).
    A walk over a Babel tree keeps a count of the function-like nodes it is
    inside; the enter callback pushes `var` declarations met while that count
    is zero.  The walk is a class whose methods are the two callbacks and the
    recursive traversal; `Collected` is the function it is proved against. */
module Hoisting {
  import opened Wrappers
  import opened Babel

  /** `functionTypeList`: the node types that open a function scope. */
  const FunctionTypes: seq<string> := ["FunctionDeclaration", "FunctionExpression", "ArrowFunctionExpression"]

  /** A node whose `type` is listed in `FunctionTypes`. */
  predicate IsFunctionLike(n: BNode)
  {
    TypeName(n) in FunctionTypes
  }

  predicate IsVarDeclaration(n: BNode)
  {
    n.VariableDeclaration? && n.kind == "var"
  }

  predicate IsFunctionDeclaration(n: BNode)
  {
    TypeName(n) == "FunctionDeclaration"
  }

  /** What the enter callback pushes for `n` when no function encloses it.
      `hoistFunctions` selects the callback: false is the callback as written,
      where a function-like node returns before any push; true also pushes a
      function declaration, as the callback's last test means to. */
  function Pushed(n: BNode, hoistFunctions: bool): seq<BNode>
  {
    if IsFunctionLike(n) then
      (if hoistFunctions && IsFunctionDeclaration(n) then [n] else [])
    else if IsVarDeclaration(n) then [n]
    else []
  }

  /** The nodes pushed while `n` and its subtree are walked outside every function. */
  function Collected(n: BNode, hoistFunctions: bool): seq<BNode>
    decreases n
  {
    if IsFunctionLike(n) then Pushed(n, hoistFunctions)
    else Pushed(n, hoistFunctions) + CollectedList(Children(n), n, hoistFunctions)
  }

  /** The nodes pushed while the siblings `ns` are walked in order. */
  function CollectedList(ns: seq<BNode>, parent: BNode, hoistFunctions: bool): seq<BNode>
    requires forall i :: 0 <= i < |ns| ==> ns[i] < parent
    decreases parent, |ns|
  {
    if ns == [] then []
    else CollectedList(ns[..|ns| - 1], parent, hoistFunctions) + Collected(ns[|ns| - 1], hoistFunctions)
  }

  /** One more sibling walked: its nodes come after those of the siblings before it. */
  lemma CollectedListSnoc(ns: seq<BNode>, k: nat, parent: BNode, hoistFunctions: bool)
    requires k < |ns|
    requires forall i :: 0 <= i < |ns| ==> ns[i] < parent
    ensures CollectedList(ns[..k + 1], parent, hoistFunctions)
      == CollectedList(ns[..k], parent, hoistFunctions) + Collected(ns[k], hoistFunctions)
  {
    assert ns[..k + 1][..k] == ns[..k];
  }

  lemma AppendAssociative(a: seq<BNode>, b: seq<BNode>, c: seq<BNode>)
    ensures (a + b) + c == a + (b + c)
  {
  }

  /** The result of `getElevationVariableList(node)`: nothing for a
      function-like root, otherwise what the walk collects. */
  function HoistedDecls(node: BNode, hoistFunctions: bool): seq<BNode>
  {
    if IsFunctionLike(node) then [] else Collected(node, hoistFunctions)
  }

  /** The walk's state: the list being built and the function nesting count. */
  class Collector {
    const hoistFunctions: bool
    var list: seq<BNode>
    var functionCount: int

    constructor(hoistFunctions: bool)
      ensures this.hoistFunctions == hoistFunctions
      ensures list == [] && functionCount == 0
    {
      this.hoistFunctions := hoistFunctions;
      list := [];
      functionCount := 0;
    }

    /** The enter callback. */
    method Enter(n: BNode)
      requires functionCount >= 0
      modifies this
      ensures functionCount == old(functionCount) + (if IsFunctionLike(n) then 1 else 0)
      ensures list == old(list) + (if old(functionCount) == 0 then Pushed(n, hoistFunctions) else [])
    {
      if IsFunctionLike(n) {
        if hoistFunctions && functionCount == 0 && IsFunctionDeclaration(n) {
          list := list + [n];
        }
        functionCount := functionCount + 1;
        return;
      }
      if functionCount != 0 {
        return;
      }
      if IsVarDeclaration(n) {
        list := list + [n];
      }
      // The callback's own push of a function declaration sits here, where no
      // function-like node arrives: it never runs.
      assert !IsFunctionDeclaration(n);
    }

    /** The exit callback. */
    method Exit(n: BNode)
      requires IsFunctionLike(n) ==> functionCount >= 1
      modifies this
      ensures functionCount == old(functionCount) - (if IsFunctionLike(n) then 1 else 0)
      ensures list == old(list)
    {
      if IsFunctionLike(n) {
        functionCount := functionCount - 1;
      }
    }

    /** Babel's `traverse`: enter the node, walk its children in order, exit it.
        The count comes back to where it was, and the list grows by what
        `Collected` says exactly when no function encloses the node. */
    method Traverse(n: BNode)
      requires functionCount >= 0
      modifies this
      decreases n
      ensures functionCount == old(functionCount)
      ensures list == old(list) + (if old(functionCount) == 0 then Collected(n, hoistFunctions) else [])
    {
      Enter(n);
      TraverseAll(Children(n), n);
      if old(functionCount) == 0 && !IsFunctionLike(n) {
        AppendAssociative(old(list), Pushed(n, hoistFunctions), CollectedList(Children(n), n, hoistFunctions));
      }
      Exit(n);
    }

    /** The walk over the children `ns` of `parent`, one after the other. */
    method TraverseAll(ns: seq<BNode>, parent: BNode)
      requires forall i :: 0 <= i < |ns| ==> ns[i] < parent
      requires functionCount >= 0
      modifies this
      decreases parent, |ns|
      ensures functionCount == old(functionCount)
      ensures list == old(list) + (if old(functionCount) == 0 then CollectedList(ns, parent, hoistFunctions) else [])
    {
      var i := 0;
      while i < |ns|
        invariant 0 <= i <= |ns|
        invariant functionCount == old(functionCount)
        invariant list == old(list) + (if functionCount == 0 then CollectedList(ns[..i], parent, hoistFunctions) else [])
      {
        ghost var before := list;
        Traverse(ns[i]);
        if functionCount == 0 {
          CollectedListSnoc(ns, i, parent, hoistFunctions);
          AppendAssociative(old(list), CollectedList(ns[..i], parent, hoistFunctions), Collected(ns[i], hoistFunctions));
        }
        i := i + 1;
      }
      assert ns[..i] == ns;
    }
  }

  /** `getElevationVariableList`: nothing for a function-like root, and only
      declarations of the hoisted kinds otherwise. */
  method GetElevationVariableList(node: BNode, hoistFunctions: bool) returns (list: seq<BNode>)
    ensures list == HoistedDecls(node, hoistFunctions)
    ensures IsFunctionLike(node) ==> list == []
    ensures forall d :: d in list ==> IsVarDeclaration(d) || (hoistFunctions && IsFunctionDeclaration(d))
  {
    if IsFunctionLike(node) {
      return [];
    }
    var c := new Collector(hoistFunctions);
    c.Traverse(node);
    list := c.list;
    CollectedKinds(node, hoistFunctions);
  }

  // ---------------------------------------------------------------------------
  // What the walk collects

  /** Only `var` declarations are collected, and with `hoistFunctions` also
      function declarations. */
  lemma {:induction false} CollectedKinds(n: BNode, hoistFunctions: bool)
    ensures forall d :: d in Collected(n, hoistFunctions) ==>
      IsVarDeclaration(d) || (hoistFunctions && IsFunctionDeclaration(d))
    decreases n
  {
    if !IsFunctionLike(n) {
      CollectedListKinds(Children(n), n, hoistFunctions);
    }
  }

  lemma {:induction false} CollectedListKinds(ns: seq<BNode>, parent: BNode, hoistFunctions: bool)
    requires forall i :: 0 <= i < |ns| ==> ns[i] < parent
    ensures forall d :: d in CollectedList(ns, parent, hoistFunctions) ==>
      IsVarDeclaration(d) || (hoistFunctions && IsFunctionDeclaration(d))
    decreases parent, |ns|
  {
    if ns != [] {
      CollectedListKinds(ns[..|ns| - 1], parent, hoistFunctions);
      CollectedKinds(ns[|ns| - 1], hoistFunctions);
    }
  }

  /** As written, the result holds `var` declarations only: the function
      declaration push is never reached. */
  lemma AsWrittenHoistsOnlyVars(node: BNode)
    ensures forall d :: d in HoistedDecls(node, false) ==> IsVarDeclaration(d)
  {
    if !IsFunctionLike(node) {
      CollectedKinds(node, false);
    }
  }

  /** The `var` declarations of a list, in order. */
  function VarsOnly(s: seq<BNode>): (r: seq<BNode>)
    ensures forall d :: d in r ==> IsVarDeclaration(d)
    ensures forall d :: d in s && IsVarDeclaration(d) ==> d in r
  {
    if s == [] then []
    else VarsOnly(s[..|s| - 1]) + (if IsVarDeclaration(s[|s| - 1]) then [s[|s| - 1]] else [])
  }

  lemma {:induction false} VarsOnlyAppend(a: seq<BNode>, b: seq<BNode>)
    ensures VarsOnly(a + b) == VarsOnly(a) + VarsOnly(b)
    decreases |b|
  {
    if b == [] {
      assert a + b == a;
    } else {
      assert (a + b)[..|a + b| - 1] == a + b[..|b| - 1];
      VarsOnlyAppend(a, b[..|b| - 1]);
    }
  }

  /** The walk as written collects exactly the `var` declarations the
      corrected walk collects, in the same order: the two differ only in the
      function declarations. */
  lemma {:induction false} AsWrittenIsVarPart(n: BNode)
    ensures Collected(n, false) == VarsOnly(Collected(n, true))
    decreases n
  {
    var p := Pushed(n, true);
    assert VarsOnly(p) == Pushed(n, false) by {
      if p != [] {
        assert p == [n] && p[..0] == [];
      }
    }
    if !IsFunctionLike(n) {
      var kids := Children(n);
      AsWrittenIsVarPartList(kids, n);
      VarsOnlyAppend(p, CollectedList(kids, n, true));
    }
  }

  lemma {:induction false} AsWrittenIsVarPartList(ns: seq<BNode>, parent: BNode)
    requires forall i :: 0 <= i < |ns| ==> ns[i] < parent
    ensures CollectedList(ns, parent, false) == VarsOnly(CollectedList(ns, parent, true))
    decreases parent, |ns|
  {
    if ns != [] {
      AsWrittenIsVarPartList(ns[..|ns| - 1], parent);
      AsWrittenIsVarPart(ns[|ns| - 1]);
      VarsOnlyAppend(CollectedList(ns[..|ns| - 1], parent, true), Collected(ns[|ns| - 1], true));
    }
  }

  /** Walking siblings one after the other collects the concatenation. */
  lemma {:induction false} CollectedListAppend(a: seq<BNode>, b: seq<BNode>, parent: BNode, hoistFunctions: bool)
    requires forall i :: 0 <= i < |a| ==> a[i] < parent
    requires forall i :: 0 <= i < |b| ==> b[i] < parent
    ensures CollectedList(a + b, parent, hoistFunctions)
      == CollectedList(a, parent, hoistFunctions) + CollectedList(b, parent, hoistFunctions)
    decreases |b|
  {
    if b == [] {
      assert a + b == a;
    } else {
      assert (a + b)[..|a + b| - 1] == a + b[..|b| - 1];
      CollectedListAppend(a, b[..|b| - 1], parent, hoistFunctions);
      AppendAssociative(CollectedList(a, parent, hoistFunctions), CollectedList(b[..|b| - 1], parent, hoistFunctions),
                        Collected(b[|b| - 1], hoistFunctions));
    }
  }

  /** A nested function hides its own declarations but does not stop the walk:
      the siblings after it are still scanned.  (With `hoistFunctions` a
      function declaration itself is the one thing it contributes.) */
  lemma FunctionSiblingSkipped(f: BNode, rest: seq<BNode>, parent: BNode, hoistFunctions: bool)
    requires IsFunctionLike(f)
    requires f < parent && forall i :: 0 <= i < |rest| ==> rest[i] < parent
    ensures CollectedList([f] + rest, parent, hoistFunctions)
      == Pushed(f, hoistFunctions) + CollectedList(rest, parent, hoistFunctions)
  {
    CollectedListAppend([f], rest, parent, hoistFunctions);
    assert [f][..0] == [];
    assert CollectedList([f], parent, hoistFunctions) == Collected(f, hoistFunctions);
    assert Collected(f, hoistFunctions) == Pushed(f, hoistFunctions);
  }

  // ---------------------------------------------------------------------------
  // The function declaration that is never hoisted

  /** The program `var x; function g(params) body`. */
  function VarThenFunction(x: string, g: string, params: seq<BNode>, body: BNode): BNode
  {
    Other("Program", [
      VariableDeclaration("var", [VariableDeclarator(Identifier(x), None)]),
      FunctionDeclaration(g, params, body)])
  }

  /** A node with no children that pushes nothing contributes nothing. */
  lemma LeafCollected(n: BNode, hoistFunctions: bool)
    requires Children(n) == [] && !IsFunctionLike(n) && !IsVarDeclaration(n)
    ensures Collected(n, hoistFunctions) == []
  {
  }

  /** A one-child node that pushes nothing contributes what its child does. */
  lemma OneChildCollected(n: BNode, c: BNode, hoistFunctions: bool)
    requires Children(n) == [c] && !IsFunctionLike(n)
    ensures Collected(n, hoistFunctions) == Pushed(n, hoistFunctions) + Collected(c, hoistFunctions)
  {
    assert [c][..0] == [];
    assert CollectedList([c], n, hoistFunctions) == CollectedList([], n, hoistFunctions) + Collected(c, hoistFunctions);
    assert CollectedList([], n, hoistFunctions) + Collected(c, hoistFunctions) == Collected(c, hoistFunctions);
  }

  /** `var x` contributes itself. */
  lemma VarCollected(x: string, hoistFunctions: bool)
    ensures Collected(VariableDeclaration("var", [VariableDeclarator(Identifier(x), None)]), hoistFunctions)
      == [VariableDeclaration("var", [VariableDeclarator(Identifier(x), None)])]
  {
    var id := Identifier(x);
    var dx := VariableDeclarator(id, None);
    var vd := VariableDeclaration("var", [dx]);
    assert !IsFunctionLike(id) by { assert |TypeName(id)| == 10; }
    LeafCollected(id, hoistFunctions);
    assert !IsFunctionLike(dx) by { assert |TypeName(dx)| == 18 && TypeName(dx)[0] == 'V'; }
    OneChildCollected(dx, id, hoistFunctions);
    assert !IsFunctionLike(vd) by { assert |TypeName(vd)| == 19 && TypeName(vd)[0] == 'V'; }
    OneChildCollected(vd, dx, hoistFunctions);
  }

  /** A function declaration contributes itself exactly when function
      declarations are hoisted, and nothing from its body. */
  lemma FunctionDeclarationCollected(g: string, params: seq<BNode>, body: BNode, hoistFunctions: bool)
    ensures Collected(FunctionDeclaration(g, params, body), hoistFunctions)
      == if hoistFunctions then [FunctionDeclaration(g, params, body)] else []
  {
    assert IsFunctionLike(FunctionDeclaration(g, params, body));
  }

  /** What the program `var x; function g(params) body` collects. */
  lemma VarThenFunctionCollected(x: string, g: string, params: seq<BNode>, body: BNode, hoistFunctions: bool)
    ensures CollectedList(VarThenFunction(x, g, params, body).children, VarThenFunction(x, g, params, body), hoistFunctions)
      == [VarThenFunction(x, g, params, body).children[0]]
         + (if hoistFunctions then [VarThenFunction(x, g, params, body).children[1]] else [])
  {
    var program := VarThenFunction(x, g, params, body);
    var kids := program.children;
    VarCollected(x, hoistFunctions);
    FunctionDeclarationCollected(g, params, body, hoistFunctions);
    assert kids[..1][..0] == [] && kids[..1] == [kids[0]] && kids[..2] == kids;
    CollectedListSnoc(kids, 0, program, hoistFunctions);
    CollectedListSnoc(kids, 1, program, hoistFunctions);
    assert CollectedList(kids[..0], program, hoistFunctions) == [];
  }

  /** As written, the function declaration is missing from the result, however
      many `var`s its body declares; the corrected callback adds it after
      `var x`.  Neither collects anything from inside the function. */
  method HoistScenario(x: string, g: string, params: seq<BNode>, body: BNode)
    returns (asWritten: seq<BNode>, corrected: seq<BNode>)
    ensures asWritten == [VarThenFunction(x, g, params, body).children[0]]
    ensures corrected == VarThenFunction(x, g, params, body).children
  {
    var program := VarThenFunction(x, g, params, body);
    VarThenFunctionCollected(x, g, params, body, false);
    VarThenFunctionCollected(x, g, params, body, true);
    assert program.children == [program.children[0], program.children[1]];
    asWritten := GetElevationVariableList(program, false);
    corrected := GetElevationVariableList(program, true);
  }
}
