/** Shortening negated expressions in place: the optimizer changes and reuses the nodes of the tree it visits
    (pkg/optimizers/expression_inversion.go, AcceptChild in pkg/parser/ast/visitor.go). */
module Nodes {
  import opened Ast
  import opened Inversion

  datatype Kind = Leaf(e: Expr) | Binary(op: BinOp) | Unary(uop: UnOp)

  /** A node of an expression tree. `repr` holds the nodes of the tree, `tree` is the expression it stands for. */
  class Node {
    var kind: Kind
    var exp1: Node?
    var exp2: Node?
    ghost var repr: set<Node>
    ghost var tree: Expr

    ghost predicate Valid()
      reads this, repr
      decreases repr
    {
      && this in repr
      && match kind
         case Leaf(e) => tree == e && !e.Bin? && !e.Un?
         case Unary(uop) =>
           && exp1 != null && exp1 in repr && exp1.repr <= repr && this !in exp1.repr && exp1.Valid()
           && tree == Un(uop, exp1.tree)
         case Binary(op) =>
           && exp1 != null && exp1 in repr && exp1.repr <= repr && this !in exp1.repr && exp1.Valid()
           && exp2 != null && exp2 in repr && exp2.repr <= repr && this !in exp2.repr && exp2.Valid()
           && exp1.repr !! exp2.repr
           && tree == Bin(op, exp1.tree, exp2.tree)
    }

    constructor Negation(c: Node)
      requires c.Valid()
      ensures Valid() && tree == Un(Not, c.tree) && repr == {this} + c.repr && kind == Unary(Not) && exp1 == c
    {
      kind, exp1, exp2 := Unary(Not), c, null;
      repr, tree := {this} + c.repr, Un(Not, c.tree);
    }
  }

  /** Replaces the operator of a node. */
  method SetOperator(n: Node, op: BinOp)
    requires n.Valid() && n.kind.Binary?
    modifies n
    ensures n.Valid() && n.tree == Bin(op, old(n.tree.left), old(n.tree.right)) && n.repr == old(n.repr)
    ensures n.kind == Binary(op) && n.exp1 == old(n.exp1) && n.exp2 == old(n.exp2)
  {
    n.kind := Binary(op);
    n.tree := Bin(op, n.exp1.tree, n.exp2.tree);
  }

  /** Replaces the operands of a node. */
  method SetOperands(n: Node, l: Node, r: Node)
    requires n.kind.Binary? && l.Valid() && r.Valid()
    requires n !in l.repr && n !in r.repr && l.repr !! r.repr
    modifies n
    ensures n.Valid() && n.tree == Bin(old(n.kind.op), l.tree, r.tree) && n.repr == {n} + l.repr + r.repr
    ensures n.kind == old(n.kind)
  {
    n.exp1, n.exp2 := l, r;
    n.repr := {n} + l.repr + r.repr;
    n.tree := Bin(n.kind.op, l.tree, r.tree);
  }

  method SetOperand(n: Node, c: Node)
    requires n.kind.Unary? && c.Valid() && n !in c.repr
    modifies n
    ensures n.Valid() && n.tree == Un(old(n.kind.uop), c.tree) && n.repr == {n} + c.repr
    ensures n.kind == old(n.kind)
  {
    n.exp1 := c;
    n.repr := {n} + c.repr;
    n.tree := Un(n.kind.uop, c.tree);
  }

  /** De Morgan's law on the node of a conjunction or disjunction: its operands are negated by new nodes. */
  method NegateOperands(n: Node, op: BinOp)
    requires n.Valid() && n.kind.Binary?
    modifies n
    ensures n.Valid() && n.tree == Bin(op, Un(Not, old(n.tree.left)), Un(Not, old(n.tree.right)))
    ensures fresh(n.repr - old(n.repr))
  {
    var l := new Node.Negation(n.exp1);
    var r := new Node.Negation(n.exp2);
    SetOperator(n, op);
    SetOperands(n, l, r);
  }

  /** Tries to push a negation down by one step. Returns the replacement, or null. */
  method PushDownNots(n: Node) returns (r: Node?)
    requires n.Valid()
    modifies n.repr
    ensures r != null <==> PushDown(old(n.tree)).Some?
    ensures r != null ==> r.Valid() && r.tree == PushDown(old(n.tree)).value && fresh(r.repr - old(n.repr))
    ensures r == null ==> n.Valid() && n.tree == old(n.tree) && n.repr == old(n.repr)
  {
    r := null;
    if n.kind == Unary(Not) {
      var inner := n.exp1;
      match inner.kind {
        case Binary(op) =>
          if IsComparison(op) {
            SetOperator(inner, Inverse(op));
            r := inner;
          } else if IsAndOr(op) {
            NegateOperands(inner, Dual(op));
            r := inner;
          }
        case Unary(uop) =>
          if uop == Not {
            r := inner.exp1;
          }
        case Leaf(_) =>
      }
    }
  }

  /** Tries to pull a negation out of both operands. */
  method BubbleUpNots(n: Node) returns (r: Node?)
    requires n.Valid()
    modifies n.repr
    ensures r != null <==> BubbleUp(old(n.tree)).Some?
    ensures r != null ==> r.Valid() && r.tree == BubbleUp(old(n.tree)).value && fresh(r.repr - old(n.repr))
    ensures r == null ==> n.Valid() && n.tree == old(n.tree) && n.repr == old(n.repr)
  {
    r := null;
    if n.kind.Binary? && n.exp1.kind == Unary(Not) && n.exp2.kind == Unary(Not) && IsAndOr(n.kind.op) {
      var l, r' := n.exp1.exp1, n.exp2.exp1;
      SetOperator(n, Dual(n.kind.op));
      SetOperands(n, l, r');
      r := new Node.Negation(n);
    }
  }

  /** Visits a node: before its operands, they themselves, and after them. A replacement that `skip`s is final. */
  method Accept(n: Node) returns (r: Node?, skip: bool)
    requires n.Valid()
    modifies n.repr
    ensures PushDown(old(n.tree)).Some? ==> r != null && !skip && r.tree == PushDown(old(n.tree)).value
    ensures PushDown(old(n.tree)).None? ==>
            (r != null ==> skip) && (if r == null then n else r).tree == Invert(old(n.tree))
    ensures (if r == null then n else r).Valid() && fresh((if r == null then n else r).repr - old(n.repr))
    decreases Weight(n.tree), n.tree, 1
  {
    skip := false;
    r := PushDownNots(n);
    if r == null {
      AcceptOperands(n);
      r := BubbleUpNots(n);
      skip := r != null;
    }
  }

  method AcceptOperands(n: Node)
    requires n.Valid() && PushDown(n.tree).None?
    modifies n.repr
    ensures n.Valid() && fresh(n.repr - old(n.repr))
    ensures Bubbled(n.tree) == Invert(old(n.tree))
    decreases Weight(n.tree), n.tree, 0
  {
    match n.kind {
      case Leaf(_) =>
      case Unary(_) =>
        var c := AcceptChild(n.exp1);
        SetOperand(n, c);
      case Binary(_) =>
        var l := AcceptChild(n.exp1);
        var r := AcceptChild(n.exp2);
        SetOperands(n, l, r);
    }
  }

  /** Visits a node again and again for as long as it is replaced. */
  method AcceptChild(n: Node) returns (r: Node)
    requires n.Valid()
    modifies n.repr
    ensures r.Valid() && r.tree == Invert(old(n.tree)) && fresh(r.repr - old(n.repr))
    decreases Weight(n.tree), n.tree, 2
  {
    r := n;
    PushDownOnce(n.tree);
    var repl, skip := Accept(n);
    while repl != null
      invariant repl != null ==> repl.Valid() && fresh(repl.repr - old(n.repr))
      invariant repl != null && !skip ==>
                Invert(repl.tree) == Invert(old(n.tree)) && Weight(repl.tree) < Weight(old(n.tree))
      invariant repl != null && skip ==> repl.tree == Invert(old(n.tree))
      invariant repl == null ==> r.Valid() && r.tree == Invert(old(n.tree)) && fresh(r.repr - old(n.repr))
      decreases if repl == null then 0 else if skip then 1 else Weight(repl.tree) + 2
    {
      r := repl;
      if skip {
        break;
      }
      PushDownOnce(r.tree);
      repl, skip := Accept(r);
    }
  }

  lemma PushDownOnce(e: Expr)
    ensures PushDown(e).Some? ==> Weight(PushDown(e).value) < Weight(e) && Invert(PushDown(e).value) == Invert(e)
  {
  }
}
