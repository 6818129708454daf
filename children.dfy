/**
 * The scene graph as the game logic sees it: nodes with a fixed kind and name
 * and a mutable position, and the two operations on a parent's child list that
 * the scene relies on: removing one node, and keeping the nodes still on screen.
 */
module Children {
  import opened Options
  import opened Rules

  /** What a node renders; only used to tell nodes apart in contracts. */
  datatype Kind =
    | Sprite(image: string)
    | Label(font: string)
    | Audio(file: string)
    | Emitter(file: string)

  /** An `SKNode`: identity is reference identity, as in SpriteKit. */
  class Node {
    const kind: Kind
    const name: Option<string>
    var x: int
    var y: int

    constructor (kind: Kind, name: Option<string>, x: int, y: int)
      ensures this.kind == kind && this.name == name
      ensures this.x == x && this.y == y
    {
      this.kind := kind;
      this.name := name;
      this.x := x;
      this.y := y;
    }
  }

  /** A parent never holds the same node twice. */
  ghost predicate Distinct(s: seq<Node>) {
    forall i, j :: 0 <= i < j < |s| ==> s[i] != s[j]
  }

  /** The child list after `n.removeFromParent()`: `n` is gone, nothing else is. */
  function Without(s: seq<Node>, n: Node): (r: seq<Node>)
    ensures forall m :: m in r ==> m in s && m != n
    ensures forall m :: m in s && m != n ==> m in r
    ensures |r| <= |s|
  {
    if s == [] then []
    else
      var rest := Without(s[1..], n);
      if s[0] == n then rest else [s[0]] + rest
  }

  /** Removing a child never makes a node appear twice. */
  lemma {:induction false} WithoutDistinct(s: seq<Node>, n: Node)
    requires Distinct(s)
    ensures Distinct(Without(s, n))
  {
    if s != [] {
      assert s[0] !in s[1..];
      WithoutDistinct(s[1..], n);
    }
  }

  /** Removing a node that is not there changes nothing. */
  lemma {:induction false} WithoutMissing(s: seq<Node>, n: Node)
    requires n !in s
    ensures Without(s, n) == s
  {
    if s != [] {
      WithoutMissing(s[1..], n);
    }
  }

  lemma {:induction false} WithoutConcat(a: seq<Node>, b: seq<Node>, n: Node)
    ensures Without(a + b, n) == Without(a, n) + Without(b, n)
  {
    if a != [] {
      assert (a + b)[1..] == a[1..] + b;
      WithoutConcat(a[1..], b, n);
    } else {
      assert a + b == b;
    }
  }

  /** Removing a node held once takes out exactly that entry and keeps the rest in order. */
  lemma WithoutOnce(before: seq<Node>, n: Node, after: seq<Node>)
    requires n !in before && n !in after
    ensures Without(before + [n] + after, n) == before + after
  {
    assert Without([n], n) == [] by {
      assert [n][1..] == [];
    }
    WithoutConcat(before, [n], n);
    WithoutMissing(before, n);
    assert Without(before + [n], n) == before;
    WithoutConcat(before + [n], after, n);
    WithoutMissing(after, n);
  }

  /** Removing two nodes, neither of which is among the nodes appended last. */
  lemma WithoutTwoBeforeAppend(before: seq<Node>, added: seq<Node>, n1: Node, n2: Node)
    requires n1 !in added && n2 !in added
    ensures Without(Without(before + added, n1), n2) == Without(Without(before, n1), n2) + added
  {
    WithoutConcat(before, added, n1);
    WithoutMissing(added, n1);
    WithoutConcat(Without(before, n1), added, n2);
    WithoutMissing(added, n2);
  }

  /** The children kept by one frame's clean-up: every node not below OffscreenY, in order. */
  function Survivors(s: seq<Node>): (r: seq<Node>)
    reads s
    ensures forall m :: m in r ==> m in s && m.y >= OffscreenY
    ensures forall m :: m in s && m.y >= OffscreenY ==> m in r
  {
    if s == [] then []
    else
      var rest := Survivors(s[1..]);
      if s[0].y < OffscreenY then rest else [s[0]] + rest
  }

  /** Clean-up never makes a node appear twice. */
  lemma {:induction false} SurvivorsDistinct(s: seq<Node>)
    requires Distinct(s)
    ensures Distinct(Survivors(s))
  {
    if s != [] {
      assert s[0] !in s[1..];
      SurvivorsDistinct(s[1..]);
    }
  }

  /** Clean-up treats the two halves of a list independently: relative order is kept. */
  lemma {:induction false} SurvivorsConcat(a: seq<Node>, b: seq<Node>)
    ensures Survivors(a + b) == Survivors(a) + Survivors(b)
  {
    if a != [] {
      assert (a + b)[1..] == a[1..] + b;
      SurvivorsConcat(a[1..], b);
    } else {
      assert a + b == b;
    }
  }

  /**
   * One step of the clean-up loop over a snapshot of the children: when the
   * i-th node is below OffscreenY, removing it from the partly cleaned list
   * yields the list cleaned up to and including position i.
   */
  lemma PruneStep(snapshot: seq<Node>, i: nat)
    requires Distinct(snapshot) && i < |snapshot| && snapshot[i].y < OffscreenY
    ensures Without(Survivors(snapshot[..i]) + snapshot[i..], snapshot[i])
         == Survivors(snapshot[..i + 1]) + snapshot[i + 1..]
  {
    var node, kept := snapshot[i], Survivors(snapshot[..i]);
    assert snapshot[..i + 1] == snapshot[..i] + [node];
    SurvivorsConcat(snapshot[..i], [node]);
    assert Survivors([node]) == [] by {
      assert [node][1..] == [];
    }
    assert snapshot[i..] == [node] + snapshot[i + 1..];
    assert node !in snapshot[..i] && node !in snapshot[i + 1..] by {
      assert snapshot == snapshot[..i] + [node] + snapshot[i + 1..];
    }
    assert node !in kept;
    assert kept + snapshot[i..] == kept + [node] + snapshot[i + 1..];
    WithoutOnce(kept, node, snapshot[i + 1..]);
  }

  /** The same step when the i-th node stays on screen: nothing is removed. */
  lemma KeepStep(snapshot: seq<Node>, i: nat)
    requires i < |snapshot| && snapshot[i].y >= OffscreenY
    ensures Survivors(snapshot[..i]) + snapshot[i..] == Survivors(snapshot[..i + 1]) + snapshot[i + 1..]
  {
    var node := snapshot[i];
    assert snapshot[..i + 1] == snapshot[..i] + [node];
    SurvivorsConcat(snapshot[..i], [node]);
    assert Survivors([node]) == [node] by {
      assert [node][1..] == [];
    }
    assert snapshot[i..] == [node] + snapshot[i + 1..];
  }

  /** A list with nothing below OffscreenY is left as it is. */
  lemma {:induction false} SurvivorsAllOnScreen(s: seq<Node>)
    requires forall m :: m in s ==> m.y >= OffscreenY
    ensures Survivors(s) == s
  {
    if s != [] {
      SurvivorsAllOnScreen(s[1..]);
    }
  }

  /** A second clean-up with no motion in between removes nothing more. */
  lemma {:induction false} SurvivorsIdempotent(s: seq<Node>)
    ensures Survivors(Survivors(s)) == Survivors(s)
  {
    SurvivorsAllOnScreen(Survivors(s));
  }
}
