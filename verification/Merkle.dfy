/** The evidence Merkle tree of the audit ledger: sort the leaves, then repeatedly
    pad an odd level with a copy of its last node and hash adjacent pairs.

    Digests are modelled by their lowercase hex strings; `h` maps the hex of a
    message to the hex of its SHA-256 digest. */
module Merkle {
  import opened Prelude
  import opened Ordering

  // ---------------------------------------------------------------- the tree

  function Pad(nodes: seq<string>): (r: seq<string>)
    requires nodes != []
    ensures |r| % 2 == 0 && |r| / 2 == (|nodes| + 1) / 2
  {
    if |nodes| % 2 == 1 then nodes + [nodes[|nodes| - 1]] else nodes
  }

  /** `[sha256(nodes[i] + nodes[i + 1]) for i in range(0, len(nodes), 2)]`. */
  function HashPairs(h: string -> string, nodes: seq<string>): (r: seq<string>)
    requires |nodes| % 2 == 0
    ensures |r| == |nodes| / 2
    ensures forall i :: 0 <= i < |r| ==> r[i] == h(nodes[2 * i] + nodes[2 * i + 1])
  {
    seq(|nodes| / 2, i requires 0 <= i < |nodes| / 2 => h(nodes[2 * i] + nodes[2 * i + 1]))
  }

  /** The next level up; one turn of the `while` loop. */
  function Level(h: string -> string, nodes: seq<string>): (r: seq<string>)
    requires nodes != []
    ensures |r| == (|nodes| + 1) / 2
  {
    HashPairs(h, Pad(nodes))
  }

  function Root(h: string -> string, nodes: seq<string>): string
    requires nodes != []
    decreases |nodes|
  {
    if |nodes| == 1 then nodes[0] else Root(h, Level(h, nodes))
  }

  /** The specification of `merkle_root` on a non-empty list. */
  function RootOfLeaves(h: string -> string, leaves: seq<string>): string
    requires leaves != []
  {
    Root(h, Sort(leaves, LexLe))
  }

  lemma RootOfNextLevel(h: string -> string, nodes: seq<string>)
    requires |nodes| > 1
    ensures Root(h, nodes) == Root(h, HashPairs(h, Pad(nodes)))
  {
  }

  datatype MerkleError = NoLeaves

  method MerkleRoot(h: string -> string, leaves: seq<string>) returns (r: Result<string, MerkleError>)
    ensures r == if leaves == [] then Err(NoLeaves) else Ok(RootOfLeaves(h, leaves))
  {
    if leaves == [] {
      return Err(NoLeaves);
    }
    var nodes := Sort(leaves, LexLe);
    ghost var root := Root(h, nodes);
    while |nodes| > 1
      invariant nodes != [] && Root(h, nodes) == root
      decreases |nodes|
    {
      RootOfNextLevel(h, nodes);
      ghost var padded := Pad(nodes);
      if |nodes| % 2 == 1 {
        nodes := nodes + [nodes[|nodes| - 1]];
      }
      assert nodes == padded;
      nodes := HashPairs(h, nodes);
    }
    r := Ok(nodes[0]);
  }

  // ------------------------------------------------------- order independence

  /** The root does not depend on the order in which the leaves are listed. */
  lemma PermutationInvariance(h: string -> string, a: seq<string>, b: seq<string>)
    requires a != [] && multiset(a) == multiset(b)
    ensures b != [] && RootOfLeaves(h, a) == RootOfLeaves(h, b)
  {
    PermutationFacts(a, b);
    LexIsTotalPreorder();
    forall x, y | LexLe(x, y) && LexLe(y, x) ensures x == y { LexTotal(x, y); }
    SortForgetsOrder(a, b, LexLe);
  }

  // ------------------------------------------------------------------ binding

  /** Every message hashed while computing `Root(h, nodes)`. */
  ghost function HashInputs(h: string -> string, nodes: seq<string>): set<string>
    requires nodes != []
    decreases |nodes|
  {
    if |nodes| == 1 then {} else LevelInputs(nodes) + HashInputs(h, Level(h, nodes))
  }

  ghost function LevelInputs(nodes: seq<string>): set<string>
    requires nodes != []
  {
    set i | 0 <= i < |Pad(nodes)| / 2 :: Pad(nodes)[2 * i] + Pad(nodes)[2 * i + 1]
  }

  ghost predicate Width(nodes: seq<string>, w: nat) {
    forall i :: 0 <= i < |nodes| ==> |nodes[i]| == w
  }

  ghost predicate FixedWidth(h: string -> string, w: nat) {
    forall x :: |h(x)| == w
  }

  /** Number of levels above `n` leaves. */
  function Height(n: nat): nat
    requires n >= 1
  {
    if n == 1 then 0 else 1 + Height((n + 1) / 2)
  }

  function Pow2(n: nat): (r: nat)
    ensures r >= 1
  {
    if n == 0 then 1 else 2 * Pow2(n - 1)
  }

  /** The leaf that sits at bottom position `i` of the tree over `n` leaves once
      every padded subtree is written out in full. */
  function Position(n: nat, i: nat): (p: nat)
    requires n >= 1
    ensures p < n
    decreases n
  {
    if n == 1 then 0
    else
      var p := 2 * Position((n + 1) / 2, i / 2) + i % 2;
      if p >= n then n - 1 else p
  }

  lemma {:induction false} PositionOfLeaf(n: nat, i: nat)
    requires i < n
    ensures i < Pow2(Height(n)) && Position(n, i) == i
    decreases n
  {
    if n > 1 {
      PositionOfLeaf((n + 1) / 2, i / 2);
    }
  }

  /** Two leaf lists write out the same full bottom row. */
  ghost predicate SameBottomRow(a: seq<string>, b: seq<string>)
    requires a != [] && b != []
  {
    forall i :: 0 <= i < Pow2(Height(|a|)) ==> a[Position(|a|, i)] == b[Position(|b|, i)]
  }

  /** Position `i` of the bottom row is the `i % 2` half of the pair above it. */
  lemma PositionInPair(nodes: seq<string>, i: nat, j: nat)
    requires |nodes| > 1 && j == Position((|nodes| + 1) / 2, i / 2)
    ensures j < (|nodes| + 1) / 2
    ensures i % 2 == 0 ==> nodes[Position(|nodes|, i)] == Pad(nodes)[2 * j]
    ensures i % 2 == 1 ==> nodes[Position(|nodes|, i)] == Pad(nodes)[2 * j + 1]
  {
  }

  lemma LevelWidth(h: string -> string, nodes: seq<string>, w: nat)
    requires nodes != [] && FixedWidth(h, w)
    ensures Width(Level(h, nodes), w)
  {
  }

  lemma LevelAt(h: string -> string, nodes: seq<string>, j: nat)
    requires nodes != [] && j < (|nodes| + 1) / 2
    ensures Pad(nodes)[2 * j] + Pad(nodes)[2 * j + 1] in LevelInputs(nodes)
    ensures Level(h, nodes)[j] == h(Pad(nodes)[2 * j] + Pad(nodes)[2 * j + 1])
  {
  }

  lemma PairHalves(x: string, y: string, u: string, v: string)
    requires |x| == |u| && x + y == u + v
    ensures x == u && y == v
  {
    assert (x + y)[..|x|] == x && (u + v)[..|u|] == u;
    assert (x + y)[|x|..] == y && (u + v)[|u|..] == v;
  }

  /** Equal inner nodes sit over equal children. */
  lemma EqualNodesEqualChildren(h: string -> string, a: seq<string>, b: seq<string>, ja: nat, jb: nat, w: nat)
    requires a != [] && b != [] && ja < (|a| + 1) / 2 && jb < (|b| + 1) / 2
    requires Width(a, w) && Width(b, w)
    requires CollisionFreeOn(h, LevelInputs(a) + LevelInputs(b))
    requires Level(h, a)[ja] == Level(h, b)[jb]
    ensures Pad(a)[2 * ja] == Pad(b)[2 * jb] && Pad(a)[2 * ja + 1] == Pad(b)[2 * jb + 1]
  {
    LevelAt(h, a, ja);
    LevelAt(h, b, jb);
    PairHalves(Pad(a)[2 * ja], Pad(a)[2 * ja + 1], Pad(b)[2 * jb], Pad(b)[2 * jb + 1]);
  }

  lemma BottomRowStepDown(h: string -> string, a: seq<string>, b: seq<string>, w: nat, i: nat)
    requires |a| > 1 && |b| > 1 && Width(a, w) && Width(b, w)
    requires CollisionFreeOn(h, LevelInputs(a) + LevelInputs(b))
    requires Level(h, a)[Position((|a| + 1) / 2, i / 2)] == Level(h, b)[Position((|b| + 1) / 2, i / 2)]
    ensures a[Position(|a|, i)] == b[Position(|b|, i)]
  {
    var ja, jb := Position((|a| + 1) / 2, i / 2), Position((|b| + 1) / 2, i / 2);
    var x, y := a[Position(|a|, i)], b[Position(|b|, i)];
    assert x == y by {
      PositionInPair(a, i, ja);
      PositionInPair(b, i, jb);
      EqualNodesEqualChildren(h, a, b, ja, jb, w);
    }
  }

  lemma BottomRowsStepDown(h: string -> string, a: seq<string>, b: seq<string>, w: nat)
    requires |a| > 1 && |b| > 1 && Width(a, w) && Width(b, w)
    requires CollisionFreeOn(h, LevelInputs(a) + LevelInputs(b))
    requires SameBottomRow(Level(h, a), Level(h, b))
    ensures SameBottomRow(a, b)
  {
    var la, lb := Level(h, a), Level(h, b);
    forall i | 0 <= i < Pow2(Height(|a|)) ensures a[Position(|a|, i)] == b[Position(|b|, i)] {
      assert i / 2 < Pow2(Height(|la|));
      assert la[Position(|la|, i / 2)] == lb[Position(|lb|, i / 2)];
      BottomRowStepDown(h, a, b, w, i);
    }
  }

  /** Equal roots over trees of equal height force equal bottom rows, unless two
      of the messages hashed on the way collide. */
  lemma {:induction false} RootBindsBottomRow(h: string -> string, a: seq<string>, b: seq<string>, w: nat)
    requires a != [] && b != [] && Height(|a|) == Height(|b|)
    requires Width(a, w) && Width(b, w) && FixedWidth(h, w)
    requires CollisionFreeOn(h, HashInputs(h, a) + HashInputs(h, b))
    requires Root(h, a) == Root(h, b)
    ensures SameBottomRow(a, b)
    decreases |a|
  {
    if |a| > 1 {
      LevelWidth(h, a, w);
      LevelWidth(h, b, w);
      RootBindsBottomRow(h, Level(h, a), Level(h, b), w);
      BottomRowsStepDown(h, a, b, w);
    }
  }

  lemma ChildrenOfPosition(nodes: seq<string>, i: nat, j: nat)
    requires |nodes| > 1 && j == Position((|nodes| + 1) / 2, i)
    ensures nodes[Position(|nodes|, 2 * i)] == Pad(nodes)[2 * j]
    ensures nodes[Position(|nodes|, 2 * i + 1)] == Pad(nodes)[2 * j + 1]
  {
    assert (2 * i) / 2 == i && (2 * i + 1) / 2 == i;
    PositionInPair(nodes, 2 * i, j);
    PositionInPair(nodes, 2 * i + 1, j);
  }

  lemma EqualChildrenEqualNodes(h: string -> string, a: seq<string>, b: seq<string>, ja: nat, jb: nat)
    requires a != [] && b != [] && ja < (|a| + 1) / 2 && jb < (|b| + 1) / 2
    requires Pad(a)[2 * ja] == Pad(b)[2 * jb] && Pad(a)[2 * ja + 1] == Pad(b)[2 * jb + 1]
    ensures Level(h, a)[ja] == Level(h, b)[jb]
  {
    LevelAt(h, a, ja);
    LevelAt(h, b, jb);
  }

  lemma BottomRowStepUp(h: string -> string, a: seq<string>, b: seq<string>, i: nat, ja: nat, jb: nat)
    requires |a| > 1 && |b| > 1 && i < Pow2(Height((|a| + 1) / 2))
    requires Height(|a|) == Height(|b|) && SameBottomRow(a, b)
    requires ja == Position((|a| + 1) / 2, i) && jb == Position((|b| + 1) / 2, i)
    ensures Level(h, a)[ja] == Level(h, b)[jb]
  {
    assert Pad(a)[2 * ja] == Pad(b)[2 * jb] && Pad(a)[2 * ja + 1] == Pad(b)[2 * jb + 1] by {
      assert 2 * i + 1 < Pow2(Height(|a|));
      assert a[Position(|a|, 2 * i)] == b[Position(|b|, 2 * i)];
      assert a[Position(|a|, 2 * i + 1)] == b[Position(|b|, 2 * i + 1)];
      ChildrenOfPosition(a, i, ja);
      ChildrenOfPosition(b, i, jb);
    }
    EqualChildrenEqualNodes(h, a, b, ja, jb);
  }

  lemma BottomRowsStepUp(h: string -> string, a: seq<string>, b: seq<string>)
    requires |a| > 1 && |b| > 1 && Height(|a|) == Height(|b|) && SameBottomRow(a, b)
    ensures SameBottomRow(Level(h, a), Level(h, b))
  {
    var la, lb := Level(h, a), Level(h, b);
    forall i | 0 <= i < Pow2(Height(|la|)) ensures la[Position(|la|, i)] == lb[Position(|lb|, i)] {
      BottomRowStepUp(h, a, b, i, Position(|la|, i), Position(|lb|, i));
    }
  }

  /** Conversely the bottom row determines the root, with no assumption on `h`. */
  lemma {:induction false} BottomRowDeterminesRoot(h: string -> string, a: seq<string>, b: seq<string>)
    requires a != [] && b != [] && Height(|a|) == Height(|b|)
    requires SameBottomRow(a, b)
    ensures Root(h, a) == Root(h, b)
    decreases |a|
  {
    if |a| == 1 {
      assert a[Position(|a|, 0)] == b[Position(|b|, 0)];
    } else {
      BottomRowsStepUp(h, a, b);
      BottomRowDeterminesRoot(h, Level(h, a), Level(h, b));
    }
  }

  /** The row `k` levels above `nodes`. */
  function Lifted(h: string -> string, nodes: seq<string>, k: nat): (r: seq<string>)
    requires nodes != [] && k <= Height(|nodes|)
    ensures r != [] && Height(|r|) == Height(|nodes|) - k
    decreases k
  {
    if k == 0 then nodes else Lifted(h, Level(h, nodes), k - 1)
  }

  lemma OnlyOneLeafIsFlat(n: nat)
    requires n >= 1 && Height(n) > 0
    ensures n > 1
  {
  }

  lemma LevelFacts(h: string -> string, nodes: seq<string>, w: nat)
    requires |nodes| > 1 && FixedWidth(h, w)
    ensures Root(h, Level(h, nodes)) == Root(h, nodes)
    ensures HashInputs(h, Level(h, nodes)) <= HashInputs(h, nodes)
    ensures Height(|Level(h, nodes)|) == Height(|nodes|) - 1 && Width(Level(h, nodes), w)
  {
    LevelWidth(h, nodes, w);
    hide Level, LevelInputs, FixedWidth, Width;
  }

  lemma {:induction false} LiftedFacts(h: string -> string, nodes: seq<string>, k: nat, w: nat)
    requires nodes != [] && k <= Height(|nodes|) && Width(nodes, w) && FixedWidth(h, w)
    ensures Root(h, Lifted(h, nodes, k)) == Root(h, nodes)
    ensures HashInputs(h, Lifted(h, nodes, k)) <= HashInputs(h, nodes)
    ensures Width(Lifted(h, nodes, k), w)
    decreases k
  {
    hide Level, Root, HashInputs, Height, Width, FixedWidth;
    if k > 0 {
      OnlyOneLeafIsFlat(|nodes|);
      LevelFacts(h, nodes, w);
      LiftedFacts(h, Level(h, nodes), k - 1, w);
    }
  }

  lemma CollisionFreeWithin(h: string -> string, large: set<string>, small: set<string>)
    requires CollisionFreeOn(h, large) && small <= large
    ensures CollisionFreeOn(h, small)
  {
  }

  /** Trees of any two heights have one root exactly when the lower one's bottom row is the
      row of the higher one at that height. */
  lemma RootsEqualIff(h: string -> string, a: seq<string>, b: seq<string>, w: nat)
    requires a != [] && b != [] && Height(|a|) <= Height(|b|)
    requires Width(a, w) && Width(b, w) && FixedWidth(h, w)
    requires CollisionFreeOn(h, HashInputs(h, a) + HashInputs(h, b))
    ensures Root(h, a) == Root(h, b) <==> SameBottomRow(a, Lifted(h, b, Height(|b|) - Height(|a|)))
  {
    hide SameBottomRow, Lifted, Root, HashInputs, FixedWidth, Width, Height, CollisionFreeOn;
    var row := Lifted(h, b, Height(|b|) - Height(|a|));
    LiftedFacts(h, b, Height(|b|) - Height(|a|), w);
    CollisionFreeWithin(h, HashInputs(h, a) + HashInputs(h, b), HashInputs(h, a) + HashInputs(h, row));
    if Root(h, a) == Root(h, b) { RootBindsBottomRow(h, a, row, w); }
    if SameBottomRow(a, row) { BottomRowDeterminesRoot(h, a, row); }
  }

  /** The same for `merkle_root`, which sorts its leaves first. */
  lemma MerkleRootsEqualIff(h: string -> string, a: seq<string>, b: seq<string>, w: nat)
    requires a != [] && b != [] && Height(|a|) <= Height(|b|)
    requires Width(a, w) && Width(b, w) && FixedWidth(h, w)
    requires CollisionFreeOn(h, HashInputs(h, Sort(a, LexLe)) + HashInputs(h, Sort(b, LexLe)))
    ensures RootOfLeaves(h, a) == RootOfLeaves(h, b)
            <==> SameBottomRow(Sort(a, LexLe), Lifted(h, Sort(b, LexLe), Height(|b|) - Height(|a|)))
  {
    hide SameBottomRow, Lifted, Root, HashInputs, FixedWidth, Width, Height, CollisionFreeOn, Sort, LexLe;
    SortKeepsWidth(a, w);
    SortKeepsWidth(b, w);
    RootsEqualIff(h, Sort(a, LexLe), Sort(b, LexLe), w);
  }

  /** At equal height, equal roots are exactly equal bottom rows. */
  lemma EqualRootsIffSameBottomRow(h: string -> string, a: seq<string>, b: seq<string>, w: nat)
    requires a != [] && b != [] && Height(|a|) == Height(|b|)
    requires Width(a, w) && Width(b, w) && FixedWidth(h, w)
    requires var sa, sb := Sort(a, LexLe), Sort(b, LexLe);
             CollisionFreeOn(h, HashInputs(h, sa) + HashInputs(h, sb))
    ensures RootOfLeaves(h, a) == RootOfLeaves(h, b) <==> SameBottomRow(Sort(a, LexLe), Sort(b, LexLe))
  {
    hide SameBottomRow, RootOfLeaves, HashInputs, FixedWidth, Width, Height, CollisionFreeOn, Sort, LexLe;
    MerkleRootsEqualIff(h, a, b, w);
    assert Lifted(h, Sort(b, LexLe), 0) == Sort(b, LexLe);
  }

  lemma SortKeepsWidth(a: seq<string>, w: nat)
    requires Width(a, w)
    ensures Width(Sort(a, LexLe), w)
  {
    var s := Sort(a, LexLe);
    forall i | 0 <= i < |s| ensures |s[i]| == w {
      assert s[i] in multiset(s);
      assert s[i] in a;
    }
  }

  lemma SameBottomRowSameSet(a: seq<string>, b: seq<string>)
    requires a != [] && b != [] && Height(|a|) == Height(|b|) && SameBottomRow(a, b)
    ensures ToSet(a) == ToSet(b)
    ensures |a| == |b| ==> a == b
  {
    forall k | 0 <= k < |a| ensures a[k] == b[Position(|b|, k)] {
      PositionOfLeaf(|a|, k);
      assert a[Position(|a|, k)] == b[Position(|b|, k)];
    }
    forall k | 0 <= k < |b| ensures b[k] == a[Position(|a|, k)] {
      PositionOfLeaf(|b|, k);
      assert a[Position(|a|, k)] == b[Position(|b|, k)];
    }
    if |a| == |b| {
      forall k | 0 <= k < |a| ensures a[k] == b[k] {
        PositionOfLeaf(|b|, k);
      }
    }
  }

  /** With equally many leaves the root determines the leaves up to order. */
  lemma EqualCountBinding(h: string -> string, a: seq<string>, b: seq<string>, w: nat)
    requires a != [] && |a| == |b|
    requires Width(a, w) && Width(b, w) && FixedWidth(h, w)
    requires var sa, sb := Sort(a, LexLe), Sort(b, LexLe);
             CollisionFreeOn(h, HashInputs(h, sa) + HashInputs(h, sb))
    ensures RootOfLeaves(h, a) == RootOfLeaves(h, b) <==> multiset(a) == multiset(b)
  {
    if RootOfLeaves(h, a) == RootOfLeaves(h, b) {
      EqualRootsIffSameBottomRow(h, a, b, w);
      SameBottomRowSameSet(Sort(a, LexLe), Sort(b, LexLe));
    }
    if multiset(a) == multiset(b) {
      PermutationInvariance(h, a, b);
    }
  }

  /** With leaves that do not repeat, equal height is enough. */
  lemma DistinctLeavesBinding(h: string -> string, a: seq<string>, b: seq<string>, w: nat)
    requires a != [] && b != [] && Height(|a|) == Height(|b|)
    requires Distinct(a) && Distinct(b)
    requires Width(a, w) && Width(b, w) && FixedWidth(h, w)
    requires var sa, sb := Sort(a, LexLe), Sort(b, LexLe);
             CollisionFreeOn(h, HashInputs(h, sa) + HashInputs(h, sb))
    ensures RootOfLeaves(h, a) == RootOfLeaves(h, b) <==> multiset(a) == multiset(b)
  {
    if RootOfLeaves(h, a) == RootOfLeaves(h, b) {
      var sa, sb := Sort(a, LexLe), Sort(b, LexLe);
      EqualRootsIffSameBottomRow(h, a, b, w);
      SameBottomRowSameSet(sa, sb);
      PermutationFacts(a, sa);
      PermutationFacts(b, sb);
      DistinctMultiset(a);
      DistinctMultiset(b);
    }
    if multiset(a) == multiset(b) {
      PermutationInvariance(h, a, b);
    }
  }

  // ----------------------------------------------- trees of different heights

  /** If no leaf of the lower tree is itself an inner node of the higher one,
      trees of different heights have different roots. */
  lemma {:induction false} LowerTreeMeetsInnerNode(h: string -> string, a: seq<string>, b: seq<string>, w: nat)
      returns (leaf: string, message: string)
    requires a != [] && b != [] && Height(|a|) < Height(|b|)
    requires Width(a, w) && Width(b, w) && FixedWidth(h, w)
    requires CollisionFreeOn(h, HashInputs(h, a) + HashInputs(h, b))
    requires Root(h, a) == Root(h, b)
    ensures leaf in a && message in HashInputs(h, b) && leaf == h(message)
    decreases |a|
  {
    var lb := Level(h, b);
    LevelWidth(h, b, w);
    if |a| == 1 {
      leaf := a[0];
      message := RootIsHashed(h, b);
    } else {
      var la := Level(h, a);
      LevelWidth(h, a, w);
      var node, upper := LowerTreeMeetsInnerNode(h, la, lb, w);
      var j :| 0 <= j < |la| && la[j] == node;
      LevelAt(h, a, j);
      leaf := Pad(a)[2 * j];
      assert Pad(a)[2 * j] + Pad(a)[2 * j + 1] == upper;
      message := FirstHalfIsHashed(h, b, upper, w);
      assert upper[..w] == leaf;
    }
  }

  lemma {:induction false} RootIsHashed(h: string -> string, nodes: seq<string>) returns (message: string)
    requires |nodes| > 1
    ensures message in HashInputs(h, nodes) && Root(h, nodes) == h(message)
    decreases |nodes|
  {
    if |nodes| == 2 {
      LevelAt(h, nodes, 0);
      message := Pad(nodes)[0] + Pad(nodes)[1];
    } else {
      message := RootIsHashed(h, Level(h, nodes));
    }
  }

  lemma UpperMessageStartsWithNode(h: string -> string, nodes: seq<string>, upper: string, w: nat)
      returns (message: string)
    requires nodes != [] && FixedWidth(h, w) && upper in LevelInputs(Level(h, nodes))
    ensures message in LevelInputs(nodes) && |upper| >= w && upper[..w] == h(message)
  {
    var next := Level(h, nodes);
    var i := PairIndex(next, upper);
    hide Level, LevelInputs, Pad;
    LevelAt(h, nodes, 2 * i);
    message := Pad(nodes)[4 * i] + Pad(nodes)[4 * i + 1];
  }

  lemma PairIndex(nodes: seq<string>, upper: string) returns (i: nat)
    requires nodes != [] && upper in LevelInputs(nodes)
    ensures 2 * i < |nodes| && |upper| >= |nodes[2 * i]| && upper[..|nodes[2 * i]|] == nodes[2 * i]
  {
    i :| 0 <= i < |Pad(nodes)| / 2 && upper == Pad(nodes)[2 * i] + Pad(nodes)[2 * i + 1];
  }

  /** A message hashed above the first level starts with a node of that level. */
  lemma {:induction false} FirstHalfIsHashed(h: string -> string, nodes: seq<string>, upper: string, w: nat)
      returns (message: string)
    requires |nodes| > 1 && FixedWidth(h, w)
    requires upper in HashInputs(h, Level(h, nodes))
    ensures message in HashInputs(h, nodes) && |upper| >= w && upper[..w] == h(message)
    decreases |nodes|
  {
    var next := Level(h, nodes);
    if upper in LevelInputs(next) {
      message := UpperMessageStartsWithNode(h, nodes, upper, w);
    } else {
      message := FirstHalfIsHashed(h, next, upper, w);
    }
  }

  /** Leaf digests are told apart from inner nodes. */
  ghost predicate LeavesAreNotNodes(h: string -> string, leaves: seq<string>, messages: set<string>) {
    forall leaf, m :: leaf in leaves && m in messages ==> leaf != h(m)
  }

  lemma NoCommonRoot(h: string -> string, a: seq<string>, b: seq<string>, w: nat)
    requires a != [] && b != [] && Height(|a|) < Height(|b|)
    requires Width(a, w) && Width(b, w) && FixedWidth(h, w)
    requires var messages := HashInputs(h, a) + HashInputs(h, b);
             CollisionFreeOn(h, messages) && LeavesAreNotNodes(h, a, messages)
    ensures Root(h, a) != Root(h, b)
  {
    if Root(h, a) == Root(h, b) {
      var leaf, message := LowerTreeMeetsInnerNode(h, a, b, w);
    }
  }

  /** The root determines a set of pairwise different leaf digests outright, when
      no leaf digest is also the digest of an inner message. */
  lemma RootBindsLeaves(h: string -> string, a: seq<string>, b: seq<string>, w: nat)
    requires a != [] && b != [] && Distinct(a) && Distinct(b)
    requires Width(a, w) && Width(b, w) && FixedWidth(h, w)
    requires var messages := HashInputs(h, Sort(a, LexLe)) + HashInputs(h, Sort(b, LexLe));
             CollisionFreeOn(h, messages) && LeavesAreNotNodes(h, a, messages) && LeavesAreNotNodes(h, b, messages)
    ensures RootOfLeaves(h, a) == RootOfLeaves(h, b) <==> multiset(a) == multiset(b)
  {
    var sa, sb := Sort(a, LexLe), Sort(b, LexLe);
    PermutationFacts(a, sa);
    PermutationFacts(b, sb);
    SortKeepsWidth(a, w);
    SortKeepsWidth(b, w);
    forall leaf ensures (leaf in sa <==> leaf in a) && (leaf in sb <==> leaf in b) {
      assert (leaf in ToSet(a) <==> leaf in ToSet(sa)) && (leaf in ToSet(b) <==> leaf in ToSet(sb));
    }
    if RootOfLeaves(h, a) == RootOfLeaves(h, b) {
      if Height(|a|) == Height(|b|) {
        DistinctLeavesBinding(h, a, b, w);
      } else if Height(|a|) < Height(|b|) {
        NoCommonRoot(h, sa, sb, w);
      } else {
        NoCommonRoot(h, sb, sa, w);
      }
    }
    if multiset(a) == multiset(b) {
      PermutationInvariance(h, a, b);
    }
  }

  // ------------------------------------------------- what the root cannot see

  lemma RepeatStaysSorted(leaves: seq<string>)
    requires leaves != [] && SortedBy(leaves, LexLe)
    ensures SortedBy(leaves + [leaves[|leaves| - 1]], LexLe)
  {
    LexTotal(leaves[|leaves| - 1], leaves[|leaves| - 1]);
    hide LexLe;
  }

  /** Padding copies the last node, so a list of odd length and the same list with
      its greatest leaf repeated have one root: the leaf count is not bound. */
  lemma PaddingHidesARepeatedLastLeaf(h: string -> string, leaves: seq<string>)
    requires |leaves| > 1 && |leaves| % 2 == 1 && SortedBy(leaves, LexLe)
    ensures RootOfLeaves(h, leaves) == RootOfLeaves(h, leaves + [leaves[|leaves| - 1]])
  {
    var longer := leaves + [leaves[|leaves| - 1]];
    RepeatStaysSorted(leaves);
    SortOfSorted(leaves, LexLe);
    SortOfSorted(longer, LexLe);
    hide Sort, SortedBy, LexLe;
    assert Pad(leaves) == Pad(longer) == longer;
    assert Level(h, leaves) == Level(h, longer);
    hide Level;
  }

  lemma RootOfPair(h: string -> string, a: string, b: string)
    ensures Root(h, [a, b]) == h(a + b) == Root(h, [h(a + b)])
  {
    assert Level(h, [a, b]) == [h(a + b)];
  }

  /** An inner node presented as a leaf has the root of the tree it came from:
      without the leaf/node separation the height is not bound either. */
  lemma InnerNodePassesForALeaf(h: string -> string, a: string, b: string)
    requires LexLe(a, b)
    ensures RootOfLeaves(h, [h(a + b)]) == RootOfLeaves(h, [a, b])
  {
    SortOfSorted([a, b], LexLe);
    SortOfSorted([h(a + b)], LexLe);
    hide Sort, SortedBy, LexLe, Root;
    RootOfPair(h, a, b);
  }
}
