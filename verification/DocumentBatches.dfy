/**
 The planner that splits a converted document into descendant batches. A document arrives as a flat list of
 blocks naming their children and a list of first-level block ids. A depth-first walk recovers each subtree,
 refusing cycles and sharing, and the subtrees are packed greedily into batches of bounded size.
 */
module DocumentBatches {
  import opened Common

  // ---------- data ----------

  /** A converted block: the pointer, and the id inside it, may both be missing. */
  datatype Block = NilBlock | Block(blockId: Option<string>, children: seq<string>)

  datatype Batch = Batch(childrenId: seq<string>, descendants: seq<Block>)

  datatype PlanError =
    | InvalidLimit | BlockWithoutId | DuplicateId | EmptyRootId | CyclicHierarchy
    | MultipleParents | MissingChild | RootTooLarge | MultipleRoots | OutsideRoots

  function IdOf(b: Block): string {
    if b.Block? && b.blockId.Some? then b.blockId.value else ""
  }

  function ChildrenOf(b: Block): seq<string> {
    if b.Block? then b.children else []
  }

  /** Reading an absent key of the index yields a nil block. */
  function Lookup(byId: map<string, Block>, id: string): Block {
    if id in byId then byId[id] else NilBlock
  }

  /** A block is known by its identifier, if the pointer and the identifier in it are there; a nil block has no children. */
  lemma BlocksHaveNames(id: string, children: seq<string>, byId: map<string, Block>)
    ensures IdOf(Block(Some(id), children)) == id && ChildrenOf(Block(Some(id), children)) == children
    ensures IdOf(NilBlock) == IdOf(Block(None, children)) == "" && ChildrenOf(NilBlock) == []
    ensures id in byId ==> Lookup(byId, id) == byId[id]
    ensures id !in byId ==> Lookup(byId, id) == NilBlock
  {
  }

  // ---------- reference definition: forests ----------

  datatype Tree = Node(id: string, kids: seq<Tree>)

  ghost function Preorder(t: Tree): seq<string>
    decreases t, 0
  {
    [t.id] + PreorderAll(t.kids)
  }

  ghost function PreorderAll(ts: seq<Tree>): seq<string>
    decreases ts, 1
  {
    if ts == [] then [] else Preorder(ts[0]) + PreorderAll(ts[1..])
  }

  /** `t` unfolds the block named by its root, level by level, following the children lists. */
  ghost predicate Unfolds(t: Tree, byId: map<string, Block>) {
    && t.id in byId
    && |t.kids| == |ChildrenOf(byId[t.id])|
    && forall i | 0 <= i < |t.kids| :: t.kids[i].id == ChildrenOf(byId[t.id])[i] && Unfolds(t.kids[i], byId)
  }

  ghost predicate UnfoldsAll(ts: seq<Tree>, ids: seq<string>, byId: map<string, Block>) {
    |ts| == |ids| && forall i | 0 <= i < |ts| :: ts[i].id == ids[i] && Unfolds(ts[i], byId)
  }

  /** The blocks form a forest over the given roots: every block occurs exactly once in it. */
  ghost predicate IsForest(forest: seq<Tree>, rootIds: seq<string>, byId: map<string, Block>) {
    && UnfoldsAll(forest, rootIds, byId)
    && NoDup(PreorderAll(forest))
    && Elements(PreorderAll(forest)) == byId.Keys
  }

  ghost predicate SubtreesWithin(forest: seq<Tree>, limit: int) {
    forall i | 0 <= i < |forest| :: |Preorder(forest[i])| <= limit
  }

  ghost predicate Indexable(blocks: seq<Block>) {
    && (forall i | 0 <= i < |blocks| :: IdOf(blocks[i]) != "")
    && (forall i, j :: 0 <= i < j < |blocks| ==> IdOf(blocks[i]) != IdOf(blocks[j]))
  }

  ghost function Index(blocks: seq<Block>): map<string, Block> {
    if blocks == [] then map[]
    else Index(blocks[..|blocks| - 1])[IdOf(blocks[|blocks| - 1]) := blocks[|blocks| - 1]]
  }

  /** What a successful plan requires of its input. */
  ghost predicate Plannable(rootIds: seq<string>, blocks: seq<Block>, limit: int) {
    && limit > 0
    && Indexable(blocks)
    && exists forest :: IsForest(forest, rootIds, Index(blocks)) && SubtreesWithin(forest, limit)
  }

  // ---------- reference definition: plans ----------

  ghost function Flatten<T>(groups: seq<seq<T>>): seq<T> {
    if groups == [] then [] else Flatten(groups[..|groups| - 1]) + groups[|groups| - 1]
  }

  ghost function RootIds(ts: seq<Tree>): seq<string> {
    seq(|ts|, i requires 0 <= i < |ts| => ts[i].id)
  }

  ghost function BlocksAt(ids: seq<string>, byId: map<string, Block>): seq<Block> {
    seq(|ids|, i requires 0 <= i < |ids| => Lookup(byId, ids[i]))
  }

  /** The batch that holds exactly the subtrees of `group`, whole and in preorder. */
  ghost function BatchOf(group: seq<Tree>, byId: map<string, Block>): Batch {
    Batch(RootIds(group), BlocksAt(PreorderAll(group), byId))
  }

  /** An order-preserving split of the forest whose groups respect the limit. */
  ghost predicate IsSplit(groups: seq<seq<Tree>>, forest: seq<Tree>, limit: int) {
    && Flatten(groups) == forest
    && forall i | 0 <= i < |groups| :: |PreorderAll(groups[i])| <= limit
  }

  ghost predicate RealizesSplit(batches: seq<Batch>, groups: seq<seq<Tree>>, byId: map<string, Block>) {
    |batches| == |groups| && forall i | 0 <= i < |groups| :: groups[i] != [] && batches[i] == BatchOf(groups[i], byId)
  }

  /** The batches realise a split of the forest, and no split within the limit uses fewer. */
  ghost predicate IsOptimalPlan(batches: seq<Batch>, forest: seq<Tree>, byId: map<string, Block>, limit: int) {
    && (exists groups :: IsSplit(groups, forest, limit) && RealizesSplit(batches, groups, byId))
    && (forall groups | IsSplit(groups, forest, limit) :: |batches| <= |groups|)
  }

  // ---------- facts about trees ----------

  lemma {:induction false} PreorderAppend(a: seq<Tree>, b: seq<Tree>)
    ensures PreorderAll(a + b) == PreorderAll(a) + PreorderAll(b)
  {
    if a == [] {
      assert a + b == b;
    } else {
      assert (a + b)[1..] == a[1..] + b;
      PreorderAppend(a[1..], b);
    }
  }

  lemma PreorderOne(t: Tree)
    ensures PreorderAll([t]) == Preorder(t)
  {
    assert [t][1..] == [];
  }

  lemma PreorderSnoc(ts: seq<Tree>, t: Tree)
    ensures PreorderAll(ts + [t]) == PreorderAll(ts) + Preorder(t)
  {
    PreorderAppend(ts, [t]);
    PreorderOne(t);
  }

  lemma {:induction false} PreorderSplitAt(ts: seq<Tree>, k: nat)
    requires k < |ts|
    ensures PreorderAll(ts) == PreorderAll(ts[..k]) + Preorder(ts[k]) + PreorderAll(ts[k + 1..])
  {
    var front := ts[..k] + [ts[k]];
    PreorderSnoc(ts[..k], ts[k]);
    PreorderAppend(front, ts[k + 1..]);
    assert front + ts[k + 1..] == ts;
  }

  /** Unfolding is deterministic: a block id has at most one finite unfolding. */
  lemma {:induction false} UnfoldingIsUnique(t: Tree, u: Tree, byId: map<string, Block>)
    requires Unfolds(t, byId) && Unfolds(u, byId) && t.id == u.id
    ensures t == u
    decreases t
  {
    forall i | 0 <= i < |t.kids|
      ensures t.kids[i] == u.kids[i]
    {
      UnfoldingIsUnique(t.kids[i], u.kids[i], byId);
    }
    assert t.kids == u.kids;
  }

  lemma UnfoldingPrefixIsUnique(ts: seq<Tree>, us: seq<Tree>, ids: seq<string>, byId: map<string, Block>)
    requires UnfoldsAll(us, ids, byId) && |ts| <= |ids| && UnfoldsAll(ts, ids[..|ts|], byId)
    ensures us[..|ts|] == ts
  {
    forall i | 0 <= i < |ts| ensures us[i] == ts[i] {
      UnfoldingIsUnique(us[i], ts[i], byId);
    }
  }

  lemma UnfoldsNext(ts: seq<Tree>, t: Tree, ids: seq<string>, byId: map<string, Block>)
    requires |ts| < |ids| && UnfoldsAll(ts, ids[..|ts|], byId) && t.id == ids[|ts|] && Unfolds(t, byId)
    ensures UnfoldsAll(ts + [t], ids[..|ts| + 1], byId)
  {
  }

  lemma {:induction false} PreorderStaysInIndex(t: Tree, byId: map<string, Block>)
    requires Unfolds(t, byId)
    ensures Elements(Preorder(t)) <= byId.Keys
    decreases t, 0
  {
    PreorderAllStaysInIndex(t.kids, byId);
  }

  lemma {:induction false} PreorderAllStaysInIndex(ts: seq<Tree>, byId: map<string, Block>)
    requires forall i | 0 <= i < |ts| :: Unfolds(ts[i], byId)
    ensures Elements(PreorderAll(ts)) <= byId.Keys
    decreases ts, 1
  {
    if ts != [] {
      PreorderStaysInIndex(ts[0], byId);
      PreorderAllStaysInIndex(ts[1..], byId);
    }
  }

  /** `t` can be walked when `used` blocks are already taken. */
  ghost predicate Fits(t: Tree, used: set<string>) {
    NoDup(Preorder(t)) && Elements(Preorder(t)) !! used
  }

  lemma NoDupAppend<T>(a: seq<T>, b: seq<T>)
    ensures NoDup(a + b) <==> NoDup(a) && NoDup(b) && Elements(a) !! Elements(b)
  {
    if NoDup(a + b) {
      forall i, j | 0 <= i < j < |a| ensures a[i] != a[j] {
        assert (a + b)[i] != (a + b)[j];
      }
      forall i, j | 0 <= i < j < |b| ensures b[i] != b[j] {
        assert (a + b)[|a| + i] != (a + b)[|a| + j];
      }
      forall i, j | 0 <= i < |a| && 0 <= j < |b| ensures a[i] != b[j] {
        assert (a + b)[i] != (a + b)[|a| + j];
      }
    }
    if NoDup(a) && NoDup(b) && Elements(a) !! Elements(b) {
      forall i, j | 0 <= i < j < |a + b| ensures (a + b)[i] != (a + b)[j] {
        if i < |a| <= j {
          assert a[i] in Elements(a) && b[j - |a|] in Elements(b);
        }
      }
    }
  }

  lemma ElementsAppend<T>(a: seq<T>, b: seq<T>)
    ensures Elements(a + b) == Elements(a) + Elements(b)
  {
  }

  lemma MiddlePart(id: string, before: seq<string>, here: seq<string>, after: seq<string>, used: set<string>)
    requires NoDup([id] + (before + here + after)) && Elements([id] + (before + here + after)) !! used
    ensures NoDup(here) && Elements(here) !! used + {id} + Elements(before)
  {
    NoDupAppend([id], before + here + after);
    NoDupAppend(before + here, after);
    NoDupAppend(before, here);
    ElementsAppend([id], before + here + after);
    ElementsAppend(before + here, after);
    ElementsAppend(before, here);
  }

  /** A child that cannot be walked after its earlier siblings makes the whole tree unwalkable. */
  lemma BlockedChild(t: Tree, found: seq<Tree>, used: set<string>, byId: map<string, Block>)
    requires Unfolds(t, byId) && |found| < |t.kids|
    requires UnfoldsAll(found, ChildrenOf(byId[t.id])[..|found|], byId)
    requires !Fits(t.kids[|found|], used + {t.id} + Elements(PreorderAll(found)))
    ensures !Fits(t, used)
  {
    UnfoldingPrefixIsUnique(found, t.kids, ChildrenOf(byId[t.id]), byId);
    PreorderSplitAt(t.kids, |found|);
    var child, rest := Preorder(t.kids[|found|]), PreorderAll(t.kids[|found| + 1..]);
    assert Preorder(t) == [t.id] + (PreorderAll(found) + child + rest);
    if Fits(t, used) {
      MiddlePart(t.id, PreorderAll(found), child, rest, used);
    }
  }

  lemma NoTreeFits(id: string, found: seq<Tree>, used: set<string>, byId: map<string, Block>)
    requires id in byId && |found| < |ChildrenOf(byId[id])|
    requires UnfoldsAll(found, ChildrenOf(byId[id])[..|found|], byId)
    requires forall t: Tree | t.id == ChildrenOf(byId[id])[|found|] && Unfolds(t, byId) ::
               !Fits(t, used + {id} + Elements(PreorderAll(found)))
    ensures forall t: Tree | t.id == id && Unfolds(t, byId) :: !Fits(t, used)
  {
    forall t: Tree | t.id == id && Unfolds(t, byId) ensures !Fits(t, used) {
      BlockedChild(t, found, used, byId);
    }
  }

  lemma WalkedChild(id: string, kids: seq<Tree>, child: Tree, used: set<string>)
    requires Fits(Node(id, kids), used)
    requires Fits(child, used + {id} + Elements(PreorderAll(kids)))
    ensures Preorder(Node(id, kids + [child])) == Preorder(Node(id, kids)) + Preorder(child)
    ensures Elements(PreorderAll(kids + [child])) == Elements(PreorderAll(kids)) + Elements(Preorder(child))
    ensures Fits(Node(id, kids + [child]), used)
  {
    var before := [id] + PreorderAll(kids);
    PreorderSnoc(kids, child);
    ElementsAppend([id], PreorderAll(kids));
    NoDupAppend(before, Preorder(child));
    ElementsAppend(before, Preorder(child));
    ElementsAppend(PreorderAll(kids), Preorder(child));
    assert before + Preorder(child) == [id] + PreorderAll(kids + [child]);
  }

  // ---------- what is wrong with a root ----------

  /** The block reached from a root by taking, level by level, the child with each of these numbers. */
  ghost function Reached(root: string, path: seq<nat>, byId: map<string, Block>): Option<string> {
    if path == [] then Some(root)
    else
      var parent, k := Reached(root, path[..|path| - 1], byId), path[|path| - 1];
      if parent.Some? && parent.value in byId && k < |ChildrenOf(byId[parent.value])|
      then Some(ChildrenOf(byId[parent.value])[k]) else None
  }

  ghost predicate IsAt(root: string, path: seq<nat>, byId: map<string, Block>, id: string) {
    Reached(root, path, byId) == Some(id)
  }

  ghost predicate Reaches(root: string, byId: map<string, Block>, id: string) {
    exists path: seq<nat> :: IsAt(root, path, byId, id)
  }

  /** A block below itself. */
  ghost predicate HasCycle(root: string, byId: map<string, Block>) {
    exists p: seq<nat>, q: seq<nat>, id :: p < q && IsAt(root, p, byId, id) && IsAt(root, q, byId, id)
  }

  /** A block at two places, neither of which is below the other. */
  ghost predicate HasTwoParents(root: string, byId: map<string, Block>) {
    exists p: seq<nat>, q: seq<nat>, id :: !(p <= q) && !(q <= p) && IsAt(root, p, byId, id) && IsAt(root, q, byId, id)
  }

  /** What the error of a walk says about its root. */
  ghost predicate Blames(error: PlanError, root: string, byId: map<string, Block>) {
    match error
    case CyclicHierarchy => HasCycle(root, byId)
    case MultipleParents => HasTwoParents(root, byId)
    case MissingChild => exists id :: id !in byId && Reaches(root, byId, id)
    case _ => false
  }

  /** The blocks on the way to `pos` are the ones being visited, and those left before stand elsewhere. */
  ghost predicate Placing(root: string, pos: seq<nat>, byId: map<string, Block>, visiting: set<string>, visited: set<string>) {
    && (forall id | id in visiting :: exists p: seq<nat> :: p < pos && IsAt(root, p, byId, id))
    && (forall p: seq<nat>, id | p < pos && IsAt(root, p, byId, id) :: id in visiting)
    && (forall id | id in visited :: exists p: seq<nat> :: !(pos <= p) && IsAt(root, p, byId, id))
  }

  /** Every one of these blocks stands at `pos` or below it. */
  ghost predicate Below(root: string, pos: seq<nat>, byId: map<string, Block>, ids: set<string>) {
    forall id | id in ids :: exists p: seq<nat> :: pos <= p && IsAt(root, p, byId, id)
  }

  lemma WalkBlames(root: string, pos: seq<nat>, byId: map<string, Block>, visiting: set<string>, visited: set<string>, id: string)
    requires Placing(root, pos, byId, visiting, visited) && IsAt(root, pos, byId, id)
    ensures id in visiting ==> Blames(CyclicHierarchy, root, byId)
    ensures id in visited && id !in visiting ==> Blames(MultipleParents, root, byId)
    ensures id !in byId ==> Blames(MissingChild, root, byId)
  {
    hide IsAt;
    if id in visiting {
      var p: seq<nat> :| p < pos && IsAt(root, p, byId, id);
    } else if id in visited {
      var p: seq<nat> :| !(pos <= p) && IsAt(root, p, byId, id);
      assert !(p < pos);
    }
  }

  /** On the way to the `k`-th child: its parent is being visited too, and its earlier siblings were left. */
  lemma PlacingChild(root: string, pos: seq<nat>, byId: map<string, Block>, visiting: set<string>, visited: set<string>, id: string,
                     k: nat, seen: set<string>)
    requires Placing(root, pos, byId, visiting, visited) && IsAt(root, pos, byId, id) && id in byId && k < |ChildrenOf(byId[id])|
    requires forall v | v in seen :: exists j: nat :: j < k && BelowChild(root, pos, byId, j, v)
    ensures Placing(root, pos + [k], byId, visiting + {id}, visited + seen)
    ensures IsAt(root, pos + [k], byId, ChildrenOf(byId[id])[k])
  {
    var next := pos + [k];
    assert next[..|pos|] == pos;
    hide IsAt;
    forall v | v in visiting + {id} ensures exists p: seq<nat> :: p < next && IsAt(root, p, byId, v) {
      if v == id {
        assert pos < next && IsAt(root, pos, byId, v);
      } else {
        var p: seq<nat> :| p < pos && IsAt(root, p, byId, v);
        assert p < next;
      }
    }
    forall p: seq<nat>, v | p < next && IsAt(root, p, byId, v) ensures v in visiting + {id} {
      AtMostOneThere(root, p, pos, k, byId, v, id);
    }
    forall v | v in visited + seen ensures exists p: seq<nat> :: !(next <= p) && IsAt(root, p, byId, v) {
      if v in visited {
        var p: seq<nat> :| !(pos <= p) && IsAt(root, p, byId, v);
        if next <= p {
          PrefixOfNext(pos, k, p);
        }
      } else {
        var j: nat :| j < k && BelowChild(root, pos, byId, j, v);
        var p: seq<nat> :| pos + [j] <= p && IsAt(root, p, byId, v);
        assert p[|pos|] == j && next[|pos|] == k;
        assert !(next <= p);
      }
    }
  }

  lemma PrefixOfNext(pos: seq<nat>, k: nat, p: seq<nat>)
    requires pos + [k] <= p
    ensures pos <= p
  {
    assert pos == (pos + [k])[..|pos|] == p[..|pos|];
  }

  lemma AtMostOneThere(root: string, p: seq<nat>, pos: seq<nat>, k: nat, byId: map<string, Block>, v: string, id: string)
    requires p < pos + [k] && IsAt(root, p, byId, v) && IsAt(root, pos, byId, id)
    ensures p < pos || (p == pos && v == id)
  {
    if |p| == |pos| {
      assert p == (pos + [k])[..|pos|] == pos;
    } else {
      assert p == (pos + [k])[..|p|] == pos[..|p|];
    }
  }

  /** The block stands at the `j`-th child of `pos`, or below it. */
  ghost predicate BelowChild(root: string, pos: seq<nat>, byId: map<string, Block>, j: nat, id: string) {
    exists p: seq<nat> :: pos + [j] <= p && IsAt(root, p, byId, id)
  }

  lemma SeenNext(root: string, pos: seq<nat>, byId: map<string, Block>, seen: set<string>, k: nat, more: set<string>)
    requires forall v | v in seen :: exists j: nat :: j < k && BelowChild(root, pos, byId, j, v)
    requires Below(root, pos + [k], byId, more)
    ensures forall v | v in seen + more :: exists j: nat :: j < k + 1 && BelowChild(root, pos, byId, j, v)
  {
    hide IsAt;
    forall v | v in seen + more ensures exists j: nat :: j < k + 1 && BelowChild(root, pos, byId, j, v) {
      if v in more {
        assert BelowChild(root, pos, byId, k, v);
      } else {
        var j: nat :| j < k && BelowChild(root, pos, byId, j, v);
        assert j < k + 1;
      }
    }
  }

  lemma SeenIsBelow(root: string, pos: seq<nat>, byId: map<string, Block>, seen: set<string>, k: nat)
    requires forall v | v in seen :: exists j: nat :: j < k && BelowChild(root, pos, byId, j, v)
    ensures Below(root, pos, byId, seen)
  {
    hide IsAt;
    forall v | v in seen ensures exists p: seq<nat> :: pos <= p && IsAt(root, p, byId, v) {
      var j: nat :| j < k && BelowChild(root, pos, byId, j, v);
      var p: seq<nat> :| pos + [j] <= p && IsAt(root, p, byId, v);
      PrefixOfNext(pos, j, p);
    }
  }

  // ---------- the walk ----------

  /** The closure state of one subtree walk: the blocks on the current path and the blocks already left. */
  class SubtreeWalk {
    const byId: map<string, Block>
    var visiting: set<string>
    var visited: set<string>

    constructor (byId: map<string, Block>)
      ensures this.byId == byId && visiting == {} && visited == {}
    {
      this.byId := byId;
      visiting := {};
      visited := {};
    }

    /**
     Succeeds exactly when the block unfolds to a finite tree without repeated blocks that avoids everything
     visited so far, and then returns its preorder. Terminates on every index, cyclic ones included.
     */
    method Walk(id: string, ghost root: string, ghost pos: seq<nat>) returns (r: Result<seq<string>, PlanError>, ghost tree: Tree)
      requires visiting <= byId.Keys
      requires IsAt(root, pos, byId, id) && Placing(root, pos, byId, visiting, visited)
      modifies this
      decreases byId.Keys - visiting, 0
      ensures r.Ok? ==>
                && tree.id == id && Unfolds(tree, byId) && Fits(tree, old(visiting) + old(visited))
                && r.value == Preorder(tree)
                && visiting == old(visiting) && visited == old(visited) + Elements(Preorder(tree))
      ensures r.Err? ==>
                forall t: Tree | t.id == id && Unfolds(t, byId) :: !Fits(t, old(visiting) + old(visited))
      ensures r.Err? ==> Blames(r.error, root, byId)
      ensures r.Ok? ==> Below(root, pos, byId, Elements(Preorder(tree)))
    {
      WalkBlames(root, pos, byId, visiting, visited, id);
      hide IsAt, Placing, Blames;
      tree := Node(id, []);
      ghost var used := visiting + visited;
      if id in visiting || id in visited {
        forall t: Tree | t.id == id && Unfolds(t, byId) ensures !Fits(t, used) {
          assert Preorder(t)[0] == id;
        }
        return Err(if id in visiting then CyclicHierarchy else MultipleParents), tree;
      }
      if id !in byId {
        return Err(MissingChild), tree;
      }
      ghost var before := visited;
      visiting := visiting + {id};
      var descendants, kids := WalkChildren(id, ChildrenOf(byId[id]), used, root, pos);
      if descendants.Err? {
        return Err(descendants.error), tree;
      }
      visiting := visiting - {id};
      visited := visited + {id};
      tree := Node(id, kids);
      ElementsAppend([id], PreorderAll(kids));
      assert pos <= pos;
      return Ok(descendants.value), tree;
    }

    /** The loop over one block's children, with the block on the current path. */
    method WalkChildren(id: string, children: seq<string>, ghost used: set<string>, ghost root: string, ghost pos: seq<nat>)
      returns (r: Result<seq<string>, PlanError>, ghost kids: seq<Tree>)
      requires id in byId && ChildrenOf(byId[id]) == children
      requires visiting <= byId.Keys && visiting + visited == used + {id} && id !in used && id in visiting
      requires IsAt(root, pos, byId, id) && Placing(root, pos, byId, visiting - {id}, visited)
      modifies this
      decreases byId.Keys - visiting, 1
      ensures r.Ok? ==>
                && UnfoldsAll(kids, children, byId) && r.value == Preorder(Node(id, kids)) && Fits(Node(id, kids), used)
                && visiting == old(visiting) && visited == old(visited) + Elements(PreorderAll(kids))
      ensures r.Err? ==> forall t: Tree | t.id == id && Unfolds(t, byId) :: !Fits(t, used)
      ensures r.Err? ==> Blames(r.error, root, byId)
      ensures r.Ok? ==> Below(root, pos, byId, Elements(PreorderAll(kids)))
    {
      hide IsAt, Placing, Blames, BelowChild;
      var result := [id];
      kids := [];
      ghost var seen: set<string> := {};
      assert PreorderAll(kids) == [] && Preorder(Node(id, kids)) == [id];
      for k := 0 to |children|
        invariant visiting == old(visiting)
        invariant |kids| == k && UnfoldsAll(kids, children[..k], byId)
        invariant result == Preorder(Node(id, kids)) && Fits(Node(id, kids), used)
        invariant seen == Elements(PreorderAll(kids)) && visited == old(visited) + seen
        invariant forall v | v in seen :: exists j: nat :: j < k && BelowChild(root, pos, byId, j, v)
      {
        PlacingChild(root, pos, byId, visiting - {id}, old(visited), id, k, seen);
        assert visiting - {id} + {id} == visiting;
        assert visiting + visited == used + {id} + seen;
        var child, childTree := Walk(children[k], root, pos + [k]);
        if child.Err? {
          NoTreeFits(id, kids, used, byId);
          return Err(child.error), kids;
        }
        WalkedChild(id, kids, childTree, used);
        UnfoldsNext(kids, childTree, children, byId);
        result := result + child.value;
        SeenNext(root, pos, byId, seen, k, Elements(child.value));
        seen := seen + Elements(child.value);
        kids := kids + [childTree];
      }
      assert children[..|children|] == children;
      SeenIsBelow(root, pos, byId, seen, |children|);
      return Ok(result), kids;
    }
  }

  /** The subtree of one root, walked with fresh path and visited sets. */
  method Subtree(rootId: string, byId: map<string, Block>)
    returns (r: Result<seq<string>, PlanError>, ghost tree: Tree)
    ensures r.Ok? ==> tree.id == rootId && Unfolds(tree, byId) && NoDup(r.value) && r.value == Preorder(tree)
    ensures r.Err? ==> forall t: Tree | t.id == rootId && Unfolds(t, byId) :: !NoDup(Preorder(t))
    ensures r.Err? ==> Blames(r.error, rootId, byId)
  {
    var walk := new SubtreeWalk(byId);
    r, tree := walk.Walk(rootId, rootId, []);
  }

  // ---------- greedy packing ----------

  ghost function Last<T>(s: seq<T>): T
    requires s != []
  {
    s[|s| - 1]
  }

  ghost function Init<T>(s: seq<T>): seq<T>
    requires s != []
  {
    s[..|s| - 1]
  }

  lemma InitLast<T>(s: seq<T>)
    requires s != []
    ensures s == Init(s) + [Last(s)]
  {
  }

  lemma TakeNext<T>(s: seq<T>, i: nat)
    requires i < |s|
    ensures s[..i] + [s[i]] == s[..i + 1]
  {
  }

  /** The groups the greedy loop has formed after the given roots; the last group is still open. */
  ghost function Pack(forest: seq<Tree>, limit: int): seq<seq<Tree>> {
    if forest == [] then []
    else
      var groups := Pack(Init(forest), limit);
      if groups != [] && |PreorderAll(Last(groups))| + |Preorder(Last(forest))| <= limit
      then Init(groups) + [Last(groups) + [Last(forest)]]
      else groups + [[Last(forest)]]
  }

  lemma {:induction false} FlattenSnoc<T>(groups: seq<seq<T>>, g: seq<T>)
    ensures Flatten(groups + [g]) == Flatten(groups) + g
  {
    assert Init(groups + [g]) == groups;
  }

  lemma {:induction false} PackIsSplit(forest: seq<Tree>, limit: int)
    requires SubtreesWithin(forest, limit)
    ensures IsSplit(Pack(forest, limit), forest, limit)
    ensures forall i | 0 <= i < |Pack(forest, limit)| :: Pack(forest, limit)[i] != []
  {
    if forest != [] {
      PackIsSplit(Init(forest), limit);
      InitLast(forest);
      PackStepIsSplit(Pack(Init(forest), limit), Init(forest), Last(forest), limit);
    }
  }

  /** One greedy step from a split of the roots before. */
  lemma PackStepIsSplit(groups: seq<seq<Tree>>, before: seq<Tree>, t: Tree, limit: int)
    requires IsSplit(groups, before, limit) && (forall i | 0 <= i < |groups| :: groups[i] != []) && |Preorder(t)| <= limit
    ensures var next := if groups != [] && |PreorderAll(Last(groups))| + |Preorder(t)| <= limit
                        then Init(groups) + [Last(groups) + [t]] else groups + [[t]];
            IsSplit(next, before + [t], limit) && forall i | 0 <= i < |next| :: next[i] != []
  {
    hide Preorder, PreorderAll, Flatten;
    if groups != [] && |PreorderAll(Last(groups))| + |Preorder(t)| <= limit {
      ExtendLast(groups, t, limit);
    } else {
      PreorderOne(t);
      FlattenSnoc(groups, [t]);
    }
  }

  lemma ExtendLast(groups: seq<seq<Tree>>, t: Tree, limit: int)
    requires groups != [] && |PreorderAll(Last(groups))| + |Preorder(t)| <= limit
    ensures |PreorderAll(Last(groups) + [t])| <= limit
    ensures Flatten(Init(groups) + [Last(groups) + [t]]) == Flatten(groups) + [t]
  {
    PreorderSnoc(Last(groups), t);
    FlattenSnoc(Init(groups), Last(groups) + [t]);
  }

  /**
   Greedy stays ahead: any other split of the same roots has more groups, or as many groups and a last
   group at least as full.
   */
  ghost predicate Ahead(packed: seq<seq<Tree>>, other: seq<seq<Tree>>) {
    || |packed| < |other|
    || (|packed| == |other| && (packed != [] ==> |PreorderAll(Last(packed))| <= |PreorderAll(Last(other))|))
  }

  lemma {:induction false} PackLastSize(front: seq<Tree>, t: Tree, limit: int)
    ensures var groups, packed := Pack(front, limit), Pack(front + [t], limit);
            var fits := groups != [] && |PreorderAll(Last(groups))| + |Preorder(t)| <= limit;
            && |packed| == |groups| + (if fits then 0 else 1) && packed != []
            && |PreorderAll(Last(packed))| == |Preorder(t)| + (if fits then |PreorderAll(Last(groups))| else 0)
  {
    assert Init(front + [t]) == front && Last(front + [t]) == t;
    PreorderOne(t);
    if Pack(front, limit) != [] {
      PreorderSnoc(Last(Pack(front, limit)), t);
    }
  }

  lemma DropLastRoot(other: seq<seq<Tree>>, forest: seq<Tree>, limit: int)
    requires IsSplit(other, forest, limit) && other != [] && Last(other) != []
    ensures forest != [] && Last(forest) == Last(Last(other))
    ensures IsSplit(Init(other) + [Init(Last(other))], Init(forest), limit)
    ensures |PreorderAll(Last(other))| == |PreorderAll(Init(Last(other)))| + |Preorder(Last(forest))|
    ensures Init(Last(other)) == [] ==> IsSplit(Init(other), Init(forest), limit)
  {
    var open := Last(other);
    InitLast(open);
    assert forest == Flatten(Init(other)) + open;
    assert Init(forest) == Flatten(Init(other)) + Init(open);
    PreorderSnoc(Init(open), Last(open));
    FlattenSnoc(Init(other), Init(open));
  }

  lemma {:induction false} GreedyStaysAhead(forest: seq<Tree>, limit: int, other: seq<seq<Tree>>)
    requires IsSplit(other, forest, limit)
    ensures Ahead(Pack(forest, limit), other)
    decreases |forest|, |other|
  {
    if forest == [] || other == [] {
    } else if Last(other) == [] {
      GreedyStaysAhead(forest, limit, Init(other));
    } else {
      DropLastRoot(other, forest, limit);
      InitLast(forest);
      PackLastSize(Init(forest), Last(forest), limit);
      GreedyStaysAhead(Init(forest), limit, Init(other) + [Init(Last(other))]);
      if Init(Last(other)) == [] {
        GreedyStaysAhead(Init(forest), limit, Init(other));
      }
    }
  }

  // ---------- the planner ----------

  lemma {:induction false} IndexedAt(blocks: seq<Block>, id: string) returns (j: nat)
    requires id in Index(blocks)
    ensures j < |blocks| && IdOf(blocks[j]) == id
  {
    j := |blocks| - 1;
    if IdOf(blocks[j]) != id {
      j := IndexedAt(blocks[..|blocks| - 1], id);
    }
  }

  lemma BlankIsRefused(blocks: seq<Block>, i: nat)
    requires i < |blocks| && IdOf(blocks[i]) == ""
    ensures !Indexable(blocks)
  {
  }

  lemma DuplicateIsRefused(blocks: seq<Block>, i: nat)
    requires i < |blocks| && IdOf(blocks[i]) in Index(blocks[..i])
    ensures !Indexable(blocks) && exists j, k :: 0 <= j < k < |blocks| && IdOf(blocks[j]) == IdOf(blocks[k])
  {
    var j := IndexedAt(blocks[..i], IdOf(blocks[i]));
    assert blocks[..i][j] == blocks[j];
    assert 0 <= j < i < |blocks| && IdOf(blocks[j]) == IdOf(blocks[i]);
  }

  lemma IndexNext(blocks: seq<Block>, i: nat)
    requires i < |blocks| && Indexable(blocks[..i]) && IdOf(blocks[i]) != ""
    requires forall j | 0 <= j < i :: IdOf(blocks[j]) != IdOf(blocks[i])
    ensures Indexable(blocks[..i + 1]) && Index(blocks[..i + 1]) == Index(blocks[..i])[IdOf(blocks[i]) := blocks[i]]
  {
    assert Init(blocks[..i + 1]) == blocks[..i];
    var front := blocks[..i];
    assert forall j | 0 <= j < i :: blocks[..i + 1][j] == front[j] == blocks[j];
  }

  /** What the error of the index says about the blocks. */
  ghost predicate Misnamed(error: PlanError, blocks: seq<Block>) {
    || (error.BlockWithoutId? && exists i :: 0 <= i < |blocks| && IdOf(blocks[i]) == "")
    || (error.DuplicateId? && exists i, j :: 0 <= i < j < |blocks| && IdOf(blocks[i]) == IdOf(blocks[j]))
  }

  method IndexBlocks(blocks: seq<Block>) returns (r: Result<map<string, Block>, PlanError>)
    ensures r.Ok? <==> Indexable(blocks)
    ensures r.Err? ==> Misnamed(r.error, blocks)
    ensures r.Ok? ==> r.value == Index(blocks) && "" !in r.value
  {
    var byId: map<string, Block> := map[];
    assert Indexable(blocks[..0]) && Index(blocks[..0]) == map[];
    hide Indexable, Index;
    for i := 0 to |blocks|
      invariant Indexable(blocks[..i])
      invariant byId == Index(blocks[..i]) && "" !in byId
      invariant forall j | 0 <= j < i :: IdOf(blocks[j]) in byId
    {
      var id := IdOf(blocks[i]);
      if id == "" {
        BlankIsRefused(blocks, i);
        return Err(BlockWithoutId);
      }
      if id in byId {
        DuplicateIsRefused(blocks, i);
        return Err(DuplicateId);
      }
      IndexNext(blocks, i);
      byId := byId[id := blocks[i]];
    }
    assert blocks[..|blocks|] == blocks;
    return Ok(byId);
  }

  lemma SameSizeSubset<T>(a: set<T>, b: set<T>)
    requires a <= b && |a| == |b|
    ensures a == b
  {
    assert |b - a| == 0;
  }

  /** A forest over the roots begins with the part found so far; its next tree fits, and shares nothing with that part. */
  lemma RootRefused(forest: seq<Tree>, found: seq<Tree>, rootIds: seq<string>, byId: map<string, Block>, limit: int)
    requires IsForest(forest, rootIds, byId) && SubtreesWithin(forest, limit)
    requires |found| < |rootIds| && UnfoldsAll(found, rootIds[..|found|], byId)
    ensures forest[..|found|] == found
    ensures var t := forest[|found|];
            && t.id == rootIds[|found|] && Unfolds(t, byId) && NoDup(Preorder(t)) && |Preorder(t)| <= limit
            && Elements(Preorder(t)) !! Elements(PreorderAll(found))
  {
    UnfoldingPrefixIsUnique(found, forest, rootIds, byId);
    PreorderSplitAt(forest, |found|);
    var t := forest[|found|];
    NoDupAppend(PreorderAll(found) + Preorder(t), PreorderAll(forest[|found| + 1..]));
    NoDupAppend(PreorderAll(found), Preorder(t));
  }

  lemma RefuseAll(found: seq<Tree>, rootIds: seq<string>, byId: map<string, Block>, limit: int)
    requires |found| < |rootIds| && UnfoldsAll(found, rootIds[..|found|], byId)
    requires forall t: Tree | t.id == rootIds[|found|] && Unfolds(t, byId) ::
               || !NoDup(Preorder(t)) || |Preorder(t)| > limit
               || !(Elements(Preorder(t)) !! Elements(PreorderAll(found)))
    ensures !exists forest :: IsForest(forest, rootIds, byId) && SubtreesWithin(forest, limit)
  {
    forall forest | IsForest(forest, rootIds, byId) && SubtreesWithin(forest, limit) ensures false {
      RootRefused(forest, found, rootIds, byId, limit);
    }
  }

  lemma RefuseUncovered(found: seq<Tree>, rootIds: seq<string>, byId: map<string, Block>, limit: int)
    requires UnfoldsAll(found, rootIds, byId) && Elements(PreorderAll(found)) != byId.Keys
    ensures !exists forest :: IsForest(forest, rootIds, byId) && SubtreesWithin(forest, limit)
  {
    assert rootIds[..|found|] == rootIds;
    forall forest | IsForest(forest, rootIds, byId) ensures forest == found {
      UnfoldingPrefixIsUnique(found, forest, rootIds, byId);
    }
  }

  /** The greedy groups after `forest`: some closed ones and, once a root was seen, an open one. */
  ghost predicate PackedSoFar(closed: seq<seq<Tree>>, open: seq<Tree>, forest: seq<Tree>, limit: int) {
    if open == [] then closed == [] && forest == [] else Pack(forest, limit) == closed + [open]
  }

  lemma {:induction false} BatchExtends(open: seq<Tree>, t: Tree, byId: map<string, Block>)
    ensures BatchOf(open + [t], byId) ==
            Batch(RootIds(open) + [t.id], BlocksAt(PreorderAll(open), byId) + BlocksAt(Preorder(t), byId))
    ensures PreorderAll(open) == [] <==> open == []
  {
    PreorderSnoc(open, t);
  }

  /** Marks one subtree's blocks as placed, unless one of them already belongs to an earlier root. */
  method Place(ids: seq<string>, placed: set<string>, descendants: seq<Block>, byId: map<string, Block>)
    returns (r: Result<(set<string>, seq<Block>), PlanError>)
    requires NoDup(ids)
    ensures r.Ok? <==> Elements(ids) !! placed
    ensures r.Err? ==> r.error.MultipleRoots?
    ensures r.Ok? ==> r.value == (placed + Elements(ids), descendants + BlocksAt(ids, byId))
  {
    var marked, blocks := placed, descendants;
    for k := 0 to |ids|
      invariant marked == placed + Elements(ids[..k])
      invariant Elements(ids[..k]) !! placed
      invariant blocks == descendants + BlocksAt(ids[..k], byId)
    {
      if ids[k] in marked {
        assert ids[k] !in ids[..k];
        return Err(MultipleRoots);
      }
      assert ids[..k + 1] == ids[..k] + [ids[k]];
      marked := marked + {ids[k]};
      blocks := blocks + [Lookup(byId, ids[k])];
    }
    assert ids[..|ids|] == ids;
    return Ok((marked, blocks));
  }

  /** A walked subtree that is too large, or meets an earlier root's blocks, rules out every forest. */
  lemma RefuseTree(tree: Tree, found: seq<Tree>, rootIds: seq<string>, byId: map<string, Block>, limit: int)
    requires |found| < |rootIds| && UnfoldsAll(found, rootIds[..|found|], byId)
    requires tree.id == rootIds[|found|] && Unfolds(tree, byId)
    requires |Preorder(tree)| > limit || !(Elements(Preorder(tree)) !! Elements(PreorderAll(found)))
    ensures !exists forest :: IsForest(forest, rootIds, byId) && SubtreesWithin(forest, limit)
  {
    forall t: Tree | t.id == tree.id && Unfolds(t, byId) ensures t == tree {
      UnfoldingIsUnique(t, tree, byId);
    }
    RefuseAll(found, rootIds, byId, limit);
  }

  lemma PackIsOptimal(batches: seq<Batch>, forest: seq<Tree>, byId: map<string, Block>, limit: int)
    requires SubtreesWithin(forest, limit) && RealizesSplit(batches, Pack(forest, limit), byId)
    ensures IsOptimalPlan(batches, forest, byId, limit)
  {
    PackIsSplit(forest, limit);
    forall groups | IsSplit(groups, forest, limit) ensures |batches| <= |groups| {
      GreedyStaysAhead(forest, limit, groups);
    }
  }

  /** The planner's variables after some roots, and the trees, closed groups and open group they stand for. */
  datatype Planner = Planner(placed: set<string>, batches: seq<Batch>, batch: Batch)

  datatype Packing = Packing(forest: seq<Tree>, closed: seq<seq<Tree>>, open: seq<Tree>)

  ghost predicate Placed(p: Planner, k: Packing, roots: seq<string>, byId: map<string, Block>, limit: int) {
    && UnfoldsAll(k.forest, roots, byId) && SubtreesWithin(k.forest, limit)
    && p.placed == Elements(PreorderAll(k.forest)) && NoDup(PreorderAll(k.forest))
  }

  ghost predicate Packed(p: Planner, k: Packing, byId: map<string, Block>, limit: int) {
    && PackedSoFar(k.closed, k.open, k.forest, limit)
    && RealizesSplit(p.batches, k.closed, byId) && p.batch == BatchOf(k.open, byId)
  }

  /** What the error of a plan says about its roots. */
  ghost predicate Refuses(error: PlanError, rootIds: seq<string>, byId: map<string, Block>, limit: int) {
    match error
    case EmptyRootId => "" in rootIds
    case RootTooLarge => exists t: Tree :: t.id in rootIds && Unfolds(t, byId) && |Preorder(t)| > limit
    case MultipleRoots => exists i, j, t: Tree, u: Tree :: 0 <= i < j < |rootIds| && Shares(t, rootIds[i], u, rootIds[j], byId)
    case OutsideRoots => exists forest :: UnfoldsAll(forest, rootIds, byId) && Elements(PreorderAll(forest)) < byId.Keys
    case _ => exists i :: 0 <= i < |rootIds| && Blames(error, rootIds[i], byId)
  }

  /** The trees of two roots have a block in common. */
  ghost predicate Shares(t: Tree, a: string, u: Tree, b: string, byId: map<string, Block>) {
    && t.id == a && Unfolds(t, byId) && u.id == b && Unfolds(u, byId)
    && !(Elements(Preorder(t)) !! Elements(Preorder(u)))
  }

  lemma {:induction false} SharedTree(found: seq<Tree>, id: string) returns (i: nat)
    requires id in Elements(PreorderAll(found))
    ensures i < |found| && id in Elements(Preorder(found[i]))
  {
    if id in Preorder(found[0]) {
      i := 0;
    } else {
      i := SharedTree(found[1..], id);
      i := i + 1;
    }
  }

  lemma OverlapIsShared(found: seq<Tree>, tree: Tree, rootIds: seq<string>, byId: map<string, Block>, limit: int)
    requires |found| < |rootIds| && UnfoldsAll(found, rootIds[..|found|], byId)
    requires tree.id == rootIds[|found|] && Unfolds(tree, byId) && !(Elements(Preorder(tree)) !! Elements(PreorderAll(found)))
    ensures Refuses(MultipleRoots, rootIds, byId, limit)
  {
    var id :| id in Elements(Preorder(tree)) && id in Elements(PreorderAll(found));
    var i := SharedTree(found, id);
    assert found[i].id == rootIds[..|found|][i] == rootIds[i];
    assert Shares(found[i], rootIds[i], tree, rootIds[|found|], byId);
  }

  ghost predicate NoForest(rootIds: seq<string>, byId: map<string, Block>, limit: int) {
    !exists forest :: IsForest(forest, rootIds, byId) && SubtreesWithin(forest, limit)
  }

  /** Opens a new batch when the next subtree would not fit in the current one. */
  method MakeRoom(p: Planner, size: nat, limit: int, ghost k: Packing, ghost tree: Tree, byId: map<string, Block>)
    returns (q: Planner, ghost m: Packing)
    requires Packed(p, k, byId, limit) && size == |Preorder(tree)|
    ensures q.placed == p.placed && m.forest == k.forest
    ensures RealizesSplit(q.batches, m.closed, byId) && q.batch == BatchOf(m.open, byId)
    ensures PackedSoFar(m.closed, m.open + [tree], m.forest + [tree], limit)
  {
    BatchExtends(k.open, tree, byId);
    if |p.batch.descendants| > 0 && |p.batch.descendants| + size > limit {
      q := Planner(p.placed, p.batches + [p.batch], Batch([], []));
      m := Packing(k.forest, k.closed + [k.open], []);
      assert m.open + [tree] == [tree] && BatchOf([], byId) == Batch([], []);
    } else {
      q, m := p, k;
    }
  }

  lemma PlacedNext(p: Planner, k: Packing, roots: seq<string>, byId: map<string, Block>, limit: int, tree: Tree)
    requires Placed(p, k, roots, byId, limit)
    requires Unfolds(tree, byId) && NoDup(Preorder(tree)) && |Preorder(tree)| <= limit
    requires Elements(Preorder(tree)) !! p.placed
    ensures var q := p.(placed := p.placed + Elements(Preorder(tree)));
            Placed(q, k.(forest := k.forest + [tree]), roots + [tree.id], byId, limit)
  {
    PreorderSnoc(k.forest, tree);
    NoDupAppend(PreorderAll(k.forest), Preorder(tree));
    ElementsAppend(PreorderAll(k.forest), Preorder(tree));
  }

  /** One round of the planner's loop over the roots. */
  method AddRoot(p: Planner, rootIds: seq<string>, i: nat, byId: map<string, Block>, limit: int, ghost k: Packing)
    returns (r: Result<Planner, PlanError>, ghost m: Packing)
    requires i < |rootIds| && "" !in byId
    requires Placed(p, k, rootIds[..i], byId, limit) && Packed(p, k, byId, limit)
    ensures r.Ok? ==> Placed(r.value, m, rootIds[..i + 1], byId, limit) && Packed(r.value, m, byId, limit)
    ensures r.Err? ==> NoForest(rootIds, byId, limit) && Refuses(r.error, rootIds, byId, limit)
  {
    m := k;
    var rootId := rootIds[i];
    if rootId == "" {
      RefuseAll(k.forest, rootIds, byId, limit);
      return Err(EmptyRootId), m;
    }
    var subtree, tree := Subtree(rootId, byId);
    if subtree.Err? {
      RefuseAll(k.forest, rootIds, byId, limit);
      return Err(subtree.error), m;
    }
    if |subtree.value| > limit {
      RefuseTree(tree, k.forest, rootIds, byId, limit);
      return Err(RootTooLarge), m;
    }
    var q: Planner;
    q, m := MakeRoom(p, |subtree.value|, limit, k, tree, byId);
    var placing := Place(subtree.value, q.placed, q.batch.descendants, byId);
    if placing.Err? {
      RefuseTree(tree, k.forest, rootIds, byId, limit);
      OverlapIsShared(k.forest, tree, rootIds, byId, limit);
      return Err(placing.error), m;
    }
    PlacedNext(p, k, rootIds[..i], byId, limit, tree);
    TakeNext(rootIds, i);
    BatchExtends(m.open, tree, byId);
    r := Ok(Planner(placing.value.0, q.batches, Batch(q.batch.childrenId + [rootId], placing.value.1)));
    m := Packing(m.forest + [tree], m.closed, m.open + [tree]);
  }

  lemma LastFlush(p: Planner, k: Packing, byId: map<string, Block>, limit: int)
    requires Packed(p, k, byId, limit)
    ensures RealizesSplit(if |p.batch.childrenId| != 0 then p.batches + [p.batch] else p.batches, Pack(k.forest, limit), byId)
  {
    assert |p.batch.childrenId| == |k.open|;
  }

  lemma UncoveredIsRefused(found: seq<Tree>, rootIds: seq<string>, byId: map<string, Block>, limit: int)
    requires UnfoldsAll(found, rootIds, byId)
    ensures Elements(PreorderAll(found)) < byId.Keys ==> Refuses(OutsideRoots, rootIds, byId, limit)
  {
    hide UnfoldsAll;
  }

  /** The last flush and the check that no block was left outside the roots. */
  method Finish(p: Planner, rootIds: seq<string>, byId: map<string, Block>, limit: int, ghost k: Packing)
    returns (r: Result<seq<Batch>, PlanError>)
    requires Placed(p, k, rootIds, byId, limit) && Packed(p, k, byId, limit)
    ensures r.Err? ==> NoForest(rootIds, byId, limit) && Refuses(r.error, rootIds, byId, limit)
    ensures r.Ok? ==> SubtreesWithin(k.forest, limit) && IsForest(k.forest, rootIds, byId)
                      && IsOptimalPlan(r.value, k.forest, byId, limit)
  {
    LastFlush(p, k, byId, limit);
    PreorderAllStaysInIndex(k.forest, byId);
    UncoveredIsRefused(k.forest, rootIds, byId, limit);
    hide Refuses, Packed, RealizesSplit, Pack, IsOptimalPlan, UnfoldsAll, NoDup, SubtreesWithin, PreorderAll;
    var batches := p.batches;
    if |p.batch.childrenId| != 0 {
      batches := batches + [p.batch];
    }
    if |p.placed| != |byId| {
      RefuseUncovered(k.forest, rootIds, byId, limit);
      return Err(OutsideRoots);
    }
    SameSizeSubset(p.placed, byId.Keys);
    PackIsOptimal(batches, k.forest, byId, limit);
    return Ok(batches);
  }

  /**
   Planning succeeds exactly when the blocks form a forest over the roots that covers every block once and
   keeps each subtree within the limit; the batches then hold whole subtrees in preorder and root order, and
   no order-preserving split within the limit has fewer of them.
   */
  method Plan(rootIds: seq<string>, blocks: seq<Block>, limit: int) returns (r: Result<seq<Batch>, PlanError>)
    ensures r.Ok? <==> Plannable(rootIds, blocks, limit)
    ensures r.Err? ==> (r.error.InvalidLimit? && limit <= 0) || Misnamed(r.error, blocks)
                       || (Indexable(blocks) && Refuses(r.error, rootIds, Index(blocks), limit))
    ensures r.Ok? ==> exists forest :: IsForest(forest, rootIds, Index(blocks))
                                       && IsOptimalPlan(r.value, forest, Index(blocks), limit)
  {
    if limit <= 0 {
      return Err(InvalidLimit);
    }
    var index := IndexBlocks(blocks);
    if index.Err? {
      return Err(index.error);
    }
    var byId := index.value;
    var planner := Planner({}, [], Batch([], []));
    ghost var k := Packing([], [], []);
    assert BatchOf([], byId) == Batch([], []);
    for i := 0 to |rootIds|
      invariant Placed(planner, k, rootIds[..i], byId, limit) && Packed(planner, k, byId, limit)
    {
      var round, m := AddRoot(planner, rootIds, i, byId, limit, k);
      if round.Err? {
        return Err(round.error);
      }
      planner, k := round.value, m;
    }
    assert rootIds[..|rootIds|] == rootIds;
    r := Finish(planner, rootIds, byId, limit, k);
  }

  // ---------- what the batches contain, read in order ----------

  ghost function RootsInOrder(batches: seq<Batch>): seq<string> {
    if batches == [] then [] else RootsInOrder(Init(batches)) + Last(batches).childrenId
  }

  ghost function BlocksInOrder(batches: seq<Batch>): seq<Block> {
    if batches == [] then [] else BlocksInOrder(Init(batches)) + Last(batches).descendants
  }

  lemma RootIdsAppend(a: seq<Tree>, b: seq<Tree>)
    ensures RootIds(a + b) == RootIds(a) + RootIds(b)
  {
  }

  lemma BlocksAtAppend(a: seq<string>, b: seq<string>, byId: map<string, Block>)
    ensures BlocksAt(a + b, byId) == BlocksAt(a, byId) + BlocksAt(b, byId)
  {
  }

  /** Reading the batches of a plan in order gives back the root list and the forest's preorder. */
  lemma {:induction false} PlanKeepsOrder(batches: seq<Batch>, groups: seq<seq<Tree>>, forest: seq<Tree>, byId: map<string, Block>)
    requires Flatten(groups) == forest && RealizesSplit(batches, groups, byId)
    ensures RootsInOrder(batches) == RootIds(forest)
    ensures BlocksInOrder(batches) == BlocksAt(PreorderAll(forest), byId)
    decreases |groups|
  {
    if groups != [] {
      var front := Flatten(Init(groups));
      PlanKeepsOrder(Init(batches), Init(groups), front, byId);
      PreorderAppend(front, Last(groups));
      RootIdsAppend(front, Last(groups));
      BlocksAtAppend(PreorderAll(front), PreorderAll(Last(groups)), byId);
    }
  }
}
