// The plan of open questions: a forest of goals updated in place, and the check that decides
// whether a run may finish (server/agent/memory.go).
module Goals {
  import opened Strings

  const MAX_GOALS: nat := 30
  const MAX_GOAL_DESC_LEN: nat := 500

  datatype Status = Pending | Running | Complete | Rejected | Unknown

  datatype Goal = Goal(id: string, parent: string, description: string, status: Status, blocking: bool, result: string, stamped: bool)

  predicate Terminal(s: Status) {
    s.Complete? || s.Rejected?
  }

  predicate Open(g: Goal) {
    !Terminal(g.status)
  }

  // ----- the forest -----

  function IdsOf(goals: seq<Goal>): set<string> {
    set g | g in goals :: g.id
  }

  /** The parent id recorded for an id; "" for a root, and for an id that is not there. */
  function ParentOf(goals: seq<Goal>, id: string): string {
    if goals == [] then "" else if goals[|goals| - 1].id == id then goals[|goals| - 1].parent else ParentOf(goals[..|goals| - 1], id)
  }

  /** Where n steps up from an id lead. */
  function Up(goals: seq<Goal>, id: string, n: nat): string
    decreases |goals|, n
  {
    if n == 0 then id else ParentOf(goals, Up(goals, id, n - 1))
  }

  predicate UniqueIds(goals: seq<Goal>) {
    forall i, j :: 0 <= i < j < |goals| ==> goals[i].id != goals[j].id
  }

  predicate Named(goals: seq<Goal>) {
    forall g :: g in goals ==> g.id != "" && TrimSpace(g.id) == g.id
  }

  predicate ParentsExist(goals: seq<Goal>) {
    forall g :: g in goals && g.parent != "" ==> g.parent in IdsOf(goals)
  }

  ghost predicate OwnAncestor(goals: seq<Goal>, id: string) {
    exists n: nat :: n > 0 && Up(goals, id, n) == id
  }

  /** The walk up from the id ends. */
  ghost predicate Ends(goals: seq<Goal>, id: string) {
    exists n: nat :: Up(goals, id, n) == ""
  }

  ghost predicate Acyclic(goals: seq<Goal>) {
    forall g :: g in goals ==> !OwnAncestor(goals, g.id)
  }

  ghost predicate Forest(goals: seq<Goal>) {
    UniqueIds(goals) && Named(goals) && ParentsExist(goals) && Acyclic(goals)
  }

  /** Every walk up ends within n steps. */
  ghost predicate Bounded(goals: seq<Goal>, n: nat) {
    forall g :: g in goals ==> Up(goals, g.id, n) == ""
  }

  lemma {:induction false} ParentIs(goals: seq<Goal>, g: Goal)
    requires UniqueIds(goals) && g in goals
    ensures ParentOf(goals, g.id) == g.parent
  {
    var n := |goals| - 1;
    if goals[n] != g {
      assert goals == goals[..n] + [goals[n]];
      ParentIs(goals[..n], g);
      var i :| 0 <= i < n && goals[i] == g;
      assert goals[i].id != goals[n].id;
    }
  }

  lemma {:induction false} NoParent(goals: seq<Goal>, id: string)
    requires id !in IdsOf(goals)
    ensures ParentOf(goals, id) == ""
  {
    if goals != [] {
      var n := |goals| - 1;
      assert goals == goals[..n] + [goals[n]];
      assert goals[n] in goals;
      forall g | g in goals[..n] ensures g in goals {}
      NoParent(goals[..n], id);
    }
  }

  lemma RootStays(goals: seq<Goal>)
    requires Named(goals)
    ensures ParentOf(goals, "") == ""
  {
    NoParent(goals, "");
  }

  lemma {:induction false} UpAdds(goals: seq<Goal>, id: string, m: nat, n: nat)
    ensures Up(goals, id, m + n) == Up(goals, Up(goals, id, m), n)
  {
    if n > 0 {
      UpAdds(goals, id, m, n - 1);
      assert m + n - 1 == m + (n - 1);
    }
  }

  lemma {:induction false} UpStaysOut(goals: seq<Goal>, id: string, m: nat, n: nat)
    requires Named(goals) && Up(goals, id, m) == "" && m <= n
    ensures Up(goals, id, n) == ""
    decreases n
  {
    if m < n {
      UpStaysOut(goals, id, m, n - 1);
      RootStays(goals);
    }
  }

  /** A walk that comes back to where it was never ends. */
  lemma {:induction false} CycleNeverEnds(goals: seq<Goal>, id: string, n: nat, k: nat)
    requires Named(goals) && id != "" && n > 0 && Up(goals, id, n) == id
    ensures Up(goals, id, k) != ""
    decreases k
  {
    if Up(goals, id, k) == "" {
      if k < n {
        UpStaysOut(goals, id, k, n);
      } else {
        UpAdds(goals, id, n, k - n);
        CycleNeverEnds(goals, id, n, k - n);
      }
    }
  }

  /** Walks that all end are walks without cycles. */
  lemma EndingIsAcyclic(goals: seq<Goal>)
    requires Named(goals) && forall g :: g in goals ==> Ends(goals, g.id)
    ensures Acyclic(goals)
  {
    forall g | g in goals ensures !OwnAncestor(goals, g.id) {
      if OwnAncestor(goals, g.id) {
        var n: nat :| n > 0 && Up(goals, g.id, n) == g.id;
        var k: nat :| Up(goals, g.id, k) == "";
        CycleNeverEnds(goals, g.id, n, k);
      }
    }
  }

  lemma {:induction false} WalkIn(goals: seq<Goal>, g: Goal, n: nat)
    requires UniqueIds(goals) && Named(goals) && ParentsExist(goals) && g in goals
    ensures Up(goals, g.id, n) == "" || Up(goals, g.id, n) in IdsOf(goals)
    decreases n
  {
    if n > 0 {
      WalkIn(goals, g, n - 1);
      var id := Up(goals, g.id, n - 1);
      if id == "" {
        RootStays(goals);
      } else {
        var h :| h in goals && h.id == id;
        ParentIs(goals, h);
      }
    }
  }

  /** The ids met on the first n steps up. */
  ghost function Met(goals: seq<Goal>, id: string, n: nat): set<string> {
    set k | 0 <= k < n :: Up(goals, id, k)
  }

  lemma NoRepeat(goals: seq<Goal>, g: Goal, k: nat, m: nat)
    requires Forest(goals) && g in goals && k < m && Up(goals, g.id, k) != ""
    ensures Up(goals, g.id, k) != Up(goals, g.id, m)
  {
    WalkIn(goals, g, k);
    var h :| h in goals && h.id == Up(goals, g.id, k);
    UpAdds(goals, g.id, k, m - k);
    assert !OwnAncestor(goals, h.id);
    assert m - k > 0 && Up(goals, h.id, m - k) == Up(goals, g.id, m);
  }

  lemma NotMet(goals: seq<Goal>, g: Goal, n: nat)
    requires Forest(goals) && g in goals && Up(goals, g.id, n) != ""
    ensures Up(goals, g.id, n) !in Met(goals, g.id, n)
  {
    forall k: nat | k < n ensures Up(goals, g.id, k) != Up(goals, g.id, n) {
      if Up(goals, g.id, k) != "" {
        NoRepeat(goals, g, k, n);
      }
    }
  }

  lemma {:induction false} MetAreMany(goals: seq<Goal>, g: Goal, n: nat)
    requires Forest(goals) && g in goals && Up(goals, g.id, n) != ""
    ensures |Met(goals, g.id, n + 1)| == n + 1 && Met(goals, g.id, n + 1) <= IdsOf(goals)
    decreases n
  {
    MetSplits(goals, g.id, n);
    NotMet(goals, g, n);
    WalkIn(goals, g, n);
    if n == 0 {
      assert Met(goals, g.id, 0) == {};
    } else {
      if Up(goals, g.id, n - 1) == "" {
        UpStaysOut(goals, g.id, n - 1, n);
      }
      MetAreMany(goals, g, n - 1);
    }
  }

  lemma MetSplits(goals: seq<Goal>, id: string, n: nat)
    ensures Met(goals, id, n + 1) == Met(goals, id, n) + {Up(goals, id, n)}
  {
  }

  lemma {:induction false} SmallerSet(a: set<string>, b: set<string>)
    requires a <= b
    ensures |a| <= |b|
    decreases |a|
  {
    if a != {} {
      var x :| x in a;
      SmallerSet(a - {x}, b - {x});
    }
  }

  /** A forest with its bound. Stated of every x equal to the goals, so that a proof unfolds it only on demand. */
  ghost predicate Searchable(goals: seq<Goal>, bound: nat) {
    forall x | x == goals :: Forest(x) && Bounded(x, bound)
  }

  /** In a forest every walk up ends within as many steps as there are ids. */
  lemma ForestIsBounded(goals: seq<Goal>)
    requires Forest(goals)
    ensures Bounded(goals, |IdsOf(goals)|) && Searchable(goals, |IdsOf(goals)|)
  {
    var n := |IdsOf(goals)|;
    forall g | g in goals ensures Up(goals, g.id, n) == "" {
      if Up(goals, g.id, n) != "" {
        MetAreMany(goals, g, n);
        SmallerSet(Met(goals, g.id, n + 1), IdsOf(goals));
      }
    }
  }

  // ----- the open paths that block -----

  /** Goals from a blocking root down to a last one, each the parent of the next, all open. */
  ghost predicate OpenPath(goals: seq<Goal>, path: seq<Goal>) {
    && path != []
    && (forall i :: 0 <= i < |path| ==> path[i] in goals && Open(path[i]))
    && path[0].parent == "" && path[0].blocking
    && (forall i, j :: 0 <= i && j == i + 1 < |path| ==> path[j].parent == path[i].id)
  }

  /** An open path that no open goal continues: its last goal is one of the deepest. */
  ghost predicate Blocker(goals: seq<Goal>, path: seq<Goal>) {
    && OpenPath(goals, path)
    && forall g :: g in goals && g.parent == path[|path| - 1].id ==> !Open(g)
  }

  function ChildrenOf(goals: seq<Goal>, id: string): seq<Goal> {
    if goals == [] then []
    else
      var g := goals[|goals| - 1];
      var before := ChildrenOf(goals[..|goals| - 1], id);
      if g.parent == id then before + [g] else before
  }

  lemma {:induction false} ChildrenAre(goals: seq<Goal>, id: string)
    ensures forall g :: g in ChildrenOf(goals, id) <==> g in goals && g.parent == id
  {
    if goals != [] {
      ChildrenAre(goals[..|goals| - 1], id);
      assert goals == goals[..|goals| - 1] + [goals[|goals| - 1]];
    }
  }

  lemma {:induction false} PathUp(goals: seq<Goal>, path: seq<Goal>, k: nat)
    requires UniqueIds(goals) && OpenPath(goals, path) && k < |path|
    ensures Up(goals, path[|path| - 1].id, k) == path[|path| - 1 - k].id
  {
    if k > 0 {
      PathUp(goals, path, k - 1);
      ParentIs(goals, path[|path| - k]);
      assert path[|path| - k].parent == path[|path| - 1 - k].id;
    }
  }

  lemma PathIsShort(goals: seq<Goal>, path: seq<Goal>, bound: nat)
    requires Searchable(goals, bound) && OpenPath(goals, path)
    ensures |path| <= bound
  {
    assert Forest(goals) && Bounded(goals, bound);
    if |path| > bound {
      PathUp(goals, path, bound);
    }
  }

  lemma Extends(goals: seq<Goal>, path: seq<Goal>, g: Goal)
    requires OpenPath(goals, path) && g in goals && g.parent == path[|path| - 1].id && Open(g)
    ensures OpenPath(goals, path + [g])
  {
  }

  /** The blockers that continue the path, in depth-first order. */
  ghost function Branches(goals: seq<Goal>, bound: nat, path: seq<Goal>): seq<seq<Goal>>
    requires Searchable(goals, bound) && OpenPath(goals, path)
    decreases bound - |path|, 1, 0
  {
    PathIsShort(goals, path, bound);
    ChildrenAre(goals, path[|path| - 1].id);
    var kids := ChildrenOf(goals, path[|path| - 1].id);
    if forall g :: g in kids ==> !Open(g) then [path] else BranchesOf(goals, bound, path, kids)
  }

  ghost function BranchesOf(goals: seq<Goal>, bound: nat, path: seq<Goal>, kids: seq<Goal>): seq<seq<Goal>>
    requires Searchable(goals, bound) && OpenPath(goals, path)
    requires forall g :: g in kids ==> g in goals && g.parent == path[|path| - 1].id
    decreases bound - |path|, 0, |kids|
  {
    PathIsShort(goals, path, bound);
    if kids == [] then []
    else
      var g := kids[|kids| - 1];
      var before := BranchesOf(goals, bound, path, kids[..|kids| - 1]);
      if !Open(g) then before
      else
        Extends(goals, path, g);
        PathIsShort(goals, path + [g], bound);
        before + Branches(goals, bound, path + [g])
  }

  lemma {:induction false} BranchesExact(goals: seq<Goal>, bound: nat, path: seq<Goal>, p: seq<Goal>)
    requires Searchable(goals, bound) && OpenPath(goals, path)
    ensures p in Branches(goals, bound, path) <==> path <= p && Blocker(goals, p)
    decreases bound - |path|, 1, 0
  {
    PathIsShort(goals, path, bound);
    var last := path[|path| - 1];
    ChildrenAre(goals, last.id);
    var kids := ChildrenOf(goals, last.id);
    if path <= p && p != path && OpenPath(goals, p) {
      assert p[|path| - 1] == last && p[|path|].parent == last.id && p[|path|] in kids;
    }
    if exists g :: g in kids && Open(g) {
      BranchesOfExact(goals, bound, path, kids, p);
      if path <= p && Blocker(goals, p) {
        assert p != path;
        assert path + [p[|path|]] <= p;
      }
    }
  }

  lemma {:induction false} BranchesOfExact(goals: seq<Goal>, bound: nat, path: seq<Goal>, kids: seq<Goal>, p: seq<Goal>)
    requires Searchable(goals, bound) && OpenPath(goals, path)
    requires forall g :: g in kids ==> g in goals && g.parent == path[|path| - 1].id
    ensures p in BranchesOf(goals, bound, path, kids)
       <==> path < p && p[|path|] in kids && Blocker(goals, p)
    decreases bound - |path|, 0, |kids|
  {
    PathIsShort(goals, path, bound);
    if kids != [] {
      var n := |kids| - 1;
      var g := kids[n];
      assert kids == kids[..n] + [g];
      BranchesOfExact(goals, bound, path, kids[..n], p);
      if Open(g) {
        Extends(goals, path, g);
        PathIsShort(goals, path + [g], bound);
        BranchesExact(goals, bound, path + [g], p);
        assert path + [g] <= p <==> path < p && p[|path|] == g;
      }
    }
  }

  lemma {:induction false} BranchesNonEmpty(goals: seq<Goal>, bound: nat, path: seq<Goal>)
    requires Searchable(goals, bound) && OpenPath(goals, path)
    ensures Branches(goals, bound, path) != []
    decreases bound - |path|, 1, 0
  {
    PathIsShort(goals, path, bound);
    ChildrenAre(goals, path[|path| - 1].id);
    var kids := ChildrenOf(goals, path[|path| - 1].id);
    if exists g :: g in kids && Open(g) {
      BranchesOfNonEmpty(goals, bound, path, kids);
    }
  }

  lemma {:induction false} BranchesOfNonEmpty(goals: seq<Goal>, bound: nat, path: seq<Goal>, kids: seq<Goal>)
    requires Searchable(goals, bound) && OpenPath(goals, path)
    requires forall g :: g in kids ==> g in goals && g.parent == path[|path| - 1].id
    requires exists g :: g in kids && Open(g)
    ensures BranchesOf(goals, bound, path, kids) != []
    decreases bound - |path|, 0, |kids|
  {
    PathIsShort(goals, path, bound);
    var n := |kids| - 1;
    var g := kids[n];
    assert kids == kids[..n] + [g];
    if Open(g) {
      Extends(goals, path, g);
      PathIsShort(goals, path + [g], bound);
      BranchesNonEmpty(goals, bound, path + [g]);
    } else {
      BranchesOfNonEmpty(goals, bound, path, kids[..n]);
    }
  }

  predicate BlockingRoot(g: Goal) {
    g.parent == "" && g.blocking && Open(g)
  }

  /** The blockers below the open blocking roots among the first n goals. */
  ghost function BlockersFrom(goals: seq<Goal>, bound: nat, n: nat): seq<seq<Goal>>
    requires Searchable(goals, bound) && n <= |goals|
    decreases |goals|, n
  {
    if n == 0 then []
    else
      var before := BlockersFrom(goals, bound, n - 1);
      if BlockingRoot(goals[n - 1]) then before + Branches(goals, bound, [goals[n - 1]]) else before
  }

  ghost function Blockers(goals: seq<Goal>): seq<seq<Goal>>
    requires Forest(goals)
  {
    ForestIsBounded(goals);
    BlockersFrom(goals, |IdsOf(goals)|, |goals|)
  }

  lemma {:induction false} BlockersFromExact(goals: seq<Goal>, bound: nat, n: nat, p: seq<Goal>)
    requires Searchable(goals, bound) && n <= |goals|
    ensures p in BlockersFrom(goals, bound, n) <==> Blocker(goals, p) && p[0] in goals[..n]
    ensures BlockersFrom(goals, bound, n) == [] <==> forall g :: g in goals[..n] ==> !BlockingRoot(g)
  {
    if n > 0 {
      var g := goals[n - 1];
      BlockersFromExact(goals, bound, n - 1, p);
      assert goals[..n] == goals[..n - 1] + [g];
      if BlockingRoot(g) {
        BranchesExact(goals, bound, [g], p);
        BranchesNonEmpty(goals, bound, [g]);
        assert p != [] ==> ([g] <= p <==> p[0] == g);
      }
    }
  }

  /** The blockers are exactly the deepest open paths that start at an open blocking root. */
  lemma BlockersExact(goals: seq<Goal>, p: seq<Goal>)
    requires Forest(goals)
    ensures p in Blockers(goals) <==> Blocker(goals, p)
  {
    ForestIsBounded(goals);
    BlockersFromExact(goals, |IdsOf(goals)|, |goals|, p);
    assert goals[..|goals|] == goals;
  }

  /** A run may finish exactly when every blocking root is closed, whatever is left open below closed goals. */
  lemma NoBlockersMeans(goals: seq<Goal>)
    requires Forest(goals)
    ensures Blockers(goals) == [] <==> forall g :: g in goals && g.parent == "" && g.blocking ==> Terminal(g.status)
  {
    ForestIsBounded(goals);
    BlockersFromExact(goals, |IdsOf(goals)|, |goals|, []);
    assert goals[..|goals|] == goals;
  }

  // ----- what adding and updating keep -----

  lemma {:induction false} UpUnchanged(goals: seq<Goal>, g: Goal, id: string, n: nat)
    requires Named(goals) && ParentsExist(goals) && UniqueIds(goals) && g.id !in IdsOf(goals) && g.id != ""
    requires id == "" || id in IdsOf(goals)
    ensures Up(goals + [g], id, n) == Up(goals, id, n)
    ensures Up(goals, id, n) == "" || Up(goals, id, n) in IdsOf(goals)
    decreases n
  {
    if n > 0 {
      UpUnchanged(goals, g, id, n - 1);
      var at := Up(goals, id, n - 1);
      assert (goals + [g])[..|goals|] == goals;
      if at == "" {
        RootStays(goals);
      } else {
        var h :| h in goals && h.id == at;
        ParentIs(goals, h);
      }
    }
  }

  lemma UniqueMore(goals: seq<Goal>, g: Goal)
    requires UniqueIds(goals)
    ensures UniqueIds(goals + [g]) <==> g.id !in IdsOf(goals)
    ensures IdsOf(goals + [g]) == IdsOf(goals) + {g.id}
  {
    var more := goals + [g];
    if g.id in IdsOf(goals) {
      var h :| h in goals && h.id == g.id;
      var i :| 0 <= i < |goals| && goals[i] == h;
      assert more[i].id == more[|goals|].id;
    } else {
      forall i, j | 0 <= i < j < |more| ensures more[i].id != more[j].id {
        assert i < |goals| && goals[i] in goals;
      }
    }
    forall id ensures id in IdsOf(more) <==> id in IdsOf(goals) + {g.id} {
      if id == g.id { assert g in more; }
      if id in IdsOf(goals) {
        var h :| h in goals && h.id == id;
        assert h in more;
      }
    }
  }

  lemma NewGoalEnds(goals: seq<Goal>, g: Goal, b: nat)
    requires UniqueIds(goals) && Named(goals) && ParentsExist(goals) && g.id !in IdsOf(goals) && g.id != ""
    requires g.parent == "" || Up(goals, g.parent, b) == ""
    requires g.parent == "" || g.parent in IdsOf(goals)
    ensures Ends(goals + [g], g.id)
  {
    var more := goals + [g];
    assert Up(more, g.id, 0) == g.id && Up(more, g.id, 1) == g.parent;
    if g.parent != "" {
      UpUnchanged(goals, g, g.parent, b);
      UpAdds(more, g.id, 1, b);
      assert Up(more, g.id, 1 + b) == "";
    }
  }

  lemma OldGoalEnds(goals: seq<Goal>, g: Goal, h: Goal, b: nat)
    requires UniqueIds(goals) && Named(goals) && ParentsExist(goals) && g.id !in IdsOf(goals) && g.id != ""
    requires h in goals && Up(goals, h.id, b) == ""
    ensures Ends(goals + [g], h.id)
  {
    UpUnchanged(goals, g, h.id, b);
    assert Up(goals + [g], h.id, b) == "";
  }

  lemma ParentEnds(goals: seq<Goal>, id: string, b: nat)
    requires Bounded(goals, b) && (id == "" || id in IdsOf(goals))
    ensures id == "" || Up(goals, id, b) == ""
  {
    if id != "" {
      var p :| p in goals && p.id == id;
    }
  }

  /** A new goal under an existing parent, or as a root, leaves the forest a forest. */
  lemma AddKeepsForest(goals: seq<Goal>, g: Goal)
    requires Forest(goals) && g.id !in IdsOf(goals) && g.id != "" && TrimSpace(g.id) == g.id
    requires g.parent == "" || g.parent in IdsOf(goals)
    ensures Forest(goals + [g])
  {
    ForestIsBounded(goals);
    UniqueMore(goals, g);
    AllEnd(goals, g, |IdsOf(goals)|);
    EndingIsAcyclic(goals + [g]);
  }

  lemma AllEnd(goals: seq<Goal>, g: Goal, b: nat)
    requires UniqueIds(goals) && Named(goals) && ParentsExist(goals) && g.id !in IdsOf(goals) && g.id != ""
    requires Bounded(goals, b) && (g.parent == "" || g.parent in IdsOf(goals))
    ensures forall h :: h in goals + [g] ==> Ends(goals + [g], h.id)
  {
    forall h | h in goals + [g] ensures Ends(goals + [g], h.id) {
      if h in goals {
        OldGoalEnds(goals, g, h, b);
      } else {
        ParentEnds(goals, g.parent, b);
        NewGoalEnds(goals, g, b);
      }
    }
  }

  predicate SameShape(a: seq<Goal>, b: seq<Goal>) {
    |a| == |b| && forall i :: 0 <= i < |a| ==> a[i].id == b[i].id && a[i].parent == b[i].parent
  }

  lemma {:induction false} ShapeKeepsParent(a: seq<Goal>, b: seq<Goal>, id: string)
    requires SameShape(a, b)
    ensures ParentOf(a, id) == ParentOf(b, id)
  {
    if a != [] {
      ShapeKeepsParent(a[..|a| - 1], b[..|b| - 1], id);
    }
  }

  lemma {:induction false} ShapeKeepsUp(a: seq<Goal>, b: seq<Goal>, id: string, n: nat)
    requires SameShape(a, b)
    ensures Up(a, id, n) == Up(b, id, n)
    decreases n
  {
    if n > 0 {
      ShapeKeepsUp(a, b, id, n - 1);
      ShapeKeepsParent(a, b, Up(a, id, n - 1));
    }
  }

  /** Changing statuses and results leaves the forest a forest. */
  lemma UpdateKeepsForest(a: seq<Goal>, b: seq<Goal>)
    requires Forest(a) && SameShape(a, b)
    ensures Forest(b)
  {
    forall g | g in b ensures exists h :: h in a && h.id == g.id && h.parent == g.parent {
      var i :| 0 <= i < |b| && b[i] == g;
      assert a[i] in a && a[i].id == g.id && a[i].parent == g.parent;
    }
    forall id | id in IdsOf(a) ensures id in IdsOf(b) {
      var i :| 0 <= i < |a| && a[i].id == id;
      assert b[i] in b;
    }
    forall g | g in b ensures !OwnAncestor(b, g.id) {
      if OwnAncestor(b, g.id) {
        var n: nat :| n > 0 && Up(b, g.id, n) == g.id;
        ShapeKeepsUp(a, b, g.id, n);
        assert OwnAncestor(a, g.id);
      }
    }
  }

  // ----- the source's loops -----

  function KidsIn(children: map<string, seq<Goal>>, id: string): seq<Goal> {
    if id in children then children[id] else []
  }

  ghost predicate Mapped(goals: seq<Goal>, children: map<string, seq<Goal>>) {
    forall id :: id != "" ==> KidsIn(children, id) == ChildrenOf(goals, id)
  }

  /** The roots and, by parent, the children, each in the order of the list. */
  method Snapshot(goals: seq<Goal>) returns (roots: seq<Goal>, children: map<string, seq<Goal>>)
    ensures roots == ChildrenOf(goals, "")
    ensures Mapped(goals, children)
  {
    roots, children := [], map[];
    for i := 0 to |goals|
      invariant roots == ChildrenOf(goals[..i], "")
      invariant Mapped(goals[..i], children)
    {
      var g := goals[i];
      NextChild(goals, i);
      MappedNext(goals, i, children);
      if g.parent == "" {
        roots := roots + [g];
      } else {
        children := children[g.parent := KidsIn(children, g.parent) + [g]];
      }
    }
    assert goals[..|goals|] == goals;
  }

  lemma MappedNext(goals: seq<Goal>, i: nat, children: map<string, seq<Goal>>)
    requires i < |goals| && Mapped(goals[..i], children)
    ensures var g := goals[i];
            Mapped(goals[..i + 1], if g.parent == "" then children else children[g.parent := KidsIn(children, g.parent) + [g]])
  {
    var g := goals[i];
    var more := if g.parent == "" then children else children[g.parent := KidsIn(children, g.parent) + [g]];
    NextChild(goals, i);
    forall id | id != "" ensures KidsIn(more, id) == ChildrenOf(goals[..i + 1], id) {
      assert KidsIn(children, id) == ChildrenOf(goals[..i], id);
    }
  }

  lemma NextChild(goals: seq<Goal>, i: nat)
    requires i < |goals|
    ensures forall id :: ChildrenOf(goals[..i + 1], id)
                      == if goals[i].parent == id then ChildrenOf(goals[..i], id) + [goals[i]] else ChildrenOf(goals[..i], id)
  {
    assert goals[..i + 1][..i] == goals[..i];
  }

  lemma NextKid(goals: seq<Goal>, bound: nat, path: seq<Goal>, kids: seq<Goal>, k: nat)
    requires Searchable(goals, bound) && OpenPath(goals, path) && k < |kids|
    requires forall g :: g in kids ==> g in goals && g.parent == path[|path| - 1].id
    ensures kids[k] in kids && (Open(kids[k]) ==> OpenPath(goals, path + [kids[k]]))
    ensures BranchesOf(goals, bound, path, kids[..k + 1])
         == if Open(kids[k]) then BranchesOf(goals, bound, path, kids[..k]) + Branches(goals, bound, path + [kids[k]])
            else BranchesOf(goals, bound, path, kids[..k])
  {
    assert kids[..k + 1][..k] == kids[..k];
    if Open(kids[k]) {
      Extends(goals, path, kids[k]);
    }
  }

  /** What the search finds below a path, whose children are the kids. */
  lemma AllKids(goals: seq<Goal>, bound: nat, path: seq<Goal>, kids: seq<Goal>)
    requires Searchable(goals, bound) && OpenPath(goals, path) && kids == ChildrenOf(goals, path[|path| - 1].id)
    ensures forall g :: g in kids ==> g in goals && g.parent == path[|path| - 1].id
    ensures Branches(goals, bound, path) == if exists g :: g in kids && Open(g) then BranchesOf(goals, bound, path, kids) else [path]
    ensures (forall g :: g in kids ==> !Open(g)) ==> BranchesOf(goals, bound, path, kids) == []
  {
    ChildrenAre(goals, path[|path| - 1].id);
    if forall g :: g in kids ==> !Open(g) {
      BranchesOfClosed(goals, bound, path, kids);
    }
  }

  lemma GoalNamed(goals: seq<Goal>, bound: nat, path: seq<Goal>)
    requires Searchable(goals, bound) && OpenPath(goals, path)
    ensures path[|path| - 1].id != ""
  {
    assert Forest(goals);
  }

  /** The depth-first search: appends the blockers that continue the path with the goal. */
  method CollectFrom(ghost goals: seq<Goal>, ghost bound: nat, children: map<string, seq<Goal>>, goal: Goal, before: seq<Goal>, branches: seq<seq<Goal>>)
    returns (r: seq<seq<Goal>>)
    requires Searchable(goals, bound)
    requires Mapped(goals, children)
    requires |before| < bound && (Open(goal) ==> OpenPath(goals, before + [goal]))
    ensures r == if Open(goal) then branches + Branches(goals, bound, before + [goal]) else branches
    decreases bound - |before| - 1, 1
  {
    if Terminal(goal.status) {
      return branches;
    }
    var path := before + [goal];
    PathIsShort(goals, path, bound);
    GoalNamed(goals, bound, path);
    var kids := KidsIn(children, goal.id);
    AllKids(goals, bound, path, kids);
    var hasNonTerminalChild;
    r, hasNonTerminalChild := CollectChildren(goals, bound, children, kids, path, branches);
    if !hasNonTerminalChild {
      r := r + [path];
    }
  }

  /** The branches found so far hold what the first k children give. */
  ghost predicate Found(goals: seq<Goal>, bound: nat, path: seq<Goal>, kids: seq<Goal>, k: nat, branches: seq<seq<Goal>>, r: seq<seq<Goal>>)
    requires Searchable(goals, bound) && OpenPath(goals, path) && k <= |kids|
    requires forall g :: g in kids ==> g in goals && g.parent == path[|path| - 1].id
  {
    r == branches + BranchesOf(goals, bound, path, kids[..k])
  }

  lemma FindsNext(goals: seq<Goal>, bound: nat, path: seq<Goal>, kids: seq<Goal>, k: nat, branches: seq<seq<Goal>>, r: seq<seq<Goal>>)
    requires Searchable(goals, bound) && OpenPath(goals, path) && k < |kids|
    requires forall g :: g in kids ==> g in goals && g.parent == path[|path| - 1].id
    requires Found(goals, bound, path, kids, k, branches, r)
    ensures !Open(kids[k]) ==> Found(goals, bound, path, kids, k + 1, branches, r)
    ensures Open(kids[k]) ==>
              && OpenPath(goals, path + [kids[k]]) && |path| < bound
              && Found(goals, bound, path, kids, k + 1, branches, r + Branches(goals, bound, path + [kids[k]]))
  {
    NextKid(goals, bound, path, kids, k);
    if Open(kids[k]) {
      PathIsShort(goals, path + [kids[k]], bound);
      Regroup(branches, BranchesOf(goals, bound, path, kids[..k]), Branches(goals, bound, path + [kids[k]]));
    }
  }

  lemma Regroup<T>(a: seq<T>, b: seq<T>, c: seq<T>)
    ensures a + (b + c) == a + b + c
  {
  }

  /** The search's loop over the children of the path's last goal. */
  method CollectChildren(ghost goals: seq<Goal>, ghost bound: nat, children: map<string, seq<Goal>>, kids: seq<Goal>, path: seq<Goal>, branches: seq<seq<Goal>>)
    returns (r: seq<seq<Goal>>, hasNonTerminalChild: bool)
    requires Searchable(goals, bound) && OpenPath(goals, path) && Mapped(goals, children) && |path| <= bound
    requires forall g :: g in kids ==> g in goals && g.parent == path[|path| - 1].id
    ensures r == branches + BranchesOf(goals, bound, path, kids)
    ensures hasNonTerminalChild <==> exists g :: g in kids && Open(g)
    decreases bound - |path|, 0
  {
    r, hasNonTerminalChild := branches, false;
    for k := 0 to |kids|
      invariant hasNonTerminalChild <==> exists m :: 0 <= m < k && Open(kids[m])
      invariant Found(goals, bound, path, kids, k, branches, r)
    {
      FindsNext(goals, bound, path, kids, k, branches, r);
      if !Terminal(kids[k].status) {
        hasNonTerminalChild := true;
        r := CollectFrom(goals, bound, children, kids[k], path, r);
      }
    }
    assert kids[..|kids|] == kids;
  }

  lemma {:induction false} BranchesOfClosed(goals: seq<Goal>, bound: nat, path: seq<Goal>, kids: seq<Goal>)
    requires Searchable(goals, bound) && OpenPath(goals, path)
    requires forall g :: g in kids ==> g in goals && g.parent == path[|path| - 1].id && !Open(g)
    ensures BranchesOf(goals, bound, path, kids) == []
    decreases |kids|
  {
    if kids != [] {
      BranchesOfClosed(goals, bound, path, kids[..|kids| - 1]);
    }
  }

  /** The blockers below the first n goals are those below the first roots. */
  lemma {:induction false} RootsBlock(goals: seq<Goal>, bound: nat, n: nat)
    requires Searchable(goals, bound) && n <= |goals|
    ensures (forall g :: g in ChildrenOf(goals[..n], "") ==> g in goals && g.parent == "")
    ensures BlockersOf(goals, bound, ChildrenOf(goals[..n], "")) == BlockersFrom(goals, bound, n)
  {
    ChildrenAre(goals[..n], "");
    if n > 0 {
      RootsBlock(goals, bound, n - 1);
      NextChild(goals, n - 1);
      var roots := ChildrenOf(goals[..n], "");
      if goals[n - 1].parent == "" {
        assert roots[..|roots| - 1] == ChildrenOf(goals[..n - 1], "");
      }
    }
  }

  lemma NextRoot(goals: seq<Goal>, bound: nat, roots: seq<Goal>, k: nat)
    requires Searchable(goals, bound) && k < |roots|
    requires forall g :: g in roots ==> g in goals && g.parent == ""
    ensures roots[k].parent == "" && (BlockingRoot(roots[k]) ==> OpenPath(goals, [roots[k]]))
    ensures BlockersOf(goals, bound, roots[..k + 1])
         == if BlockingRoot(roots[k]) then BlockersOf(goals, bound, roots[..k]) + Branches(goals, bound, [roots[k]])
            else BlockersOf(goals, bound, roots[..k])
  {
    assert roots[..k + 1][..k] == roots[..k];
  }

  ghost function BlockersOf(goals: seq<Goal>, bound: nat, roots: seq<Goal>): seq<seq<Goal>>
    requires Searchable(goals, bound)
    requires forall g :: g in roots ==> g in goals && g.parent == ""
    decreases |roots|
  {
    if roots == [] then []
    else
      var before := BlockersOf(goals, bound, roots[..|roots| - 1]);
      var g := roots[|roots| - 1];
      if BlockingRoot(g) then before + Branches(goals, bound, [g]) else before
  }

  /** Searches below every open blocking root. */
  method CollectActiveBranches(ghost goals: seq<Goal>, roots: seq<Goal>, children: map<string, seq<Goal>>) returns (branches: seq<seq<Goal>>)
    requires Forest(goals) && roots == ChildrenOf(goals, "") && Mapped(goals, children)
    ensures branches == Blockers(goals)
  {
    ghost var bound := |IdsOf(goals)|;
    ForestIsBounded(goals);
    RootsBlock(goals, bound, |goals|);
    assert goals[..|goals|] == goals;
    branches := BranchesOfRoots(goals, bound, roots, children);
  }

  method BranchesOfRoots(ghost goals: seq<Goal>, ghost bound: nat, roots: seq<Goal>, children: map<string, seq<Goal>>) returns (branches: seq<seq<Goal>>)
    requires Searchable(goals, bound) && Mapped(goals, children)
    requires forall g :: g in roots ==> g in goals && g.parent == ""
    ensures branches == BlockersOf(goals, bound, roots)
  {
    branches := [];
    for k := 0 to |roots|
      invariant branches == BlockersOf(goals, bound, roots[..k])
    {
      var root := roots[k];
      NextRoot(goals, bound, roots, k);
      if !Terminal(root.status) && root.blocking {
        assert [] + [root] == [root];
        PathIsShort(goals, [root], bound);
        branches := CollectFrom(goals, bound, children, root, [], branches);
      }
    }
    assert roots[..|roots|] == roots;
  }

  /** Where a walk up meets an id twice, the goals are no forest. */
  lemma RepeatIsNoForest(goals: seq<Goal>, g: Goal, k: nat, m: nat)
    requires g in goals && k < m && Up(goals, g.id, k) == Up(goals, g.id, m) != ""
    ensures !Forest(goals)
  {
    if Forest(goals) {
      NoRepeat(goals, g, k, m);
    }
  }

  function ParentsOf(goals: seq<Goal>): set<string> {
    set g | g in goals :: g.parent
  }

  lemma {:induction false} ParentIsOne(goals: seq<Goal>, id: string)
    ensures ParentOf(goals, id) == "" || ParentOf(goals, id) in ParentsOf(goals)
  {
    if goals != [] {
      var n := |goals| - 1;
      assert goals[n] in goals;
      ParentIsOne(goals[..n], id);
      forall g | g in goals[..n] ensures g in goals {}
    }
  }

  /** Walks up from one goal, keeping the ids met; returns whether the walk ended without meeting one again. */
  method WalkUp(goals: seq<Goal>, byId: map<string, Goal>, goal: Goal) returns (ends: bool)
    requires UniqueIds(goals) && Named(goals) && goal in goals
    requires Indexed(byId, goals)
    ensures ends ==> Ends(goals, goal.id)
    ensures !ends ==> !Forest(goals)
  {
    var seen := {goal.id};
    var parentId := goal.parent;
    ghost var n: nat := 1;
    ghost var all := IdsOf(goals) + ParentsOf(goals);
    ParentIs(goals, goal);
    MetSplits(goals, goal.id, 0);
    assert Up(goals, goal.id, 1) == goal.parent;
    while parentId != ""
      invariant n >= 1 && parentId == Up(goals, goal.id, n) && seen == Met(goals, goal.id, n)
      invariant seen <= all && (parentId == "" || parentId in all)
      decreases all - seen
    {
      if parentId in seen {
        ghost var k: nat :| k < n && Up(goals, goal.id, k) == parentId;
        RepeatIsNoForest(goals, goal, k, n);
        return false;
      }
      MetSplits(goals, goal.id, n);
      ParentIsOne(goals, parentId);
      seen := seen + {parentId};
      if parentId in byId {
        ParentIs(goals, byId[parentId]);
        parentId := byId[parentId].parent;
      } else {
        NoParent(goals, parentId);
        parentId := "";
      }
      n := n + 1;
    }
    return true;
  }

  // ----- the manager object -----

  predicate ValidDescription(d: string) {
    !Blank(d) && ByteLength(d) <= MAX_GOAL_DESC_LEN
  }

  predicate WellFormed(g: Goal) {
    && g.id != "" && TrimSpace(g.id) == g.id
    && ValidDescription(g.description) && !g.status.Unknown?
    && TrimSpace(g.parent) == g.parent && g.stamped
  }

  datatype Added = Added(id: string) | NotAdded

  class SubgoalManager {
    var goals: seq<Goal>

    ghost predicate Valid()
      reads this
    {
      Forest(goals) && |goals| <= MAX_GOALS
    }

    constructor ()
      ensures Valid() && goals == []
    {
      goals := [];
    }

    method HasGoal(id: string) returns (found: bool)
      ensures found <==> id in IdsOf(goals)
    {
      for i := 0 to |goals|
        invariant forall k :: 0 <= k < i ==> goals[k].id != id
      {
        if goals[i].id == id {
          assert goals[i] in goals;
          return true;
        }
      }
      return false;
    }

    /** `newId` is the id the generator hands out. */
    method AddGoalWithBlocking(description: string, parent: string, blocking: bool, newId: string) returns (r: Added)
      requires Valid() && newId !in IdsOf(goals) && newId != "" && TrimSpace(newId) == newId
      modifies this
      ensures Valid()
      ensures r.Added? <==>
                && |old(goals)| < MAX_GOALS && !Blank(description) && ByteLength(description) <= MAX_GOAL_DESC_LEN
                && TrimSpace(parent) == parent && (parent == "" || parent in IdsOf(old(goals)))
      ensures goals == if r.Added? then old(goals) + [Goal(newId, parent, description, Pending, blocking, "", true)] else old(goals)
      ensures r.Added? ==> r.id == newId
    {
      if |goals| >= MAX_GOALS || Blank(description) || ByteLength(description) > MAX_GOAL_DESC_LEN || parent != TrimSpace(parent) {
        return NotAdded;
      }
      if parent != "" {
        var parentExists := HasGoal(parent);
        if !parentExists {
          return NotAdded;
        }
      }
      var g := Goal(newId, parent, description, Pending, blocking, "", true);
      AddKeepsForest(goals, g);
      goals := goals + [g];
      return Added(newId);
    }

    method UpdateGoalStatus(id: string, status: Status, result: string) returns (found: bool)
      requires Valid()
      modifies this
      ensures Valid() && found == (id in IdsOf(old(goals)))
      ensures |goals| == |old(goals)|
      ensures forall k :: 0 <= k < |goals| ==>
                goals[k] == if old(goals)[k].id == id
                            then old(goals)[k].(status := status, result := if result != "" then result else old(goals)[k].result)
                            else old(goals)[k]
    {
      for i := 0 to |goals|
        invariant goals == old(goals)
        invariant forall k :: 0 <= k < i ==> goals[k].id != id
      {
        if goals[i].id == id {
          assert goals[i] in goals;
          var g := goals[i].(status := status);
          if result != "" {
            g := g.(result := result);
          }
          goals := goals[i := g];
          UpdateKeepsForest(old(goals), goals);
          return true;
        }
      }
      return false;
    }

    method Reset()
      modifies this
      ensures Valid() && goals == []
    {
      goals := [];
    }

    /** Whether the run may finish, and what blocks it: the deepest open paths. */
    method CanFinalize() returns (ok: bool, blockers: seq<seq<Goal>>)
      requires Valid()
      ensures blockers == Blockers(goals)
      ensures forall p :: p in blockers <==> Blocker(goals, p)
      ensures ok <==> forall g :: g in goals && g.parent == "" && g.blocking ==> g.status.Complete? || g.status.Rejected?
    {
      NoBlockersMeans(goals);
      forall p ensures p in Blockers(goals) <==> Blocker(goals, p) {
        BlockersExact(goals, p);
      }
      if |goals| == 0 {
        return true, [];
      }
      var roots, children := Snapshot(goals);
      blockers := CollectActiveBranches(goals, roots, children);
      ok := |blockers| == 0;
    }

    /** Restores a persisted plan, exactly when it is a well-formed forest; else nothing changes. */
    method ReplaceAll(restored: seq<Goal>) returns (ok: bool)
      requires Valid()
      modifies this
      ensures Valid()
      ensures ok <==>
                && |restored| <= MAX_GOALS && Forest(restored)
                && forall g :: g in restored ==>
                     && g.id != "" && TrimSpace(g.id) == g.id && TrimSpace(g.parent) == g.parent
                     && !Blank(g.description) && ByteLength(g.description) <= MAX_GOAL_DESC_LEN
                     && !g.status.Unknown? && g.stamped
      ensures goals == if ok then restored else old(goals)
    {
      if |restored| > MAX_GOALS {
        return false;
      }
      var known, byId := IndexGoals(restored);
      if !known {
        return false;
      }
      ok := CheckParents(restored, byId);
      if ok {
        goals := restored;
      }
    }
  }

  predicate AllWellFormed(goals: seq<Goal>) {
    forall g :: g in goals ==> WellFormed(g)
  }

  ghost predicate Indexed(byId: map<string, Goal>, goals: seq<Goal>) {
    byId.Keys == IdsOf(goals) && forall id :: id in byId ==> byId[id] in goals && byId[id].id == id
  }

  /** The first pass of a restore: every goal is well-formed by itself, and no id comes twice. */
  method IndexGoals(goals: seq<Goal>) returns (ok: bool, byId: map<string, Goal>)
    ensures ok <==> AllWellFormed(goals) && UniqueIds(goals)
    ensures ok ==> Indexed(byId, goals)
  {
    byId := map[];
    for i := 0 to |goals|
      invariant AllWellFormed(goals[..i]) && UniqueIds(goals[..i]) && Indexed(byId, goals[..i])
    {
      var g := goals[i];
      assert g in goals;
      assert goals[..i + 1] == goals[..i] + [g];
      UniqueMore(goals[..i], g);
      if !WellFormed(g) {
        return false, byId;
      }
      if g.id in byId {
        assert !UniqueIds(goals[..i + 1]);
        return false, byId;
      }
      byId := byId[g.id := g];
    }
    assert goals[..|goals|] == goals;
    return true, byId;
  }

  /** The second pass of a restore: every parent exists, and every walk up ends. */
  method CheckParents(goals: seq<Goal>, byId: map<string, Goal>) returns (ok: bool)
    requires UniqueIds(goals) && Named(goals) && Indexed(byId, goals)
    ensures ok <==> Forest(goals)
  {
    for i := 0 to |goals|
      invariant forall k :: 0 <= k < i ==> Checked(goals, goals[k])
    {
      var g := goals[i];
      assert g in goals;
      if g.parent != "" && g.parent !in byId {
        MissingParent(goals, g);
        return false;
      }
      var ends := WalkUp(goals, byId, g);
      if !ends {
        return false;
      }
    }
    AllChecked(goals);
    return true;
  }

  ghost predicate Checked(goals: seq<Goal>, g: Goal) {
    (g.parent == "" || g.parent in IdsOf(goals)) && Ends(goals, g.id)
  }

  lemma MissingParent(goals: seq<Goal>, g: Goal)
    requires g in goals && g.parent != "" && g.parent !in IdsOf(goals)
    ensures !Forest(goals)
  {
  }

  lemma AllChecked(goals: seq<Goal>)
    requires UniqueIds(goals) && Named(goals)
    requires forall k :: 0 <= k < |goals| ==> Checked(goals, goals[k])
    ensures Forest(goals)
  {
    forall g | g in goals ensures Checked(goals, g) {}
    EndingIsAcyclic(goals);
  }
}
