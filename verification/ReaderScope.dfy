/**
  What the scope query of the reader means, over the rows themselves: the
  memberships, the groups, and the tree whose closure the table keeps.
*/
module ReaderScope {
  import opened Wrappers
  import opened AclScope
  import opened AccessResolver

  /** The tree of org units: every unit but a root has a parent. */
  datatype Tree = Tree(units: set<UnitId>, parents: map<UnitId, UnitId>)

  /** The unit `n` steps above `u`. */
  function Above(tree: Tree, u: UnitId, n: nat): Option<UnitId>
    decreases n
  {
    if n == 0 then Some(u)
    else if u in tree.parents then Above(tree, tree.parents[u], n - 1)
    else None
  }

  /** The unit is `a` or lies somewhere below it. */
  ghost predicate AtOrBelow(tree: Tree, u: UnitId, a: UnitId) {
    u in tree.units && exists n: nat :: Above(tree, u, n) == Some(a)
  }

  /** One row for each unit and each of its ancestors, itself included, with the distance. */
  ghost predicate IsClosureOf(closure: set<Path>, tree: Tree) {
    forall p :: p in closure <==> p.descendant in tree.units && Above(tree, p.descendant, p.depth) == Some(p.ancestor)
  }

  /** The membership is the user's own, or that of one of the user's groups. */
  ghost predicate IsOf(db: Db, m: Membership, u: UserId) {
    m.principal == User(u) || exists g: GroupId :: m.principal == Group(g) && (u, g) in db.groupMembers
  }

  /** The membership lets its holder read the unit. */
  ghost predicate Reaches(tree: Tree, m: Membership, now: int, x: UnitId) {
    && (m.expires == None || now < m.expires.value)
    && (x == m.unit || (m.appliesTo == SelfAndDescendants && AtOrBelow(tree, x, m.unit)))
  }

  /**
    The unit is the root or below it, and an unexpired membership, the user's
    own or a group's, is on the unit itself, or covers descendants and is on one
    of its ancestors.
  */
  ghost predicate Reads(db: Db, tree: Tree, u: UserId, root: UnitId, now: int, x: UnitId) {
    && AtOrBelow(tree, x, root)
    && exists i :: i in db.memberships && IsOf(db, db.memberships[i], u) && Reaches(tree, db.memberships[i], now, x)
  }

  /** The scope query gives exactly the units the user reads. */
  lemma ResolveIsByMembership(db: Db, tree: Tree, u: UserId, root: UnitId, now: int, x: UnitId)
    requires IsClosureOf(db.closure, tree)
    ensures x in db.ReaderOf(u).Resolve(root, now) <==> Reads(db, tree, u, root, now, x)
  {
    if x in db.ReaderOf(u).Resolve(root, now) {
      ResolvedReaches(db, tree, u, root, now, x);
    }
    if Reads(db, tree, u, root, now, x) {
      var i :| i in db.memberships && IsOf(db, db.memberships[i], u) && Reaches(tree, db.memberships[i], now, x);
      ReachedResolves(db, tree, u, root, now, x, i);
    }
  }

  lemma ResolvedReaches(db: Db, tree: Tree, u: UserId, root: UnitId, now: int, x: UnitId)
    requires IsClosureOf(db.closure, tree) && x in db.ReaderOf(u).Resolve(root, now)
    ensures AtOrBelow(tree, x, root)
    ensures exists i :: i in db.memberships && IsOf(db, db.memberships[i], u) && Reaches(tree, db.memberships[i], now, x)
  {
    var reader := db.ReaderOf(u);
    var h, c, r :| h in reader.Active(now) && c in db.closure && c.ancestor == h.unit
      && (h.appliesTo.SelfAndDescendants? || c.depth == 0)
      && r in db.closure && r.ancestor == root && r.descendant == c.descendant && c.descendant == x;
    assert Above(tree, x, r.depth) == Some(root) && Above(tree, x, c.depth) == Some(h.unit);
    var i :| i in db.memberships && db.Holds(u, db.memberships[i].principal)
      && h == Held(db.memberships[i].unit, db.memberships[i].appliesTo, db.memberships[i].expires);
    HeldIsOf(db, db.memberships[i], u);
    assert Reaches(tree, db.memberships[i], now, x);
  }

  lemma HeldIsOf(db: Db, m: Membership, u: UserId)
    ensures db.Holds(u, m.principal) <==> IsOf(db, m, u)
  {
  }

  lemma ReachedResolves(db: Db, tree: Tree, u: UserId, root: UnitId, now: int, x: UnitId, i: MembershipId)
    requires IsClosureOf(db.closure, tree) && AtOrBelow(tree, x, root)
    requires i in db.memberships && IsOf(db, db.memberships[i], u) && Reaches(tree, db.memberships[i], now, x)
    ensures x in db.ReaderOf(u).Resolve(root, now)
  {
    var reader, m := db.ReaderOf(u), db.memberships[i];
    var h := Held(m.unit, m.appliesTo, m.expires);
    HeldIsOf(db, m, u);
    assert h in reader.Active(now);
    var toRoot: nat :| Above(tree, x, toRoot) == Some(root);
    var r := Path(root, x, toRoot);
    var n: nat := 0;
    if x != m.unit {
      n := StepsTo(tree, x, m.unit);
    }
    var c := Path(m.unit, x, n);
    assert Above(tree, x, 0) == Some(x);
    assert r in db.closure && c in db.closure;
  }

  lemma StepsTo(tree: Tree, x: UnitId, a: UnitId) returns (n: nat)
    requires AtOrBelow(tree, x, a)
    ensures Above(tree, x, n) == Some(a)
  {
    n :| Above(tree, x, n) == Some(a);
  }

  /** The units are exactly those the user reads, whatever tree the closure table keeps. */
  ghost predicate IsScopeOf(units: set<UnitId>, db: Db, u: UserId, root: UnitId, now: int) {
    forall tree, x {:trigger Reads(db, tree, u, root, now, x)} ::
      IsClosureOf(db.closure, tree) ==> (x in units <==> Reads(db, tree, u, root, now, x))
  }

  lemma ResolveIsScope(db: Db, u: UserId, root: UnitId, now: int)
    ensures IsScopeOf(db.ReaderOf(u).Resolve(root, now), db, u, root, now)
  {
    forall tree, x | IsClosureOf(db.closure, tree)
      ensures x in db.ReaderOf(u).Resolve(root, now) <==> Reads(db, tree, u, root, now, x)
    {
      ResolveIsByMembership(db, tree, u, root, now, x);
    }
  }
}
