/**
  The reader side of access control: which org units a user may read, resolved
  from one database snapshot, and the epochs that the database's triggers bump
  whenever that answer may have changed. One company; times in microseconds.
*/
module AccessResolver {
  import opened Wrappers
  import opened Collections
  import opened AclScope

  type UserId = nat
  type GroupId = nat
  type MembershipId = nat

  datatype Principal = User(user: UserId) | Group(group: GroupId)

  datatype Membership = Membership(principal: Principal, unit: UnitId, appliesTo: AppliesTo, expires: Option<int>)

  /** What one membership gives its holder. */
  datatype Held = Held(unit: UnitId, appliesTo: AppliesTo, expires: Option<int>)
  {
    predicate ActiveAt(now: int) {
      expires.None? || expires.value > now
    }
  }

  datatype Epochs = Epochs(acl: nat, scope: nat)
  {
    predicate Before(that: Epochs) {
      acl <= that.acl && scope <= that.scope
    }
  }

  /** The users are the keys of `scopeEpochs`. */
  datatype Db = Db(
    memberships: map<MembershipId, Membership>,
    groupMembers: set<(UserId, GroupId)>,
    closure: set<Path>,
    aclEpoch: nat,
    scopeEpochs: map<UserId, nat>)
  {
    function EpochsOf(u: UserId): Epochs
      requires u in scopeEpochs
    {
      Epochs(aclEpoch, scopeEpochs[u])
    }

    predicate Holds(u: UserId, p: Principal) {
      match p
      case User(v) => u == v
      case Group(g) => (u, g) in groupMembers
    }

    /** Direct memberships and those of the user's groups. */
    function HeldBy(u: UserId): set<Held> {
      set i | i in memberships && Holds(u, memberships[i].principal)
        :: Held(memberships[i].unit, memberships[i].appliesTo, memberships[i].expires)
    }

    function ReaderOf(u: UserId): Reader {
      Reader(HeldBy(u), closure)
    }
  }

  /** All that a user's scope depends on, the clock aside. */
  datatype Reader = Reader(held: set<Held>, closure: set<Path>)
  {
    function Active(now: int): set<Held> {
      set h | h in held && h.ActiveAt(now)
    }

    /** The scope query: active memberships expanded down the tree, cut to the subtree of `root`. */
    function Resolve(root: UnitId, now: int): set<UnitId> {
      set h, c, r | h in Active(now) && c in closure && c.ancestor == h.unit
        && (h.appliesTo.SelfAndDescendants? || c.depth == 0)
        && r in closure && r.ancestor == root && r.descendant == c.descendant
        :: c.descendant
    }

    function Expiries(now: int): set<int> {
      set h | h in Active(now) && h.expires.Some? :: h.expires.value
    }
  }

  // ---- Statements and their triggers ----

  datatype Statement =
    | PutMembership(id: MembershipId, m: Membership)
    | DeleteMembership(id: MembershipId)
    | AddGroupMember(u: UserId, g: GroupId)
    | RemoveGroupMember(u: UserId, g: GroupId)
    | MoveOrgUnits(closure: set<Path>)
    | BreakGlass

  /** `wikore_bump_membership_principal`: the user, or every member of the group. */
  function BumpPrincipal(db: Db, p: Principal): Db {
    db.(scopeEpochs := map u | u in db.scopeEpochs ::
          if db.Holds(u, p) then db.scopeEpochs[u] + 1 else db.scopeEpochs[u])
  }

  function BumpUser(db: Db, u: UserId): Db {
    if u in db.scopeEpochs then db.(scopeEpochs := db.scopeEpochs[u := db.scopeEpochs[u] + 1]) else db
  }

  /** One statement with the triggers that fire in its transaction. */
  function Exec(db: Db, st: Statement): Db {
    match st
    case PutMembership(id, m) =>
      var bumped := if id in db.memberships then BumpPrincipal(db, db.memberships[id].principal) else db;
      BumpPrincipal(bumped, m.principal).(memberships := db.memberships[id := m])
    case DeleteMembership(id) =>
      if id in db.memberships then
        BumpPrincipal(db, db.memberships[id].principal).(memberships := db.memberships - {id})
      else db
    case AddGroupMember(u, g) => BumpUser(db.(groupMembers := db.groupMembers + {(u, g)}), u)
    case RemoveGroupMember(u, g) => BumpUser(db.(groupMembers := db.groupMembers - {(u, g)}), u)
    case MoveOrgUnits(closure) => db.(closure := closure, aclEpoch := db.aclEpoch + 1)
    case BreakGlass => db.(aclEpoch := db.aclEpoch + 1)
  }

  lemma ExecKeepsUsers(db: Db, st: Statement)
    ensures Exec(db, st).scopeEpochs.Keys == db.scopeEpochs.Keys
  {
  }

  /** Epochs never go back, and whatever changes a user's reader moves one of that user's epochs. */
  lemma TriggersBump(db: Db, st: Statement, u: UserId)
    requires u in db.scopeEpochs
    ensures u in Exec(db, st).scopeEpochs
    ensures db.EpochsOf(u).Before(Exec(db, st).EpochsOf(u))
    ensures Exec(db, st).ReaderOf(u) != db.ReaderOf(u) ==> Exec(db, st).EpochsOf(u) != db.EpochsOf(u)
  {
    var db' := Exec(db, st);
    if db'.EpochsOf(u) == db.EpochsOf(u) {
      assert db'.closure == db.closure;
      SameHoldings(db, st, u);
    }
  }

  lemma SameHoldings(db: Db, st: Statement, u: UserId)
    requires u in db.scopeEpochs && u in Exec(db, st).scopeEpochs
    requires Exec(db, st).EpochsOf(u) == db.EpochsOf(u)
    ensures Exec(db, st).HeldBy(u) == db.HeldBy(u)
  {
    var db' := Exec(db, st);
    match st
    case PutMembership(id, m) =>
      assert !db.Holds(u, m.principal);
      assert id in db.memberships ==> !db.Holds(u, db.memberships[id].principal);
      SameRows(db, db', id, u);
    case DeleteMembership(id) =>
      assert id in db.memberships ==> !db.Holds(u, db.memberships[id].principal);
      SameRows(db, db', id, u);
    case AddGroupMember(v, g) => SameGroups(db, db', u);
    case RemoveGroupMember(v, g) => SameGroups(db, db', u);
    case _ =>
  }

  lemma SameGroups(db: Db, db': Db, u: UserId)
    requires db'.memberships == db.memberships && forall g :: (u, g) in db'.groupMembers <==> (u, g) in db.groupMembers
    ensures db'.HeldBy(u) == db.HeldBy(u)
  {
    assert forall p :: db'.Holds(u, p) == db.Holds(u, p);
  }

  /** A membership row that does not concern the user may come, change or go. */
  lemma SameRows(db: Db, db': Db, id: MembershipId, u: UserId)
    requires db'.groupMembers == db.groupMembers
    requires forall i :: i != id ==> (i in db'.memberships <==> i in db.memberships)
    requires forall i :: i != id && i in db.memberships ==> db'.memberships[i] == db.memberships[i]
    requires id in db.memberships ==> !db.Holds(u, db.memberships[id].principal)
    requires id in db'.memberships ==> !db.Holds(u, db'.memberships[id].principal)
    ensures db'.HeldBy(u) == db.HeldBy(u)
  {
    assert forall p :: db'.Holds(u, p) == db.Holds(u, p);
  }
}
