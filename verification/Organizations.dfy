/**
  The organisation tree and who may administer what in it. Authority is read by
  walking up from an organisation, what it covers by walking down from one.
 */
module Organizations {
  import opened Wrappers
  import opened Whitespace

  datatype Scope = Node | Subtree

  /** Parents by organisation, scopes by organisation and user, and the organisation each project runs under. */
  datatype Tables = Tables(parents: map<string, Option<string>>, duties: map<(string, string), Scope>,
                           projects: map<string, Option<string>>)

  type Parents = map<string, Option<string>>

  datatype Authority = Authority(canManage: bool, hasAdminAll: bool)

  datatype Mode = Root | Sibling | Child

  datatype Outcome = Done | Refused(message: string)

  // ---- walking the tree ----

  /** The organisation `n` levels up, the first being the organisation itself. */
  function NthParent(parents: Parents, id: string, n: nat): Option<string>
    decreases n
  {
    if id !in parents then None
    else if n == 0 then Some(id)
    else match parents[id]
         case None => None
         case Some(parent) => NthParent(parents, parent, n - 1)
  }

  ghost predicate Above(parents: Parents, top: string, id: string) {
    exists n: nat :: NthParent(parents, id, n) == Some(top)
  }

  /** The `n`-th round of the downward recursion: the children of the round before. */
  function Level(parents: Parents, root: string, n: nat): set<string> {
    if n == 0 then set id | id in parents && id == root
    else
      var before := Level(parents, root, n - 1);
      set id | id in parents && parents[id].Some? && parents[id].value in before
  }

  lemma {:induction false} Climbs(parents: Parents, id: string, n: nat, m: nat)
    ensures NthParent(parents, id, n + m)
         == match NthParent(parents, id, n) case Some(up) => NthParent(parents, up, m) case None => None
    ensures NthParent(parents, id, n).Some? ==> NthParent(parents, id, n).value in parents
    decreases n
  {
    if n > 0 && id in parents && parents[id].Some? {
      Climbs(parents, parents[id].value, n - 1, m);
    }
  }

  /** Walking down finds an organisation in the round in which walking up from it finds the start. */
  lemma {:induction false} DownIsUp(parents: Parents, root: string, id: string, n: nat)
    ensures id in Level(parents, root, n) <==> NthParent(parents, id, n) == Some(root)
    decreases n
  {
    if n > 0 && id in parents && parents[id].Some? {
      DownIsUp(parents, root, parents[id].value, n - 1);
    }
  }

  lemma AboveTogether(parents: Parents, a: string, b: string, c: string)
    requires Above(parents, a, b) && Above(parents, b, c)
    ensures Above(parents, a, c)
  {
    var n: nat :| NthParent(parents, b, n) == Some(a);
    var m: nat :| NthParent(parents, c, m) == Some(b);
    Climbs(parents, c, m, n);
    assert NthParent(parents, c, m + n) == Some(a);
  }

  lemma AboveParent(parents: Parents, a: string, id: string)
    requires id in parents
    ensures Above(parents, a, id) <==> a == id || (parents[id].Some? && Above(parents, a, parents[id].value))
  {
    if Above(parents, a, id) {
      var n: nat :| NthParent(parents, id, n) == Some(a);
      if n > 0 {
        assert NthParent(parents, parents[id].value, n - 1) == Some(a);
      }
    }
    if a == id {
      assert NthParent(parents, id, 0) == Some(a);
    }
    if parents[id].Some? && Above(parents, a, parents[id].value) {
      var n: nat :| NthParent(parents, parents[id].value, n) == Some(a);
      assert NthParent(parents, id, n + 1) == Some(a);
    }
  }

  // ---- the table is a forest ----

  /** Parents exist, and following them goes down in rank. */
  ghost predicate Ranks(parents: Parents, rank: map<string, nat>) {
    forall id <- parents :: id in rank && (parents[id].Some? ==>
      parents[id].value in parents && parents[id].value in rank && rank[parents[id].value] < rank[id])
  }

  ghost predicate IsForest(parents: Parents) {
    exists rank :: Ranks(parents, rank)
  }

  lemma {:induction false} RankFalls(parents: Parents, rank: map<string, nat>, id: string, n: nat)
    requires Ranks(parents, rank) && id in parents
    ensures NthParent(parents, id, n).Some? ==>
              NthParent(parents, id, n).value in rank && rank[NthParent(parents, id, n).value] + n <= rank[id]
    decreases n
  {
    if n > 0 && parents[id].Some? {
      RankFalls(parents, rank, parents[id].value, n - 1);
    }
  }

  /** The walk up from an organisation comes to an end. */
  ghost predicate Ends(parents: Parents, id: string) {
    exists n: nat :: NthParent(parents, id, n) == None
  }

  lemma ForestsEnd(parents: Parents, id: string)
    requires IsForest(parents) && id in parents
    ensures Ends(parents, id)
  {
    var rank :| Ranks(parents, rank);
    RankFalls(parents, rank, id, rank[id] + 1);
    assert NthParent(parents, id, rank[id] + 1) == None;
  }

  lemma {:induction false} CyclesNeverEnd(parents: Parents, id: string, n: nat, k: nat)
    requires n > 0 && NthParent(parents, id, n) == Some(id)
    ensures NthParent(parents, id, k).Some?
    decreases k
  {
    if k >= n {
      Climbs(parents, id, n, k - n);
      CyclesNeverEnd(parents, id, n, k - n);
    } else {
      Climbs(parents, id, k, n - k);
    }
  }

  lemma EndsForAll(parents: Parents, id: string, n: nat, k: nat)
    requires NthParent(parents, id, n) == None && n <= k
    ensures NthParent(parents, id, k) == None
  {
    Climbs(parents, id, n, k - n);
  }

  /** Something on the way up is above itself. */
  ghost predicate MeetsCycle(parents: Parents, id: string) {
    exists up, m: nat :: Above(parents, up, id) && m > 0 && NthParent(parents, up, m) == Some(up)
  }

  /** What the first rounds of the upward recursion find. */
  function Passed(parents: Parents, id: string, n: nat): set<string> {
    if n == 0 then {}
    else
      var up := NthParent(parents, id, n - 1);
      Passed(parents, id, n - 1) + if up.Some? then {up.value} else {}
  }

  ghost predicate FoundWithin(parents: Parents, id: string, n: nat, up: string) {
    exists i: nat :: i < n && NthParent(parents, id, i) == Some(up)
  }

  lemma {:induction false} PassedAreAbove(parents: Parents, id: string, n: nat)
    ensures Passed(parents, id, n) <= parents.Keys
    ensures forall up <- Passed(parents, id, n) :: FoundWithin(parents, id, n, up)
  {
    if n > 0 {
      PassedAreAbove(parents, id, n - 1);
      Climbs(parents, id, n - 1, 0);
      forall up <- Passed(parents, id, n)
        ensures FoundWithin(parents, id, n, up)
      {
        if up in Passed(parents, id, n - 1) {
          assert FoundWithin(parents, id, n - 1, up);
        } else {
          assert NthParent(parents, id, n - 1) == Some(up);
        }
      }
    }
  }

  lemma RepeatIsCycle(parents: Parents, id: string, i: nat, k: nat)
    requires i < k && NthParent(parents, id, i) == NthParent(parents, id, k) && NthParent(parents, id, k).Some?
    ensures var up := NthParent(parents, id, i).value; Above(parents, up, id) && NthParent(parents, up, k - i) == Some(up)
  {
    Climbs(parents, id, i, k - i);
  }

  lemma {:induction false} NoneTwice(parents: Parents, id: string, n: nat)
    requires !MeetsCycle(parents, id)
    requires forall i: nat | i < n :: NthParent(parents, id, i).Some?
    ensures |Passed(parents, id, n)| == n
  {
    if n > 0 {
      NoneTwice(parents, id, n - 1);
      PassedAreAbove(parents, id, n - 1);
      var up := NthParent(parents, id, n - 1).value;
      if up in Passed(parents, id, n - 1) {
        var i: nat :| i < n - 1 && NthParent(parents, id, i) == Some(up);
        RepeatIsCycle(parents, id, i, n - 1);
      }
    }
  }

  lemma SubsetIsSmaller<T>(a: set<T>, b: set<T>)
    requires a <= b
    ensures |a| <= |b|
  {
    assert b == a + (b - a);
  }

  /** The upward recursion ends exactly when it meets no cycle. */
  lemma EndsExactlyWhen(parents: Parents, id: string)
    ensures Ends(parents, id) <==> !MeetsCycle(parents, id)
  {
    assert |parents.Keys| == |parents|;
    if MeetsCycle(parents, id) {
      var up, m: nat :| Above(parents, up, id) && m > 0 && NthParent(parents, up, m) == Some(up);
      var n: nat :| NthParent(parents, id, n) == Some(up);
      forall k: nat
        ensures NthParent(parents, id, k).Some?
      {
        CyclesNeverEnd(parents, up, m, k);
        Climbs(parents, id, n, k);
        if NthParent(parents, id, k) == None {
          EndsForAll(parents, id, k, n + k);
        }
      }
    } else if !Ends(parents, id) {
      var n := |parents| + 1;
      NoneTwice(parents, id, n);
      PassedAreAbove(parents, id, n);
      SubsetIsSmaller(Passed(parents, id, n), parents.Keys);
    }
  }

  lemma CreatingKeepsForest(parents: Parents, id: string, parent: Option<string>)
    requires IsForest(parents) && id !in parents && (parent.Some? ==> parent.value in parents)
    ensures IsForest(parents[id := parent])
  {
    var rank :| Ranks(parents, rank);
    var longer := rank[id := if parent.Some? then rank[parent.value] + 1 else 0];
    assert Ranks(parents[id := parent], longer);
  }

  /** Everything from an organisation down. */
  ghost function Tree(parents: Parents, root: string): set<string> {
    set id | id in parents && Above(parents, root, id)
  }

  lemma DeletingKeepsForest(parents: Parents, root: string)
    requires IsForest(parents)
    ensures IsForest(parents - Tree(parents, root))
  {
    var rank :| Ranks(parents, rank);
    var left := parents - Tree(parents, root);
    forall id <- left | left[id].Some?
      ensures left[id].value in left
    {
      AboveParent(parents, root, id);
    }
    assert Ranks(left, rank);
  }

  // ---- authority ----

  /** What a user may do to an organisation, by the walk up from it. */
  ghost function AuthorityOver(t: Tables, actor: string, id: string, master: bool): Authority {
    if id !in t.parents then Authority(false, false)
    else if master then Authority(true, true)
    else Authority((id, actor) in t.duties || HoldsAbove(t, actor, id), HoldsAbove(t, actor, id))
  }

  ghost predicate HoldsAbove(t: Tables, actor: string, id: string) {
    exists top :: (top, actor) in t.duties && t.duties[(top, actor)] == Subtree && Above(t.parents, top, id)
  }

  /** A walk down from one of the user's organisations comes to this one; past the first round only from a subtree. */
  ghost predicate ReachedFrom(t: Tables, actor: string, id: string, top: string, n: nat) {
    (top, actor) in t.duties && (n == 0 || t.duties[(top, actor)] == Subtree) && id in Level(t.parents, top, n)
  }

  /**
    Authority is what walking down finds. A master has all of it over whatever
    exists. Anybody else administers an organisation exactly when the walk down
    from one of the user's subtrees comes to it, and manages it exactly when that
    is so or the user is responsible for the organisation itself.
   */
  lemma AuthorityReachesDown(t: Tables, actor: string, id: string, master: bool)
    ensures AuthorityOver(t, actor, id, master).hasAdminAll
            <==> id in t.parents && (master || exists top, n: nat :: ReachedFrom(t, actor, id, top, n) && t.duties[(top, actor)] == Subtree)
    ensures AuthorityOver(t, actor, id, master).canManage
            <==> id in t.parents && (master || exists top, n: nat :: ReachedFrom(t, actor, id, top, n))
  {
    if HoldsAbove(t, actor, id) {
      var top :| (top, actor) in t.duties && t.duties[(top, actor)] == Subtree && Above(t.parents, top, id);
      var n: nat :| NthParent(t.parents, id, n) == Some(top);
      DownIsUp(t.parents, top, id, n);
      assert ReachedFrom(t, actor, id, top, n);
    }
    if id in t.parents && (id, actor) in t.duties {
      assert ReachedFrom(t, actor, id, id, 0);
    }
    if top, n: nat :| ReachedFrom(t, actor, id, top, n) {
      DownIsUp(t.parents, top, id, n);
      assert n == 0 ==> top == id;
    }
    if top, n: nat :| ReachedFrom(t, actor, id, top, n) && t.duties[(top, actor)] == Subtree {
      DownIsUp(t.parents, top, id, n);
      assert HoldsAbove(t, actor, id);
    }
  }

  /** Administering an organisation is administering all below it. */
  lemma AuthorityIsInherited(t: Tables, actor: string, top: string, id: string, master: bool)
    requires Above(t.parents, top, id) && AuthorityOver(t, actor, top, master).hasAdminAll
    ensures AuthorityOver(t, actor, id, master).hasAdminAll
  {
    var n: nat :| NthParent(t.parents, id, n) == Some(top);
    if !master {
      var holder :| (holder, actor) in t.duties && t.duties[(holder, actor)] == Subtree && Above(t.parents, holder, top);
      AboveTogether(t.parents, holder, top, id);
    }
  }

  lemma {:induction false} CreatingMovesNobody(parents: Parents, id: string, parent: Option<string>, d: string, n: nat)
    requires id !in parents && d in parents
    requires forall c <- parents | parents[c].Some? :: parents[c].value in parents
    ensures NthParent(parents[id := parent], d, n) == NthParent(parents, d, n)
    decreases n
  {
    if n > 0 && parents[d].Some? {
      CreatingMovesNobody(parents, id, parent, parents[d].value, n - 1);
    }
  }

  /** Creating changes nobody's authority over what there was, and the child is its parent's administrators' alone. */
  lemma CreatingGrantsNothing(t: Tables, id: string, parent: Option<string>, actor: string, d: string)
    requires IsForest(t.parents) && id !in t.parents && (parent.Some? ==> parent.value in t.parents)
    requires forall duty <- t.duties :: duty.0 in t.parents
    ensures var after := t.(parents := t.parents[id := parent]);
            && (d in t.parents ==> AuthorityOver(after, actor, d, false) == AuthorityOver(t, actor, d, false))
            && AuthorityOver(after, actor, id, false).canManage == AuthorityOver(after, actor, id, false).hasAdminAll
            && (AuthorityOver(after, actor, id, false).hasAdminAll
                <==> parent.Some? && AuthorityOver(t, actor, parent.value, false).hasAdminAll)
  {
    var after := t.(parents := t.parents[id := parent]);
    var rank :| Ranks(t.parents, rank);
    forall top, c | c in t.parents
      ensures Above(after.parents, top, c) <==> Above(t.parents, top, c)
    {
      forall n: nat
        ensures NthParent(after.parents, c, n) == NthParent(t.parents, c, n)
      {
        CreatingMovesNobody(t.parents, id, parent, c, n);
      }
    }
    forall top
      ensures Above(after.parents, top, id) <==> top == id || (parent.Some? && Above(t.parents, top, parent.value))
    {
      AboveParent(after.parents, top, id);
    }
  }

  lemma {:induction false} DeletingMovesNobody(parents: Parents, root: string, d: string, n: nat)
    requires d in parents && !Above(parents, root, d)
    ensures NthParent(parents - Tree(parents, root), d, n) == NthParent(parents, d, n)
    decreases n
  {
    var left := parents - Tree(parents, root);
    assert d in left;
    if n > 0 && parents[d].Some? {
      var parent := parents[d].value;
      AboveParent(parents, root, d);
      if parent in parents {
        DeletingMovesNobody(parents, root, parent, n - 1);
      }
    }
  }

  /** Deleting changes nobody's authority over what is left, though the duties over what went are gone. */
  lemma DeletingChangesNoAuthority(t: Tables, root: string, actor: string, d: string)
    requires d in t.parents && !Above(t.parents, root, d)
    ensures AuthorityOver(Deleted(t, root), actor, d, false) == AuthorityOver(t, actor, d, false)
  {
    var after := Deleted(t, root);
    forall n: nat
      ensures NthParent(after.parents, d, n) == NthParent(t.parents, d, n)
    {
      DeletingMovesNobody(t.parents, root, d, n);
    }
    assert d in after.parents by {
      assert NthParent(after.parents, d, 0) == Some(d);
    }
    forall top | Above(t.parents, top, d)
      ensures top !in Tree(t.parents, root)
    {
      if Above(t.parents, root, top) {
        AboveTogether(t.parents, root, top, d);
      }
    }
  }

  /** The rows that go with an organisation: its subtree, and every duty over any of it. */
  ghost function Deleted(t: Tables, root: string): Tables {
    var gone := Tree(t.parents, root);
    Tables(t.parents - gone, map duty | duty in t.duties && duty.0 !in gone :: t.duties[duty], t.projects)
  }

  /** Some round of the walk down from `root` finds it. */
  ghost predicate IsFoundFrom(parents: Parents, root: string, id: string) {
    exists n: nat :: id in Level(parents, root, n)
  }

  /** Deleting takes exactly what the walk down finds, with the duties over it, and leaves everything else as it was. */
  lemma DeletingTakesTheSubtree(t: Tables, root: string)
    ensures var after := Deleted(t, root);
            && (forall id :: id in after.parents <==> id in t.parents && !IsFoundFrom(t.parents, root, id))
            && (forall id <- after.parents :: after.parents[id] == t.parents[id])
            && (forall duty <- t.duties :: duty in after.duties <==> !IsFoundFrom(t.parents, root, duty.0))
            && (forall duty <- after.duties :: duty in t.duties && after.duties[duty] == t.duties[duty])
            && after.projects == t.projects
  {
    forall id
      ensures id in Tree(t.parents, root) <==> IsFoundFrom(t.parents, root, id)
    {
      if id in Tree(t.parents, root) {
        var n: nat :| NthParent(t.parents, id, n) == Some(root);
        DownIsUp(t.parents, root, id, n);
      }
      if n: nat :| id in Level(t.parents, root, n) {
        DownIsUp(t.parents, root, id, n);
        Climbs(t.parents, id, 0, n);
      }
    }
  }

  // ---- the commands ----

  datatype NodePermission = NodePermission(id: string, canUpdate: bool, canManageMembers: bool, canCreateChild: bool,
                                           canCreateSibling: bool, canDelete: bool, canAssignAdminAll: bool)

  /** When an organisation may be created: who may, and where. */
  ghost predicate MayCreate(t: Tables, actor: string, master: bool, name: string, mode: Mode, parent: Option<string>) {
    && Trim(name) != ""
    && match mode
       case Root => parent.None? && master
       case Sibling => master && (parent.None? || parent.value in t.parents)
       case Child => parent.Some? && AuthorityOver(t, actor, parent.value, master).hasAdminAll
  }

  /** Whoever is not a master creates only what falls under their own authority: they administer it, and its parent. */
  lemma CreatorAdministersWhatIsCreated(t: Tables, actor: string, name: string, mode: Mode, parent: Option<string>, id: string)
    requires IsForest(t.parents) && id !in t.parents && (forall duty <- t.duties :: duty.0 in t.parents)
    requires MayCreate(t, actor, false, name, mode, parent)
    ensures mode.Child? && parent.Some? && AuthorityOver(t, actor, parent.value, false).hasAdminAll
    ensures AuthorityOver(t.(parents := t.parents[id := parent]), actor, id, false).hasAdminAll
    ensures !IsBlank(name)
  {
    CreatingGrantsNothing(t, id, parent, actor, id);
    TrimmedAway(name);
  }

  class OrganizationStore {
    var parents: Parents
    var duties: map<(string, string), Scope>
    var projects: map<string, Option<string>>
    const users: set<string>

    constructor (users: set<string>)
      ensures Valid() && Value() == Tables(map[], map[], map[])
    {
      parents, duties, projects, this.users := map[], map[], map[], users;
      assert Ranks(map[], map[]);
    }

    function Value(): Tables
      reads this
    {
      Tables(parents, duties, projects)
    }

    /** A forest, in which duties and projects belong to what exists; the empty name names nothing. */
    ghost predicate Valid()
      reads this
    {
      && IsForest(parents) && "" !in parents
      && (forall duty <- duties :: duty.0 in parents && duty.1 in users)
      && (forall p <- projects | projects[p].Some? :: projects[p].value in parents)
    }

    /** The upward recursion. */
    method Ancestors(id: string) returns (ids: set<string>)
      requires Valid()
      ensures forall top :: top in ids <==> Above(parents, top, id)
    {
      ids := {};
      if id !in parents {
        return;
      }
      ghost var rank :| Ranks(parents, rank);
      var at := id;
      while true
        invariant at in parents
        invariant forall top :: top in ids || Above(parents, top, at) <==> Above(parents, top, id)
        decreases rank[at]
      {
        forall top
          ensures Above(parents, top, at) <==> top == at || (parents[at].Some? && Above(parents, top, parents[at].value))
        {
          AboveParent(parents, top, at);
        }
        ids := ids + {at};
        match parents[at]
        case None => return;
        case Some(parent) => at := parent;
      }
    }

    /** The downward recursion, which keeps what it finds once. */
    method Descendants(root: string) returns (tree: set<string>)
      requires forall c <- parents | parents[c].Some? :: parents[c].value in parents
      ensures tree == Tree(parents, root)
    {
      tree := if root in parents then {root} else {};
      var frontier := tree;
      if root in parents {
        AboveParent(parents, root, root);
      }
      while frontier != {}
        invariant frontier <= tree <= parents.Keys && (root in parents ==> root in tree)
        invariant forall id <- tree :: Above(parents, root, id)
        invariant forall id <- parents | parents[id].Some? && parents[id].value in tree - frontier :: id in tree
        decreases parents.Keys - tree, frontier
      {
        var next := (set id | id in parents && parents[id].Some? && parents[id].value in frontier) - tree;
        forall id <- next
          ensures Above(parents, root, id)
        {
          AboveParent(parents, root, id);
        }
        tree, frontier := tree + next, next;
      }
      ClosedIsTree(parents, root, tree);
    }

    method ReadAuthority(actor: string, id: string, master: bool) returns (a: Authority)
      requires Valid()
      ensures a == AuthorityOver(Value(), actor, id, master)
    {
      var ancestors := Ancestors(id);
      AboveSelf(parents, id);
      if ancestors == {} {
        return Authority(false, false);
      }
      if master {
        return Authority(true, true);
      }
      var manages, adminAll, left := false, false, duties.Keys;
      while left != {}
        invariant left <= duties.Keys
        invariant adminAll <==> exists d <- duties.Keys - left :: d.1 == actor && duties[d] == Subtree && d.0 in ancestors
        invariant manages <==> adminAll || ((id, actor) in duties && (id, actor) !in left)
        decreases left
      {
        var d :| d in left;
        left := left - {d};
        if d.1 == actor {
          manages := manages || d.0 == id || (duties[d] == Subtree && d.0 in ancestors);
          adminAll := adminAll || (duties[d] == Subtree && d.0 in ancestors);
        }
      }
      DutiesAbove(Value(), actor, id, ancestors);
      return Authority(manages, adminAll);
    }

    method CreateOrganization(actor: string, master: bool, name: string, mode: Mode, parent: Option<string>, id: string)
      returns (outcome: Outcome)
      requires Valid() && id !in parents && id != ""
      modifies this
      ensures Valid()
      ensures outcome.Done? <==> MayCreate(old(Value()), actor, master, name, mode, parent)
      ensures outcome.Done? ==> Value() == old(Value()).(parents := old(parents)[id := parent])
      ensures outcome.Refused? ==> Value() == old(Value())
    {
      if Trim(name) == "" {
        return Refused("Organization name is required");
      }
      match mode {
        case Root =>
          if parent.Some? {
            return Refused("A root organization cannot have a parent");
          }
          if !master {
            return Refused("Master administrator permission is required");
          }
        case Sibling =>
          if !master {
            return Refused("Master administrator permission is required");
          }
          if parent.Some? {
            if parent.value == "" {
              return Refused("Unknown parent organization");
            }
            var a := ReadAuthority(actor, parent.value, master);
            if !a.hasAdminAll {
              return Refused("Admin all permission is required");
            }
          }
        case Child =>
          if parent == None || parent.value == "" {
            return Refused("A child organization requires a parent");
          }
          var a := ReadAuthority(actor, parent.value, master);
          if !a.hasAdminAll {
            return Refused("Admin all permission is required");
          }
      }
      CreatingKeepsForest(parents, id, parent);
      parents := parents[id := parent];
      return Done;
    }

    /** Takes the subtree and its duties along, unless a project still runs in it. */
    method DeleteOrganization(actor: string, master: bool, id: string) returns (outcome: Outcome)
      requires Valid()
      modifies this
      ensures Valid()
      ensures outcome.Done? <==>
                && master && id in old(parents)
                && forall p <- old(projects) | old(projects)[p].Some? :: !Above(old(parents), id, old(projects)[p].value)
      ensures outcome.Done? ==> Value() == Deleted(old(Value()), id)
      ensures outcome.Refused? ==> Value() == old(Value())
    {
      if !master {
        return Refused("Master administrator permission is required");
      }
      var a := ReadAuthority(actor, id, master);
      if !a.canManage {
        return Refused("You cannot manage this organization");
      }
      var gone := Descendants(id);
      if exists p <- projects :: projects[p].Some? && projects[p].value in gone {
        return Refused("a project still runs under the organization");
      }
      DeletingKeepsForest(parents, id);
      parents := parents - gone;
      duties := map duty | duty in duties && duty.0 !in gone :: duties[duty];
      return Done;
    }

    method AssignResponsible(actor: string, master: bool, id: string, user: string, scope: Scope) returns (outcome: Outcome)
      requires Valid()
      modifies this`duties
      ensures Valid()
      ensures outcome.Done? <==>
                && AuthorityOver(old(Value()), actor, id, master).canManage && user != "" && user in users
                && (scope == Subtree ==> AuthorityOver(old(Value()), actor, id, master).hasAdminAll)
      ensures duties == if outcome.Done? then old(duties)[(id, user) := scope] else old(duties)
    {
      var a := ReadAuthority(actor, id, master);
      if !a.canManage {
        return Refused("You cannot manage this organization");
      }
      if user == "" {
        return Refused("Unknown organization responsibility");
      }
      if scope == Subtree && !a.hasAdminAll {
        return Refused("Admin all permission is required");
      }
      if user !in users {
        return Refused("no such user");
      }
      duties := duties[(id, user) := scope];
      return Done;
    }

    method RemoveResponsible(actor: string, master: bool, id: string, user: string) returns (outcome: Outcome)
      requires Valid()
      modifies this`duties
      ensures Valid()
      ensures outcome.Done? <==> AuthorityOver(old(Value()), actor, id, master).canManage && user != ""
      ensures duties == if outcome.Done? then old(duties) - {(id, user)} else old(duties)
    {
      var a := ReadAuthority(actor, id, master);
      if !a.canManage {
        return Refused("You cannot manage this organization");
      }
      if user == "" {
        return Refused("Unknown organization account");
      }
      duties := duties - {(id, user)};
      return Done;
    }

    method BuildOrganizationAccess(actor: string, master: bool, ids: seq<string>) returns (nodes: seq<NodePermission>)
      requires Valid()
      ensures |nodes| == |ids|
      ensures forall i | 0 <= i < |ids| ::
                var a := AuthorityOver(Value(), actor, ids[i], master);
                nodes[i] == NodePermission(ids[i], a.canManage, a.canManage, a.hasAdminAll, master, master, a.hasAdminAll)
    {
      nodes := [];
      for k := 0 to |ids|
        invariant |nodes| == k
        invariant forall i | 0 <= i < k ::
                    var a := AuthorityOver(Value(), actor, ids[i], master);
                    nodes[i] == NodePermission(ids[i], a.canManage, a.canManage, a.hasAdminAll, master, master, a.hasAdminAll)
      {
        var a := ReadAuthority(actor, ids[k], master);
        nodes := nodes + [NodePermission(ids[k], a.canManage, a.canManage, a.hasAdminAll, master, master, a.hasAdminAll)];
      }
    }

    /** The projects of an organisation and of all below it. */
    method ListProjects(id: string) returns (listed: set<string>)
      requires Valid()
      ensures forall p :: p in listed <==> p in projects && projects[p].Some? && Above(parents, id, projects[p].value)
    {
      ghost var rank :| Ranks(parents, rank);
      var tree := Descendants(id);
      listed := set p | p in projects && projects[p].Some? && projects[p].value in tree;
    }
  }

  lemma AboveSelf(parents: Parents, id: string)
    ensures id in parents ==> Above(parents, id, id)
    ensures id !in parents ==> forall top :: !Above(parents, top, id)
  {
    if id in parents {
      assert NthParent(parents, id, 0) == Some(id);
    }
  }

  lemma DutiesAbove(t: Tables, actor: string, id: string, ancestors: set<string>)
    requires forall top :: top in ancestors <==> Above(t.parents, top, id)
    ensures HoldsAbove(t, actor, id) <==> exists d <- t.duties :: d.1 == actor && t.duties[d] == Subtree && d.0 in ancestors
  {
    if HoldsAbove(t, actor, id) {
      var top :| (top, actor) in t.duties && t.duties[(top, actor)] == Subtree && Above(t.parents, top, id);
      assert (top, actor).1 == actor && (top, actor).0 in ancestors;
    }
    if d :| d in t.duties && d.1 == actor && t.duties[d] == Subtree && d.0 in ancestors {
      assert (d.0, actor) == d;
    }
  }

  /** What is closed downwards and holds the start holds the tree. */
  lemma ClosedIsTree(parents: Parents, root: string, tree: set<string>)
    requires (root in parents ==> root in tree) && tree <= parents.Keys
    requires forall id <- tree :: Above(parents, root, id)
    requires forall id <- parents | parents[id].Some? && parents[id].value in tree :: id in tree
    ensures tree == Tree(parents, root)
  {
    forall id <- parents, n: nat | NthParent(parents, id, n) == Some(root)
      ensures id in tree
    {
      ClosedHolds(parents, root, tree, id, n);
    }
  }

  lemma {:induction false} ClosedHolds(parents: Parents, root: string, tree: set<string>, id: string, n: nat)
    requires root in parents ==> root in tree
    requires forall c <- parents | parents[c].Some? && parents[c].value in tree :: c in tree
    requires NthParent(parents, id, n) == Some(root)
    ensures id in tree
    decreases n
  {
    if n > 0 {
      ClosedHolds(parents, root, tree, parents[id].value, n - 1);
    }
  }
}
