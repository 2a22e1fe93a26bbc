/** The two access decisions of the grant authorizer: the verdict on one topic, and the
    list of all topics. They are written independently and must agree. */
module Authorizer {
  import opened Ordering
  import opened Tables

  type Action = string
  datatype Principal = Principal(id: string, groups: seq<string>)
  datatype Grant = Grant(topic: Id, principal: string, permission: Action)

  function PermissionLevel(action: Action): int {
    if action == "admin" then 3 else if action == "write" then 2 else if action == "read" then 1 else 0
  }

  // ----- who may do what ---------------------------------------------------------------

  /** A permission that suffices for an action, by their names: admin includes write, write
      includes read, and an action of any other name asks for nothing. */
  predicate Suffices(permission: Action, action: Action) {
    if action == "admin" then permission == "admin"
    else if action == "write" then permission == "write" || permission == "admin"
    else if action == "read" then permission == "read" || permission == "write" || permission == "admin"
    else true
  }

  /** The levels the code compares say the same. */
  lemma LevelsAreNames(permission: Action, action: Action)
    ensures PermissionLevel(permission) >= PermissionLevel(action) <==> Suffices(permission, action)
  {
  }

  /** A grant on the topic to the principal or one of its groups. */
  predicate Concerns(g: Grant, p: Principal, topic: Id) {
    g.topic == topic && (g.principal == p.id || g.principal in p.groups)
  }

  predicate Covers(g: Grant, p: Principal, topic: Id, action: Action) {
    Concerns(g, p, topic) && Suffices(g.permission, action)
  }

  /** The meaning of both decisions: the topic exists, and is owned or granted. */
  predicate Allowed(owners: map<Id, string>, grants: seq<Grant>, p: Principal, topic: Id, action: Action) {
    topic in owners && (owners[topic] == p.id || exists g :: g in grants && Covers(g, p, topic, action))
  }

  /** topic_grants.topic_id references topics. */
  predicate Referential(owners: map<Id, string>, grants: seq<Grant>) {
    forall g | g in grants :: g.topic in owners
  }

  // ----- the code's own computations ---------------------------------------------------

  predicate Distinct(ids: seq<Id>) {
    forall i, j | 0 <= i < j < |ids| :: ids[i] != ids[j]
  }

  function AllIdentities(p: Principal): seq<string> {
    [p.id] + p.groups
  }

  function GrantsFor(grants: seq<Grant>, principals: seq<string>): (r: seq<Grant>)
    ensures forall g :: g in r <==> g in grants && g.principal in principals
  {
    if grants == [] then []
    else
      var n := |grants| - 1;
      assert grants == grants[..n] + [grants[n]];
      GrantsFor(grants[..n], principals) + if grants[n].principal in principals then [grants[n]] else []
  }

  /** The topics of an owner, each once; the order is of no account. */
  function OwnedBy(owners: map<Id, string>, owner: string): (ids: seq<Id>)
    ensures forall t :: t in ids <==> t in owners && owners[t] == owner
    ensures Distinct(ids)
  {
    var own := set t | t in owners && owners[t] == owner;
    SortedBy(own, map t | t in own :: t)
  }

  /** The owned topics, then each further topic of a strong enough grant, once. */
  function Collect(owned: seq<Id>, grants: seq<Grant>, level: int): seq<Id> {
    if grants == [] then owned
    else
      var rest, g := Collect(owned, grants[..|grants| - 1], level), grants[|grants| - 1];
      if PermissionLevel(g.permission) >= level && g.topic !in rest then rest + [g.topic] else rest
  }

  function Accessible(owners: map<Id, string>, grants: seq<Grant>, p: Principal, action: Action): seq<Id> {
    Collect(OwnedBy(owners, p.id), GrantsFor(grants, AllIdentities(p)), PermissionLevel(action))
  }

  class GrantStore {
    var owners: map<Id, string>
    var grants: seq<Grant>

    constructor (owners: map<Id, string>, grants: seq<Grant>)
      ensures this.owners == owners && this.grants == grants
    {
      this.owners := owners;
      this.grants := grants;
    }

    method GrantsForPrincipal(principals: seq<string>) returns (r: seq<Grant>)
      ensures r == GrantsFor(grants, principals)
    {
      r := [];
      for i := 0 to |grants|
        invariant r == GrantsFor(grants[..i], principals)
      {
        assert grants[..i + 1][..i] == grants[..i];
        if grants[i].principal in principals {
          r := r + [grants[i]];
        }
      }
      assert grants[..|grants|] == grants;
    }

    method TopicOwner(topic: Id) returns (r: Result<string>)
      ensures r == if topic in owners then Ok(owners[topic]) else Err(NotFound)
    {
      r := if topic in owners then Ok(owners[topic]) else Err(NotFound);
    }
  }

  class GrantAuthorizer {
    const store: GrantStore

    constructor (store: GrantStore)
      ensures this.store == store
    {
      this.store := store;
    }

    method Check(p: Principal, topic: Id, action: Action) returns (r: Result<()>)
      ensures r.Ok? <==> Allowed(store.owners, store.grants, p, topic, action)
      ensures r.Err? ==> r.error == if topic in store.owners then Denied else NotFound
    {
      var owner := store.TopicOwner(topic);
      if owner.Err? {
        return Err(owner.error);
      }
      if owner.value == p.id {
        return Ok(());
      }
      var grants := store.GrantsForPrincipal(AllIdentities(p));
      var requiredLevel := PermissionLevel(action);
      for i := 0 to |grants|
        invariant forall k | 0 <= k < i :: !(grants[k].topic == topic && PermissionLevel(grants[k].permission) >= requiredLevel)
      {
        if grants[i].topic == topic && PermissionLevel(grants[i].permission) >= requiredLevel {
          LevelsAreNames(grants[i].permission, action);
          assert grants[i] in grants && Covers(grants[i], p, topic, action);
          return Ok(());
        }
      }
      forall g | g in store.grants && Covers(g, p, topic, action)
        ensures g in grants && PermissionLevel(g.permission) >= requiredLevel
      {
        LevelsAreNames(g.permission, action);
      }
      r := Err(Denied);
    }

    method AccessibleTopics(p: Principal, minAction: Action) returns (result: seq<Id>)
      ensures result == Accessible(store.owners, store.grants, p, minAction)
    {
      var grants := store.GrantsForPrincipal(AllIdentities(p));
      var owned := OwnedBy(store.owners, p.id);
      var seen := set t | t in owned;
      result := owned;
      var minLevel := PermissionLevel(minAction);
      for i := 0 to |grants|
        invariant result == Collect(owned, grants[..i], minLevel)
        invariant forall t :: t in seen <==> t in result
      {
        assert grants[..i + 1][..i] == grants[..i];
        var g := grants[i];
        if PermissionLevel(g.permission) >= minLevel && g.topic !in seen {
          seen := seen + {g.topic};
          result := result + [g.topic];
        }
      }
      assert grants[..|grants|] == grants;
    }
  }

  // ----- the decisions agree -------------------------------------------------------------

  lemma {:induction false} Collected(owned: seq<Id>, grants: seq<Grant>, level: int, topic: Id)
    ensures topic in Collect(owned, grants, level) <==>
            topic in owned || exists g :: g in grants && g.topic == topic && PermissionLevel(g.permission) >= level
  {
    if grants != [] {
      var n := |grants| - 1;
      Collected(owned, grants[..n], level, topic);
      Collected(owned, grants[..n], level, grants[n].topic);
      assert grants == grants[..n] + [grants[n]];
    }
  }

  lemma {:induction false} CollectedOnce(owned: seq<Id>, grants: seq<Grant>, level: int)
    requires Distinct(owned)
    ensures Distinct(Collect(owned, grants, level))
  {
    if grants != [] {
      CollectedOnce(owned, grants[..|grants| - 1], level);
    }
  }

  /** Whatever the groups, the action (known or not) and the grants: a topic that exists is
      listed exactly when the check passes. No topic is listed twice. */
  lemma DecisionsAgree(owners: map<Id, string>, grants: seq<Grant>, p: Principal, action: Action)
    ensures forall t | t in owners :: t in Accessible(owners, grants, p, action) <==> Allowed(owners, grants, p, t, action)
    ensures Distinct(Accessible(owners, grants, p, action))
    ensures Referential(owners, grants) ==>
      forall t :: t in Accessible(owners, grants, p, action) <==> Allowed(owners, grants, p, t, action)
  {
    CollectedOnce(OwnedBy(owners, p.id), GrantsFor(grants, AllIdentities(p)), PermissionLevel(action));
    forall t
      ensures t in Accessible(owners, grants, p, action) <==>
              (t in owners && owners[t] == p.id) || exists g :: g in grants && Covers(g, p, t, action)
    {
      ListedIff(owners, grants, p, action, t);
    }
  }

  lemma ListedIff(owners: map<Id, string>, grants: seq<Grant>, p: Principal, action: Action, t: Id)
    ensures t in Accessible(owners, grants, p, action) <==>
            (t in owners && owners[t] == p.id) || exists g :: g in grants && Covers(g, p, t, action)
  {
    var mine, level := GrantsFor(grants, AllIdentities(p)), PermissionLevel(action);
    Collected(OwnedBy(owners, p.id), mine, level, t);
    if g :| g in mine && g.topic == t && PermissionLevel(g.permission) >= level {
      LevelsAreNames(g.permission, action);
      assert Covers(g, p, t, action);
    }
    if g :| g in grants && Covers(g, p, t, action) {
      LevelsAreNames(g.permission, action);
      assert g in mine;
    }
  }

  /** The principal or one of its groups was granted one of these permissions. */
  predicate GrantedAs(grants: seq<Grant>, p: Principal, topic: Id, names: set<Action>) {
    exists g :: g in grants && Concerns(g, p, topic) && g.permission in names
  }

  /** On a topic somebody else owns: what each action asks for, of the check and of the list. */
  lemma ActionsAskFor(owners: map<Id, string>, grants: seq<Grant>, p: Principal, topic: Id, action: Action)
    requires topic in owners && owners[topic] != p.id
    ensures Allowed(owners, grants, p, topic, "admin") <==> GrantedAs(grants, p, topic, {"admin"})
    ensures Allowed(owners, grants, p, topic, "write") <==> GrantedAs(grants, p, topic, {"write", "admin"})
    ensures Allowed(owners, grants, p, topic, "read") <==> GrantedAs(grants, p, topic, {"read", "write", "admin"})
    ensures action !in {"read", "write", "admin"} ==>
      (Allowed(owners, grants, p, topic, action) <==> exists g :: g in grants && Concerns(g, p, topic))
    ensures topic in Accessible(owners, grants, p, action) <==> Allowed(owners, grants, p, topic, action)
  {
    ListedIff(owners, grants, p, action, topic);
    AsksFor(grants, p, topic, "admin", {"admin"});
    AsksFor(grants, p, topic, "write", {"write", "admin"});
    AsksFor(grants, p, topic, "read", {"read", "write", "admin"});
    if action !in {"read", "write", "admin"} {
      if g :| g in grants && Concerns(g, p, topic) {
        assert Covers(g, p, topic, action);
      }
    }
  }

  lemma AsksFor(grants: seq<Grant>, p: Principal, topic: Id, action: Action, names: set<Action>)
    requires forall permission :: Suffices(permission, action) <==> permission in names
    ensures (exists g :: g in grants && Covers(g, p, topic, action)) <==> GrantedAs(grants, p, topic, names)
  {
    if g :| g in grants && Covers(g, p, topic, action) {
      assert Concerns(g, p, topic) && g.permission in names;
    }
    if g :| g in grants && Concerns(g, p, topic) && g.permission in names {
      assert Covers(g, p, topic, action);
    }
  }

  lemma SufficesIsTransitive(permission: Action, high: Action, low: Action)
    requires Suffices(permission, high) && Suffices(high, low)
    ensures Suffices(permission, low)
  {
  }

  /** The owner may do anything, and nobody anything on a topic that is not there. */
  lemma OwnersMay(owners: map<Id, string>, grants: seq<Grant>, p: Principal, topic: Id, action: Action)
    ensures topic in owners && owners[topic] == p.id ==>
      Allowed(owners, grants, p, topic, action) && topic in Accessible(owners, grants, p, action)
    ensures topic !in owners ==> !Allowed(owners, grants, p, topic, action)
  {
    ListedIff(owners, grants, p, action, topic);
  }

  /** The administered topics are among the writable, and those among the readable. */
  lemma ListsNest(owners: map<Id, string>, grants: seq<Grant>, p: Principal, topic: Id)
    ensures topic in Accessible(owners, grants, p, "admin") ==> topic in Accessible(owners, grants, p, "write")
    ensures topic in Accessible(owners, grants, p, "write") ==> topic in Accessible(owners, grants, p, "read")
  {
    RaisingTheLevelShrinks(owners, grants, p, "write", "admin");
    RaisingTheLevelShrinks(owners, grants, p, "read", "write");
  }

  /** Asking for more can only shrink the list. */
  lemma RaisingTheLevelShrinks(owners: map<Id, string>, grants: seq<Grant>, p: Principal, low: Action, high: Action)
    requires Suffices(high, low)
    ensures forall t | t in Accessible(owners, grants, p, high) :: t in Accessible(owners, grants, p, low)
  {
    forall t | t in Accessible(owners, grants, p, high)
      ensures t in Accessible(owners, grants, p, low)
    {
      ListedIff(owners, grants, p, high, t);
      ListedIff(owners, grants, p, low, t);
      if g :| g in grants && Covers(g, p, t, high) {
        SufficesIsTransitive(g.permission, high, low);
        assert Covers(g, p, t, low);
      }
    }
  }
}
