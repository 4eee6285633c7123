/** The authorizer: group chains over possibly cyclic memberships, the operation closure,
    wildcard and targeted grants, and the own and tag predicates. */
module Authz {
  import opened Text

  type Id = int

  /** A directed relation; an edge (a, b) lets a chain go on from a to b. */
  type Edges = set<(Id, Id)>

  // ----- reachability, the meaning of the recursive queries -----

  ghost predicate IsPath(edges: Edges, path: seq<Id>)
  {
    |path| > 0 && forall i :: 0 <= i < |path| - 1 ==> (path[i], path[i + 1]) in edges
  }

  ghost predicate Reaches(edges: Edges, source: Id, dest: Id)
  {
    exists path :: IsPath(edges, path) && path[0] == source && path[|path| - 1] == dest
  }

  lemma ReachesSelf(edges: Edges, a: Id)
    ensures Reaches(edges, a, a)
  {
    assert IsPath(edges, [a]) && [a][0] == a;
  }

  lemma ReachesStep(edges: Edges, a: Id, b: Id, c: Id)
    requires Reaches(edges, a, b) && (b, c) in edges
    ensures Reaches(edges, a, c)
  {
    var path :| IsPath(edges, path) && path[0] == a && path[|path| - 1] == b;
    var longer := path + [c];
    assert IsPath(edges, longer) && longer[0] == a && longer[|longer| - 1] == c;
  }

  /** A set that holds the source and is closed under the edges holds everything reachable. */
  lemma {:induction false} ClosedHoldsPath(edges: Edges, s: set<Id>, path: seq<Id>)
    requires IsPath(edges, path) && path[0] in s
    requires forall e | e in edges && e.0 in s :: e.1 in s
    ensures path[|path| - 1] in s
  {
    if |path| > 1 {
      var e := (path[0], path[1]);
      assert e in edges && e.1 in s;
      assert IsPath(edges, path[1..]) by {
        forall i | 0 <= i < |path[1..]| - 1 ensures (path[1..][i], path[1..][i + 1]) in edges {
          assert (path[i + 1], path[i + 2]) in edges;
        }
      }
      ClosedHoldsPath(edges, s, path[1..]);
    }
  }

  // ----- WITH RECURSIVE ... UNION -----

  function Targets(edges: Edges): set<Id>
  {
    set e | e in edges :: e.1
  }

  function Successors(edges: Edges, working: set<Id>): set<Id>
  {
    set e | e in edges && e.0 in working :: e.1
  }

  lemma Shrinks(edges: Edges, found: set<Id>, working: set<Id>)
    ensures var added := Successors(edges, working) - found;
      if added == {} then found + added == found else Targets(edges) - (found + added) < Targets(edges) - found
  {
    var added := Successors(edges, working) - found;
    assert added <= Targets(edges) - found;
    if Targets(edges) - (found + added) == Targets(edges) - found {
      assert added == {};
    }
  }

  /** Working-table evaluation: join the working table with the edges, drop the rows already
      found, and go on with the new ones. The measure is the set of groups not yet found. */
  function Evaluate(edges: Edges, found: set<Id>, working: set<Id>): (r: set<Id>)
    requires working <= found
    ensures found <= r
    decreases Targets(edges) - found, working
  {
    if working == {} then found
    else
      var added := Successors(edges, working) - found;
      Shrinks(edges, found, working);
      Evaluate(edges, found + added, added)
  }

  function Chain(edges: Edges, start: Id): set<Id>
  {
    Evaluate(edges, {start}, {start})
  }

  lemma {:induction false} EvaluateClosed(edges: Edges, found: set<Id>, working: set<Id>)
    requires working <= found
    requires forall e | e in edges && e.0 in found - working :: e.1 in found
    ensures forall e | e in edges && e.0 in Evaluate(edges, found, working) :: e.1 in Evaluate(edges, found, working)
    decreases Targets(edges) - found, working
  {
    if working != {} {
      var added := Successors(edges, working) - found;
      Shrinks(edges, found, working);
      EvaluateClosed(edges, found + added, added);
    }
  }

  lemma {:induction false} EvaluateReachable(edges: Edges, start: Id, found: set<Id>, working: set<Id>)
    requires working <= found
    requires forall x | x in found :: Reaches(edges, start, x)
    ensures forall x | x in Evaluate(edges, found, working) :: Reaches(edges, start, x)
    decreases Targets(edges) - found, working
  {
    if working != {} {
      var added := Successors(edges, working) - found;
      Shrinks(edges, found, working);
      forall x | x in added ensures Reaches(edges, start, x) {
        var e :| e in edges && e.0 in working && e.1 == x;
        ReachesStep(edges, start, e.0, x);
      }
      EvaluateReachable(edges, start, found + added, added);
    }
  }

  /** On every finite relation, cycles included, the query returns exactly the
      reflexive-transitive closure of its start row. */
  lemma ChainExact(edges: Edges, start: Id, x: Id)
    ensures x in Chain(edges, start) <==> Reaches(edges, start, x)
  {
    ReachesSelf(edges, start);
    EvaluateReachable(edges, start, {start}, {start});
    EvaluateClosed(edges, {start}, {start});
    if Reaches(edges, start, x) {
      var path :| IsPath(edges, path) && path[0] == start && path[|path| - 1] == x;
      ClosedHoldsPath(edges, Chain(edges, start), path);
    }
  }

  lemma ChainMonotone(edges: Edges, more: Edges, start: Id)
    requires edges <= more
    ensures Chain(edges, start) <= Chain(more, start)
  {
    forall x | x in Chain(edges, start) ensures x in Chain(more, start) {
      ChainExact(edges, start, x);
      ChainExact(more, start, x);
      var path :| IsPath(edges, path) && path[0] == start && path[|path| - 1] == x;
      assert IsPath(more, path);
    }
  }

  /** The chain depends only on the edges that leave it. */
  lemma ChainFrame(edges: Edges, other: Edges, start: Id)
    requires forall e: (Id, Id) | e.0 in Chain(edges, start) :: e in edges <==> e in other
    ensures Chain(other, start) == Chain(edges, start)
  {
    var chain := Chain(edges, start);
    EvaluateClosed(edges, {start}, {start});
    forall x | x in Chain(other, start) ensures x in chain {
      ChainExact(other, start, x);
      var path :| IsPath(other, path) && path[0] == start && path[|path| - 1] == x;
      ClosedHoldsPath(other, chain, path);
    }
    forall x | x in chain ensures x in Chain(other, start) {
      ChainExact(edges, start, x);
      var path :| IsPath(edges, path) && path[0] == start && path[|path| - 1] == x;
      PathStaysInside(edges, other, start, path);
    }
  }

  lemma {:induction false} PathStaysInside(edges: Edges, other: Edges, start: Id, path: seq<Id>)
    requires forall e: (Id, Id) | e.0 in Chain(edges, start) :: e in edges <==> e in other
    requires IsPath(edges, path) && path[0] == start
    ensures path[|path| - 1] in Chain(edges, start)
    ensures path[|path| - 1] in Chain(other, start)
  {
    var n := |path| - 1;
    if n > 0 {
      var prefix := path[..n];
      assert IsPath(edges, prefix) && prefix[|prefix| - 1] == path[n - 1];
      PathStaysInside(edges, other, start, prefix);
      var e := (path[n - 1], path[n]);
      assert e in edges && e in other;
      ChainExact(edges, start, path[n - 1]);
      ChainExact(other, start, path[n - 1]);
      ReachesStep(edges, start, path[n - 1], path[n]);
      ReachesStep(other, start, path[n - 1], path[n]);
      ChainExact(edges, start, path[n]);
      ChainExact(other, start, path[n]);
    } else {
      ReachesSelf(edges, start);
      ReachesSelf(other, start);
      ChainExact(edges, start, start);
      ChainExact(other, start, start);
    }
  }

  // ----- operations -----

  datatype Operation = Operation(id: Id, slug: string, implies: set<Id>)

  function Lookup(ops: seq<Operation>, slug: string): Option<Id>
  {
    if ops == [] then None
    else if ops[0].slug == slug then Some(ops[0].id)
    else Lookup(ops[1..], slug)
  }

  /** Edges from an implied operation to an operation that implies it. */
  function ImpliedBy(ops: seq<Operation>): Edges
  {
    set o, i | o in ops && i in o.implies :: (i, o.id)
  }

  /** The ids of the operations a grant may name to satisfy slug; None for an unknown slug. */
  function SatisfiedBy(ops: seq<Operation>, slug: string): Option<set<Id>>
  {
    match Lookup(ops, slug)
    case None => None
    case Some(id) => Some(Chain(ImpliedBy(ops), id))
  }

  // ----- the decision -----

  datatype Grant = Grant(actor: Id, op: Id, target: Option<Id>)

  datatype Tag = Tag(entity: Id, owner: Option<Id>, subject: Option<Id>)

  datatype Tables = Tables(grants: set<Grant>, actorMembers: Edges, targetMembers: Edges, tags: set<Tag>)

  datatype Context = Context(actor: Option<Id>, sudo: Option<Id>)

  /** Which of the three queries fail. */
  datatype Faults = Faults(wildcard: bool, grant: bool, tag: bool)

  const NO_FAULTS := Faults(false, false, false)

  datatype Decision = Allow | Unauthenticated | Forbidden | QueryFailed

  function EffectiveActor(ctx: Context): Option<Id>
  {
    if ctx.sudo.Some? then ctx.sudo else ctx.actor
  }

  predicate CheckWildcardGrant(t: Tables, actor: Id, ops: set<Id>)
  {
    var chain := Chain(t.actorMembers, actor);
    exists g | g in t.grants :: g.actor in chain && g.op in ops && g.target == None
  }

  predicate CheckGrant(t: Tables, actor: Id, target: Id, ops: set<Id>)
  {
    var actors, targets := Chain(t.actorMembers, actor), Chain(t.targetMembers, target);
    exists g | g in t.grants :: g.actor in actors && g.op in ops && g.target.Some? && g.target.value in targets
  }

  predicate CheckTagOwnership(t: Tables, actor: Id, target: Id)
  {
    exists tag | tag in t.tags :: tag.entity == target && (tag.owner == Some(actor) || tag.subject == Some(actor))
  }

  function Authorize(ctx: Context, ops: seq<Operation>, t: Tables, f: Faults, operation: string, target: Option<Id>): Decision
  {
    match EffectiveActor(ctx)
    case None => Unauthenticated
    case Some(actor) =>
      match SatisfiedBy(ops, operation)
      case None =>
        (match SatisfiedBy(ops, "manage")
         case None => Forbidden
         case Some(manageIds) =>
           if f.wildcard then QueryFailed
           else if CheckWildcardGrant(t, actor, manageIds) then Allow
           else Forbidden)
      case Some(opIds) =>
        if f.wildcard then QueryFailed
        else if CheckWildcardGrant(t, actor, opIds) then Allow
        else if target.None? then Forbidden
        else if f.grant then QueryFailed
        else if CheckGrant(t, actor, target.value, opIds) then Allow
        else if target.value == actor then Allow
        else if f.tag then Forbidden
        else if CheckTagOwnership(t, actor, target.value) then Allow
        else Forbidden
  }

  // ----- the declarative specification -----

  /** A grant of granted serves a request for slug when slug's operation is implied, in any
      number of steps, by granted. */
  ghost predicate Serves(ops: seq<Operation>, granted: Id, slug: string)
  {
    Lookup(ops, slug).Some? && Reaches(ImpliedBy(ops), Lookup(ops, slug).value, granted)
  }

  ghost predicate HoldsWildcard(ops: seq<Operation>, t: Tables, actor: Id, slug: string)
  {
    exists g | g in t.grants :: g.target == None && Reaches(t.actorMembers, actor, g.actor) && Serves(ops, g.op, slug)
  }

  ghost predicate HoldsGrant(ops: seq<Operation>, t: Tables, actor: Id, target: Id, slug: string)
  {
    exists g | g in t.grants ::
      && g.target.Some? && Reaches(t.targetMembers, target, g.target.value)
      && Reaches(t.actorMembers, actor, g.actor) && Serves(ops, g.op, slug)
  }

  /** The actor owns the tag or is its subject. */
  ghost predicate Tagged(t: Tables, actor: Id, target: Id)
  {
    exists tag | tag in t.tags :: tag.entity == target && (tag.owner == Some(actor) || tag.subject == Some(actor))
  }

  ghost predicate Owns(t: Tables, actor: Id, target: Id)
  {
    target == actor || Tagged(t, actor, target)
  }

  /** The entity whose rows decide: the assumed user of a sudo session, and the session's own only where
      there is none. */
  predicate ActsAs(ctx: Context, actor: Id)
  {
    ctx.sudo == Some(actor) || (ctx.sudo.None? && ctx.actor == Some(actor))
  }

  /** The operation a wildcard grant must serve: an unregistered one falls back to "manage". */
  ghost function WildcardSlug(ops: seq<Operation>, operation: string): string
  {
    if Lookup(ops, operation).Some? then operation else "manage"
  }

  ghost predicate Permitted(ops: seq<Operation>, t: Tables, actor: Id, operation: string, target: Option<Id>)
  {
    || HoldsWildcard(ops, t, actor, WildcardSlug(ops, operation))
    || (Lookup(ops, operation).Some? && target.Some?
        && (HoldsGrant(ops, t, actor, target.value, operation) || Owns(t, actor, target.value)))
  }

  /** A failing query is reached before anything allows: the wildcard query of a registered operation, or the
      targeted one where no wildcard grant serves. A failing tag query only denies. */
  ghost predicate Fails(ops: seq<Operation>, t: Tables, f: Faults, actor: Id, operation: string, target: Option<Id>)
  {
    || (f.wildcard && Lookup(ops, WildcardSlug(ops, operation)).Some?)
    || (f.grant && Lookup(ops, operation).Some? && target.Some? && !HoldsWildcard(ops, t, actor, operation))
  }

  lemma SatisfiedByExact(ops: seq<Operation>, slug: string, id: Id)
    requires Lookup(ops, slug).Some?
    ensures id in SatisfiedBy(ops, slug).value <==> Serves(ops, id, slug)
  {
    ChainExact(ImpliedBy(ops), Lookup(ops, slug).value, id);
  }

  lemma WildcardExact(ops: seq<Operation>, t: Tables, actor: Id, slug: string)
    requires Lookup(ops, slug).Some?
    ensures CheckWildcardGrant(t, actor, SatisfiedBy(ops, slug).value) <==> HoldsWildcard(ops, t, actor, slug)
  {
    forall g | g in t.grants
      ensures g.actor in Chain(t.actorMembers, actor) <==> Reaches(t.actorMembers, actor, g.actor)
      ensures g.op in SatisfiedBy(ops, slug).value <==> Serves(ops, g.op, slug)
    {
      ChainExact(t.actorMembers, actor, g.actor);
      SatisfiedByExact(ops, slug, g.op);
    }
  }

  lemma GrantExact(ops: seq<Operation>, t: Tables, actor: Id, target: Id, slug: string)
    requires Lookup(ops, slug).Some?
    ensures CheckGrant(t, actor, target, SatisfiedBy(ops, slug).value) <==> HoldsGrant(ops, t, actor, target, slug)
  {
    forall g | g in t.grants
      ensures g.actor in Chain(t.actorMembers, actor) <==> Reaches(t.actorMembers, actor, g.actor)
      ensures g.target.Some? ==> (g.target.value in Chain(t.targetMembers, target) <==> Reaches(t.targetMembers, target, g.target.value))
      ensures g.op in SatisfiedBy(ops, slug).value <==> Serves(ops, g.op, slug)
    {
      ChainExact(t.actorMembers, actor, g.actor);
      if g.target.Some? {
        ChainExact(t.targetMembers, target, g.target.value);
      }
      SatisfiedByExact(ops, slug, g.op);
    }
  }

  /** The decision for whoever acts, with any queries failing: an error exactly where a failing query is
      reached; otherwise exactly what the specification permits is allowed, but for tags that cannot be read. */
  lemma AuthorizeExact(ctx: Context, ops: seq<Operation>, t: Tables, f: Faults, actor: Id, operation: string, target: Option<Id>)
    requires ActsAs(ctx, actor)
    ensures var d := Authorize(ctx, ops, t, f, operation, target);
      && (d.QueryFailed? <==> Fails(ops, t, f, actor, operation, target))
      && (d.Allow? <==> !Fails(ops, t, f, actor, operation, target) && Permitted(ops, if f.tag then t.(tags := {}) else t, actor, operation, target))
      && !d.Unauthenticated?
  {
    var slug := WildcardSlug(ops, operation);
    if Lookup(ops, slug).Some? {
      WildcardExact(ops, t, actor, slug);
    }
    if Lookup(ops, operation).Some? && target.Some? {
      GrantExact(ops, t, actor, target.value, operation);
    }
    var u := t.(tags := {});
    assert HoldsWildcard(ops, u, actor, slug) == HoldsWildcard(ops, t, actor, slug);
    assert target.Some? ==> HoldsGrant(ops, u, actor, target.value, operation) == HoldsGrant(ops, t, actor, target.value, operation);
    assert target.Some? ==> (CheckTagOwnership(t, actor, target.value) <==> Tagged(t, actor, target.value));
  }

  /** Without query faults exactly what is permitted is allowed, and everything else forbidden. */
  lemma AllowedExactly(ctx: Context, ops: seq<Operation>, t: Tables, actor: Id, operation: string, target: Option<Id>)
    requires ActsAs(ctx, actor)
    ensures Authorize(ctx, ops, t, NO_FAULTS, operation, target) == if Permitted(ops, t, actor, operation, target) then Allow else Forbidden
  {
    AuthorizeExact(ctx, ops, t, NO_FAULTS, actor, operation, target);
  }

  /** A sudo session is decided as the assumed user's own session would be, whoever assumed it; only a context
      with neither actor is unauthenticated. */
  lemma SudoDecides(own: Option<Id>, b: Id, ops: seq<Operation>, t: Tables, f: Faults, operation: string, target: Option<Id>)
    ensures Authorize(Context(own, Some(b)), ops, t, f, operation, target) == Authorize(Context(Some(b), None), ops, t, f, operation, target)
    ensures Authorize(Context(own, None), ops, t, f, operation, target).Unauthenticated? <==> own.None?
  {
    AuthorizeExact(Context(own, Some(b)), ops, t, f, b, operation, target);
    if own.Some? {
      AuthorizeExact(Context(own, None), ops, t, f, own.value, operation, target);
    }
  }

  lemma FewerTags(ops: seq<Operation>, t: Tables, tags: set<Tag>, actor: Id, operation: string, target: Option<Id>)
    requires tags <= t.tags && Permitted(ops, t.(tags := tags), actor, operation, target)
    ensures Permitted(ops, t, actor, operation, target)
  {
    var u := t.(tags := tags);
    assert HoldsWildcard(ops, u, actor, WildcardSlug(ops, operation)) ==> HoldsWildcard(ops, t, actor, WildcardSlug(ops, operation));
    assert target.Some? && HoldsGrant(ops, u, actor, target.value, operation) ==> HoldsGrant(ops, t, actor, target.value, operation);
  }

  // ----- consequences -----

  predicate Extends(t: Tables, more: Tables)
  {
    && t.grants <= more.grants && t.actorMembers <= more.actorMembers
    && t.targetMembers <= more.targetMembers && t.tags <= more.tags
  }

  /** Adding grants, memberships or tags never turns an allow into a deny. */
  lemma AllowIsMonotone(ctx: Context, ops: seq<Operation>, t: Tables, more: Tables, operation: string, target: Option<Id>)
    requires Extends(t, more)
    requires Authorize(ctx, ops, t, NO_FAULTS, operation, target).Allow?
    ensures Authorize(ctx, ops, more, NO_FAULTS, operation, target).Allow?
  {
    var actor := EffectiveActor(ctx).value;
    ChainMonotone(t.actorMembers, more.actorMembers, actor);
    if target.Some? {
      ChainMonotone(t.targetMembers, more.targetMembers, target.value);
    }
  }

  /** Two tables that agree on every row naming the effective actor's chain, the target's
      chain or the target's tags. */
  ghost predicate AgreeFor(t: Tables, u: Tables, actor: Id, target: Option<Id>)
  {
    var actors := Chain(t.actorMembers, actor);
    && (forall e: (Id, Id) | e.0 in actors :: e in t.actorMembers <==> e in u.actorMembers)
    && (forall g: Grant | g.actor in actors :: g in t.grants <==> g in u.grants)
    && (target.Some? ==>
      && (forall e: (Id, Id) | e.0 in Chain(t.targetMembers, target.value) :: e in t.targetMembers <==> e in u.targetMembers)
      && (forall tag: Tag | tag.entity == target.value :: tag in t.tags <==> tag in u.tags))
  }

  /** Rows outside those chains, and the real actor of a sudo session, never change the decision. */
  lemma DecisionFrame(ctx: Context, other: Context, ops: seq<Operation>, t: Tables, u: Tables, f: Faults, actor: Id, operation: string,
                      target: Option<Id>)
    requires ActsAs(ctx, actor) && ActsAs(other, actor) && AgreeFor(t, u, actor, target)
    ensures Authorize(other, ops, u, f, operation, target) == Authorize(ctx, ops, t, f, operation, target)
  {
    ChainFrame(t.actorMembers, u.actorMembers, actor);
    forall ids ensures CheckWildcardGrant(t, actor, ids) == CheckWildcardGrant(u, actor, ids) {
    }
    if target.Some? {
      ChainFrame(t.targetMembers, u.targetMembers, target.value);
      forall ids ensures CheckGrant(t, actor, target.value, ids) == CheckGrant(u, actor, target.value, ids) {
      }
      assert CheckTagOwnership(t, actor, target.value) == CheckTagOwnership(u, actor, target.value);
    }
  }

  /** An actor whose grants are a wildcard "manage" grant held through any depth of groups. */
  ghost predicate WildcardManager(ops: seq<Operation>, t: Tables, actor: Id)
  {
    Lookup(ops, "manage").Some? &&
    exists g | g in t.grants :: g.target == None && g.op == Lookup(ops, "manage").value && Reaches(t.actorMembers, actor, g.actor)
  }

  /** Such an actor passes every unregistered operation, and every registered one that
      "manage" implies, whatever the target. */
  lemma ManagerPasses(ctx: Context, ops: seq<Operation>, t: Tables, actor: Id, operation: string, target: Option<Id>)
    requires ActsAs(ctx, actor) && WildcardManager(ops, t, actor)
    requires Lookup(ops, operation).None? || Serves(ops, Lookup(ops, "manage").value, operation)
    ensures Authorize(ctx, ops, t, NO_FAULTS, operation, target).Allow?
  {
    var g :| g in t.grants && g.target == None && g.op == Lookup(ops, "manage").value && Reaches(t.actorMembers, actor, g.actor);
    ReachesSelf(ImpliedBy(ops), g.op);
    assert HoldsWildcard(ops, t, actor, WildcardSlug(ops, operation));
    AllowedExactly(ctx, ops, t, actor, operation, target);
  }

  /** A wildcard manager whose chain holds no grant of another operation passes a registered operation
      exactly when "manage" implies it or, with a target, it is or owns the target. */
  lemma ManagerStopsThere(ctx: Context, ops: seq<Operation>, t: Tables, actor: Id, operation: string, target: Option<Id>)
    requires ActsAs(ctx, actor) && WildcardManager(ops, t, actor)
    requires forall g | g in t.grants && Reaches(t.actorMembers, actor, g.actor) :: g.op == Lookup(ops, "manage").value
    requires Lookup(ops, operation).Some?
    ensures Authorize(ctx, ops, t, NO_FAULTS, operation, target).Allow?
       <==> Serves(ops, Lookup(ops, "manage").value, operation) || (target.Some? && Owns(t, actor, target.value))
  {
    AllowedExactly(ctx, ops, t, actor, operation, target);
    if Serves(ops, Lookup(ops, "manage").value, operation) {
      ManagerPasses(ctx, ops, t, actor, operation, target);
    }
  }

  // ----- the seeded operations -----

  const SEED: seq<Operation> := [
    Operation(1, "read", {}), Operation(2, "sread", {1}), Operation(3, "list", {1}), Operation(4, "update", {1}),
    Operation(5, "delete", {1}), Operation(6, "swrite", {2, 4}), Operation(7, "manage", {1, 2, 3, 4, 5, 6, 8, 9, 10, 11}),
    Operation(8, "assume", {}), Operation(9, "login", {}), Operation(10, "grant", {}), Operation(11, "revoke", {})
  ]

  /** The operation "manage" is registered and directly implies every other operation. */
  ghost predicate ManageImpliesAll(ops: seq<Operation>)
  {
    exists m | m in ops :: Lookup(ops, "manage") == Some(m.id) && forall o | o in ops :: o.id == m.id || o.id in m.implies
  }

  /** Then a wildcard manager, through any depth of groups, passes every operation and every target. */
  lemma ManagerPassesEverything(ctx: Context, ops: seq<Operation>, t: Tables, actor: Id, operation: string, target: Option<Id>)
    requires ManageImpliesAll(ops)
    requires ActsAs(ctx, actor) && WildcardManager(ops, t, actor)
    ensures Authorize(ctx, ops, t, NO_FAULTS, operation, target).Allow?
  {
    var m :| m in ops && Lookup(ops, "manage") == Some(m.id) && forall o | o in ops :: o.id == m.id || o.id in m.implies;
    if Lookup(ops, operation).Some? {
      var id := Lookup(ops, operation).value;
      LookupFinds(ops, operation);
      ReachesSelf(ImpliedBy(ops), id);
      if id != m.id {
        assert (id, m.id) in ImpliedBy(ops);
        ReachesStep(ImpliedBy(ops), id, id, m.id);
      }
    }
    ManagerPasses(ctx, ops, t, actor, operation, target);
  }

  lemma {:induction false} LookupFinds(ops: seq<Operation>, slug: string)
    ensures Lookup(ops, slug).Some? ==> exists o | o in ops :: o.id == Lookup(ops, slug).value
  {
    if ops != [] {
      LookupFinds(ops[1..], slug);
      assert ops[0] in ops;
    }
  }

  lemma {:induction false} LookupFirst(ops: seq<Operation>, i: nat, slug: string)
    requires i < |ops| && ops[i].slug == slug
    requires forall j | 0 <= j < i :: ops[j].slug != slug
    ensures Lookup(ops, slug) == Some(ops[i].id)
  {
    if i > 0 {
      LookupFirst(ops[1..], i - 1, slug);
    }
  }

  /** The slugs and ids the seed's registry starts with. */
  ghost predicate SeedShaped(ops: seq<Operation>)
  {
    && |ops| == 11 && (forall i | 0 <= i < 11 :: ops[i].id == i + 1)
    && (forall j | 0 <= j < 6 :: ops[j].slug != "manage")
    && ops[6] == Operation(7, "manage", {1, 2, 3, 4, 5, 6, 8, 9, 10, 11})
  }

  lemma SeedSlugs(ops: seq<Operation>)
    requires ops == SEED
    ensures SeedShaped(ops)
  {
    assert "manage"[0] == 'm';
    assert "read"[0] == 'r' && "sread"[0] == 's' && "list"[0] == 'l' && "update"[0] == 'u' && "delete"[0] == 'd' && "swrite"[0] == 's';
  }

  lemma ManageIn(ops: seq<Operation>)
    requires SeedShaped(ops)
    ensures ManageImpliesAll(ops)
  {
    LookupFirst(ops, 6, "manage");
    var m := ops[6];
    forall o | o in ops ensures o.id == m.id || o.id in m.implies {
      var i :| 0 <= i < |ops| && ops[i] == o;
      assert ops[i].id == i + 1;
    }
  }

  /** The seeded operations are such a registry. */
  lemma SeedManageImpliesAll()
    ensures ManageImpliesAll(SEED)
  {
    SeedSlugs(SEED);
    ManageIn(SEED);
  }

  /** The chain of a start inside a set that no edge leaves, and whose members it reaches, is that set. */
  lemma ChainIs(edges: Edges, start: Id, members: set<Id>)
    requires start in members && (forall x | x in members :: Reaches(edges, start, x))
    requires forall e | e in edges && e.0 in members :: e.1 in members
    ensures forall x :: Reaches(edges, start, x) <==> x in members
  {
    forall x | Reaches(edges, start, x) ensures x in members {
      var path :| IsPath(edges, path) && path[0] == start && path[|path| - 1] == x;
      ClosedHoldsPath(edges, members, path);
    }
  }

  lemma SeedEdges(ops: seq<Operation>)
    requires ops == SEED
    ensures forall e | e in {(1, 2), (1, 3), (1, 4), (1, 5), (1, 7), (2, 6), (4, 6), (4, 7)} :: e in ImpliedBy(ops)
    ensures forall e | e in ImpliedBy(ops) && 1 <= e.0 <= 7 :: 1 <= e.1 <= 7
    ensures forall e | e in ImpliedBy(ops) && e.0 in {4, 6, 7} :: e.1 in {6, 7}
  {
    assert ops[0].implies == {} && ops[1].implies == {1} && ops[2].implies == {1} && ops[3].implies == {1} && ops[4].implies == {1};
    assert ops[5].implies == {2, 4} && ops[6].implies == {1, 2, 3, 4, 5, 6, 8, 9, 10, 11};
    assert ops[7].implies == {} && ops[8].implies == {} && ops[9].implies == {} && ops[10].implies == {};
    assert forall k | 0 <= k < 11 :: ops[k].id == k + 1;
    EdgesFrom(ops);
  }

  /** The same, from the shape of the seed alone. */
  lemma EdgesFrom(ops: seq<Operation>)
    requires |ops| == 11 && forall k | 0 <= k < 11 :: ops[k].id == k + 1
    requires ops[0].implies == {} && (forall k | 1 <= k <= 4 :: ops[k].implies == {1}) && ops[5].implies == {2, 4}
    requires ops[6].implies == {1, 2, 3, 4, 5, 6, 8, 9, 10, 11} && forall k | 7 <= k < 11 :: ops[k].implies == {}
    ensures forall e | e in {(1, 2), (1, 3), (1, 4), (1, 5), (1, 7), (2, 6), (4, 6), (4, 7)} :: e in ImpliedBy(ops)
    ensures forall e | e in ImpliedBy(ops) && 1 <= e.0 <= 7 :: 1 <= e.1 <= 7
    ensures forall e | e in ImpliedBy(ops) && e.0 in {4, 6, 7} :: e.1 in {6, 7}
  {
    hide ImpliedBy;
    EdgeIn(ops, 1, 1);
    EdgeIn(ops, 2, 1);
    EdgeIn(ops, 3, 1);
    EdgeIn(ops, 4, 1);
    EdgeIn(ops, 6, 1);
    EdgeIn(ops, 5, 2);
    EdgeIn(ops, 5, 4);
    EdgeIn(ops, 6, 4);
    forall e | e in ImpliedBy(ops) && 1 <= e.0 <= 7 ensures 1 <= e.1 <= 7 && (e.0 in {4, 6, 7} ==> e.1 in {6, 7}) {
      var k := EdgeFrom(ops, e);
      assert k < 7;
      assert e.0 in {4, 6, 7} ==> k == 5 || k == 6;
    }
  }

  lemma EdgeIn(ops: seq<Operation>, k: nat, i: Id)
    requires k < |ops| && i in ops[k].implies
    ensures (i, ops[k].id) in ImpliedBy(ops)
  {
    assert ops[k] in ops;
  }

  lemma EdgeFrom(ops: seq<Operation>, e: (Id, Id)) returns (k: nat)
    requires e in ImpliedBy(ops)
    ensures k < |ops| && e.1 == ops[k].id && e.0 in ops[k].implies
  {
    var o, i :| o in ops && i in o.implies && e == (i, o.id);
    k :| k < |ops| && ops[k] == o;
  }

  /** What the seed lets serve what: "read" every operation from 1 to 7, so read, sread, list, update, delete, swrite
      and manage; "update" its own grant, swrite and manage. */
  lemma SeedServes(granted: Id)
    ensures Serves(SEED, granted, "read") <==> 1 <= granted <= 7
    ensures Serves(SEED, granted, "update") <==> granted in {4, 6, 7}
  {
    SeedChains(SEED, granted);
  }

  lemma SeedChains(ops: seq<Operation>, granted: Id)
    requires ops == SEED
    ensures Serves(ops, granted, "read") <==> 1 <= granted <= 7
    ensures Serves(ops, granted, "update") <==> granted in {4, 6, 7}
  {
    hide Reaches, ImpliedBy;
    SeedEdges(ops);
    SeedLookups(ops);
    var edges := ImpliedBy(ops);
    forall a, b | (a, b) in edges ensures Reaches(edges, a, b) {
      ReachesSelf(edges, a);
      ReachesStep(edges, a, a, b);
    }
    ReachesSelf(edges, 1);
    ReachesSelf(edges, 4);
    ReachesStep(edges, 1, 2, 6);
    ChainIs(edges, 1, {1, 2, 3, 4, 5, 6, 7});
    ChainIs(edges, 4, {4, 6, 7});
  }

  lemma SeedLookups(ops: seq<Operation>)
    requires ops == SEED
    ensures Lookup(ops, "read") == Some(1) && Lookup(ops, "update") == Some(4)
  {
    assert "read"[0] == 'r' && "sread"[0] == 's' && "list"[0] == 'l' && "update"[0] == 'u';
    assert ops[0].slug == "read" && ops[1].slug == "sread" && ops[2].slug == "list" && ops[3].slug == "update";
    LookupFirst(ops, 0, "read");
    LookupFirst(ops, 3, "update");
  }

  /** One operation registered at run time, which "manage" does not imply. */
  const EXPORT := Operation(12, "export", {})

  lemma ExportLookups(ops: seq<Operation>)
    requires ops == SEED + [EXPORT]
    ensures Lookup(ops, "manage") == Some(7) && Lookup(ops, "export") == Some(12)
    ensures !Serves(ops, 7, "export")
  {
    var seed := SEED;
    SeedSlugs(seed);
    assert forall i | 0 <= i < 11 :: ops[i] == seed[i];
    LookupFirst(ops, 6, "manage");
    NoSeedExport(seed);
    LookupFirst(ops, 11, "export");
    var edges := ImpliedBy(ops);
    forall e | e in edges ensures e.0 != 12 {
      var o, i :| o in ops && i in o.implies && e == (i, o.id);
      NoneImpliesExport(ops, o);
    }
    if Reaches(edges, 12, 7) {
      var path :| IsPath(edges, path) && path[0] == 12 && path[|path| - 1] == 7;
      ClosedHoldsPath(edges, {12}, path);
    }
  }

  lemma NoSeedExport(seed: seq<Operation>)
    requires seed == SEED
    ensures forall i | 0 <= i < |seed| :: seed[i].slug != "export"
  {
    assert "export"[0] == 'e';
    assert "read"[0] == 'r' && "sread"[0] == 's' && "list"[0] == 'l' && "update"[0] == 'u' && "delete"[0] == 'd' && "swrite"[0] == 's';
    assert "manage"[0] == 'm' && "assume"[0] == 'a' && "login"[0] == 'l' && "grant"[0] == 'g' && "revoke"[0] == 'r';
  }

  lemma NoneImpliesExport(ops: seq<Operation>, o: Operation)
    requires ops == SEED + [EXPORT] && o in ops
    ensures 12 !in o.implies
  {
  }

  /** Registered beside the seed, that operation is refused to a wildcard manager. */
  lemma ExportRefusesManager()
    ensures Authorize(Context(Some(1), None), SEED + [EXPORT], Tables({Grant(1, 7, None)}, {}, {}, {}), NO_FAULTS, "export", None) == Forbidden
  {
    ExportRefuses(SEED + [EXPORT], Tables({Grant(1, 7, None)}, {}, {}, {}));
  }

  lemma ExportRefuses(ops: seq<Operation>, t: Tables)
    requires ops == SEED + [EXPORT] && t == Tables({Grant(1, 7, None)}, {}, {}, {})
    ensures Authorize(Context(Some(1), None), ops, t, NO_FAULTS, "export", None) == Forbidden
  {
    ExportLookups(ops);
    ReachesSelf(t.actorMembers, 1);
    assert Grant(1, 7, None) in t.grants;
    ManagerStopsThere(Context(Some(1), None), ops, t, 1, "export", None);
  }
}
