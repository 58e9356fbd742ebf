/** What `createInSchema` visits and what it leaves behind: the entity types
    whose classes it may create, the shape of every class it adds, and when
    it succeeds. */
module Creation {
  import opened Outcomes
  import opened Annotations
  import opened Reflection
  import opened NameTypes
  import opened Schemas
  import opened Types

  // ---------------------------------------------------------------------------
  // The types creation may reach

  /** An upper bound on the entity types creation visits from `id` in
      schema `s`: `id` itself when its class is missing, and, through its
      parents, every type reachable along parents whose classes are missing
      in `s`. The bound is taken in the starting schema, so a parent whose
      class an earlier sibling has already created is still counted, with
      everything behind it. */
  function Reach(u: Universe, rank: map<TypeId, nat>, s: Schema, id: TypeId): (r: set<TypeId>)
    requires WellFormed(u) && id in u && IsDatabaseType(u[id]) && Ranked(u, rank, s)
    ensures id in r <==> Name(u, id) !in s
    ensures forall p | p in r ::
      p in u && IsDatabaseType(u[p]) && Name(u, p) !in s && Measure(u, rank, s, p) <= Measure(u, rank, s, id)
    decreases Measure(u, rank, s, id), 1
  {
    if Name(u, id) in s then {}
    else
      match FindParentTypes(u, id)
      case Err(_) => {id}
      case Ok(parents) =>
        assert RankedAt(u, rank, s, id);
        {id} + ReachAll(u, rank, s, Measure(u, rank, s, id), parents)
  }

  /** `Reach` of every type in `ids`. */
  function ReachAll(u: Universe, rank: map<TypeId, nat>, s: Schema, bound: nat, ids: seq<TypeId>): (r: set<TypeId>)
    requires WellFormed(u) && Ranked(u, rank, s)
    requires forall j | 0 <= j < |ids| :: ids[j] in u && IsDatabaseType(u[ids[j]]) && Measure(u, rank, s, ids[j]) < bound
    ensures forall p | p in r :: p in u && IsDatabaseType(u[p]) && Name(u, p) !in s && Measure(u, rank, s, p) < bound
    decreases bound, 0, |ids|
  {
    if |ids| == 0 then {}
    else Reach(u, rank, s, ids[0]) + ReachAll(u, rank, s, bound, ids[1..])
  }

  /** A bigger schema reaches fewer types: classes that now exist cut the
      paths through them. */
  lemma ReachShrinks(u: Universe, rank: map<TypeId, nat>, s: Schema, s': Schema, id: TypeId)
    requires WellFormed(u) && id in u && IsDatabaseType(u[id]) && Ranked(u, rank, s) && Extends(s, s')
    ensures Ranked(u, rank, s')
    ensures Reach(u, rank, s', id) <= Reach(u, rank, s, id)
    decreases Measure(u, rank, s, id), 1
  {
    RankedGrows(u, rank, s, s');
    if Name(u, id) !in s' && FindParentTypes(u, id).Ok? {
      var parents := FindParentTypes(u, id).value;
      assert RankedAt(u, rank, s, id);
      assert RankedAt(u, rank, s', id);
      MeasureShrinks(u, rank, s, s', parents);
      ReachAllShrinks(u, rank, s, s', Measure(u, rank, s, id), parents);
    }
  }

  lemma ReachAllShrinks(u: Universe, rank: map<TypeId, nat>, s: Schema, s': Schema, bound: nat, ids: seq<TypeId>)
    requires WellFormed(u) && Ranked(u, rank, s) && Extends(s, s')
    requires forall j | 0 <= j < |ids| :: ids[j] in u && IsDatabaseType(u[ids[j]]) && Measure(u, rank, s, ids[j]) < bound
    ensures Ranked(u, rank, s')
    ensures forall j | 0 <= j < |ids| :: Measure(u, rank, s', ids[j]) < bound
    ensures ReachAll(u, rank, s', bound, ids) <= ReachAll(u, rank, s, bound, ids)
    decreases bound, 0, |ids|
  {
    MeasureShrinks(u, rank, s, s', ids);
    if |ids| > 0 {
      ReachShrinks(u, rank, s, s', ids[0]);
      ReachAllShrinks(u, rank, s, s', bound, ids[1..]);
    }
  }

  // ---------------------------------------------------------------------------
  // What creation adds

  /** `c` is the class `createInSchema` mints for entity type `p` under the
      name `n`: bare, with `p`'s parents' class names in `findParentTypes`
      order. */
  predicate MadeFor(u: Universe, p: TypeId, n: string, c: SchemaClass)
    requires WellFormed(u)
  {
    && p in u && IsDatabaseType(u[p]) && n == Name(u, p)
    && FindParentTypes(u, p).Ok?
    && c == SchemaClass(NamesOf(u, FindParentTypes(u, p).value), map[], [])
  }

  /** Every class of `s'` that `s` lacks was minted for some type of `r`. */
  predicate Built(u: Universe, s: Schema, s': Schema, r: set<TypeId>)
    requires WellFormed(u)
  {
    forall n | n in s' && n !in s :: exists p | p in r :: MadeFor(u, p, n, s'[n])
  }

  lemma BuiltWiden(u: Universe, s: Schema, s': Schema, r: set<TypeId>, r': set<TypeId>)
    requires WellFormed(u) && Built(u, s, s', r) && r <= r'
    ensures Built(u, s, s', r')
  {
    forall n | n in s' && n !in s ensures exists p | p in r' :: MadeFor(u, p, n, s'[n]) {
      var p :| p in r && MadeFor(u, p, n, s'[n]);
      assert p in r';
    }
  }

  lemma BuiltCompose(u: Universe, s: Schema, s1: Schema, s2: Schema, r1: set<TypeId>, r2: set<TypeId>)
    requires WellFormed(u) && Built(u, s, s1, r1) && Built(u, s1, s2, r2) && Extends(s1, s2)
    ensures Built(u, s, s2, r1 + r2)
  {
    forall n | n in s2 && n !in s ensures exists p | p in r1 + r2 :: MadeFor(u, p, n, s2[n]) {
      if n in s1 {
        var p :| p in r1 && MadeFor(u, p, n, s1[n]);
        assert s2[n] == s1[n] && p in r1 + r2;
      } else {
        var p :| p in r2 && MadeFor(u, p, n, s2[n]);
        assert p in r1 + r2;
      }
    }
  }

  /** Minting the class of `id` last, once its parents are made. */
  lemma BuiltLast(u: Universe, s: Schema, m: Schema, r: set<TypeId>, id: TypeId)
    requires WellFormed(u) && id in u && IsDatabaseType(u[id]) && FindParentTypes(u, id).Ok?
    requires Built(u, s, m, r) && Name(u, id) !in m
    ensures Built(u, s, m[Name(u, id) := SchemaClass(NamesOf(u, FindParentTypes(u, id).value), map[], [])], r + {id})
  {
    var name := Name(u, id);
    var s' := m[name := SchemaClass(NamesOf(u, FindParentTypes(u, id).value), map[], [])];
    assert MadeFor(u, id, name, s'[name]);
    assert Built(u, m, s', {id}) by {
      forall n | n in s' && n !in m ensures exists p | p in {id} :: MadeFor(u, p, n, s'[n]) {
        assert n == name && id in {id};
      }
    }
    BuiltCompose(u, s, m, s', r, {id});
  }

  lemma ReachUnfolds(u: Universe, rank: map<TypeId, nat>, s: Schema, id: TypeId)
    requires WellFormed(u) && id in u && IsDatabaseType(u[id]) && Ranked(u, rank, s) && RankedAt(u, rank, s, id)
    requires Name(u, id) !in s && FindParentTypes(u, id).Ok?
    ensures Reach(u, rank, s, id) == {id} + ReachAll(u, rank, s, Measure(u, rank, s, id), FindParentTypes(u, id).value)
  {
  }

  /** The schema `createInSchema` leaves for a missing class whose parents
      can be found: the parents' schema, plus the class if the parents were
      all made and its name is still free. */
  lemma CreateUnfolds(u: Universe, rank: map<TypeId, nat>, s: Schema, id: TypeId)
    requires WellFormed(u) && id in u && IsDatabaseType(u[id]) && Ranked(u, rank, s) && RankedAt(u, rank, s, id)
    requires Name(u, id) !in s && FindParentTypes(u, id).Ok?
    ensures var made := CreateParents(u, rank, Measure(u, rank, s, id), FindParentTypes(u, id).value, s);
      CreateInSchema(u, rank, id, s).schema ==
        if made.result.Ok? && Name(u, id) !in made.schema
        then made.schema[Name(u, id) := SchemaClass(NamesOf(u, FindParentTypes(u, id).value), map[], [])]
        else made.schema
  {
  }

  /** Every class `createInSchema` adds is the bare class of a type it
      reaches, carrying that type's parents' names in order. */
  lemma CreateBuilds(u: Universe, rank: map<TypeId, nat>, id: TypeId, s: Schema)
    requires WellFormed(u) && id in u && IsDatabaseType(u[id]) && Ranked(u, rank, s)
    ensures Built(u, s, CreateInSchema(u, rank, id, s).schema, Reach(u, rank, s, id))
    decreases Measure(u, rank, s, id), 1
  {
    if Name(u, id) !in s && FindParentTypes(u, id).Ok? {
      var parents := FindParentTypes(u, id).value;
      assert RankedAt(u, rank, s, id);
      var bound := Measure(u, rank, s, id);
      var made := CreateParents(u, rank, bound, parents, s);
      var r := ReachAll(u, rank, s, bound, parents);
      CreateParentsBuilds(u, rank, bound, parents, s);
      ReachUnfolds(u, rank, s, id);
      CreateUnfolds(u, rank, s, id);
      if made.result.Ok? && Name(u, id) !in made.schema {
        BuiltLast(u, s, made.schema, r, id);
      } else {
        BuiltWiden(u, s, made.schema, r, r + {id});
      }
    }
  }

  /** One turn of the parent loop, as to reach: after the first parent the
      schema is still ranked, and the rest of the loop reaches no more than
      it would have from the start. */
  lemma ParentsStepReach(u: Universe, rank: map<TypeId, nat>, bound: nat, ids: seq<TypeId>, s: Schema)
    requires WellFormed(u) && Ranked(u, rank, s) && |ids| > 0
    requires forall j | 0 <= j < |ids| :: ids[j] in u && IsDatabaseType(u[ids[j]]) && Measure(u, rank, s, ids[j]) < bound
    ensures var s1 := CreateInSchema(u, rank, ids[0], s).schema;
      && Ranked(u, rank, s1)
      && (forall j | 1 <= j < |ids| :: Measure(u, rank, s1, ids[j]) < bound)
      && ReachAll(u, rank, s, bound, ids) == Reach(u, rank, s, ids[0]) + ReachAll(u, rank, s, bound, ids[1..])
      && ReachAll(u, rank, s1, bound, ids[1..]) <= ReachAll(u, rank, s, bound, ids[1..])
  {
    ReachAllShrinks(u, rank, s, CreateInSchema(u, rank, ids[0], s).schema, bound, ids[1..]);
  }

  /** One turn of the parent loop, as to outcome: the first parent's failure,
      or the rest of the loop's outcome. */
  lemma ParentsStepOutcome(u: Universe, rank: map<TypeId, nat>, bound: nat, ids: seq<TypeId>, s: Schema)
    requires WellFormed(u) && Ranked(u, rank, s) && |ids| > 0
    requires forall j | 0 <= j < |ids| :: ids[j] in u && IsDatabaseType(u[ids[j]]) && Measure(u, rank, s, ids[j]) < bound
    requires var s1 := CreateInSchema(u, rank, ids[0], s).schema;
      Ranked(u, rank, s1) && forall j | 1 <= j < |ids| :: Measure(u, rank, s1, ids[j]) < bound
    ensures var first := CreateInSchema(u, rank, ids[0], s);
      && (first.result.Err? ==> CreateParents(u, rank, bound, ids, s).schema == first.schema)
      && (first.result.Ok? ==>
            && CreateParents(u, rank, bound, ids, s).schema == CreateParents(u, rank, bound, ids[1..], first.schema).schema
            && CreateParents(u, rank, bound, ids, s).result.Ok? == CreateParents(u, rank, bound, ids[1..], first.schema).result.Ok?)
  {
  }

  lemma CreateParentsBuilds(u: Universe, rank: map<TypeId, nat>, bound: nat, ids: seq<TypeId>, s: Schema)
    requires WellFormed(u) && Ranked(u, rank, s)
    requires forall j | 0 <= j < |ids| :: ids[j] in u && IsDatabaseType(u[ids[j]]) && Measure(u, rank, s, ids[j]) < bound
    ensures Built(u, s, CreateParents(u, rank, bound, ids, s).schema, ReachAll(u, rank, s, bound, ids))
    decreases bound, 0, |ids|
  {
    if |ids| > 0 {
      var first := CreateInSchema(u, rank, ids[0], s);
      CreateBuilds(u, rank, ids[0], s);
      var r1 := Reach(u, rank, s, ids[0]);
      var r2 := ReachAll(u, rank, s, bound, ids[1..]);
      ParentsStepReach(u, rank, bound, ids, s);
      ParentsStepOutcome(u, rank, bound, ids, s);
      if first.result.Ok? {
        CreateParentsBuilds(u, rank, bound, ids[1..], first.schema);
        var rest := CreateParents(u, rank, bound, ids[1..], first.schema);
        BuiltWiden(u, first.schema, rest.schema, ReachAll(u, rank, first.schema, bound, ids[1..]), r2);
        BuiltCompose(u, s, first.schema, rest.schema, r1, r2);
      } else {
        BuiltWiden(u, s, first.schema, r1, r1 + r2);
      }
    }
  }

  // ---------------------------------------------------------------------------
  // When creation succeeds

  /** No reached type is an interface, and no two reached types share a
      class name. */
  predicate Creatable(u: Universe, r: set<TypeId>)
    requires forall p | p in r :: p in u && IsDatabaseType(u[p])
  {
    && (forall p | p in r :: u[p].superclass.Some?)
    && (forall p, q | p in r && q in r && Name(u, p) == Name(u, q) :: p == q)
  }

  /** Creation succeeds when every type it reaches has a superclass and the
      reached types' names are distinct. */
  lemma CreationSucceeds(u: Universe, rank: map<TypeId, nat>, id: TypeId, s: Schema)
    requires WellFormed(u) && id in u && IsDatabaseType(u[id]) && Ranked(u, rank, s)
    requires Creatable(u, Reach(u, rank, s, id))
    ensures CreateInSchema(u, rank, id, s).result == Ok(Name(u, id))
  {
    SucceedsWithin(u, rank, id, s, Reach(u, rank, s, id));
  }

  /** Success inside a fixed creatable set `r` of entity types. */
  lemma SucceedsWithin(u: Universe, rank: map<TypeId, nat>, id: TypeId, s: Schema, r: set<TypeId>)
    requires WellFormed(u) && id in u && IsDatabaseType(u[id]) && Ranked(u, rank, s)
    requires forall p | p in r :: p in u && IsDatabaseType(u[p])
    requires Creatable(u, r) && Reach(u, rank, s, id) <= r
    ensures CreateInSchema(u, rank, id, s).result == Ok(Name(u, id))
    decreases Measure(u, rank, s, id), 1
  {
    var name := Name(u, id);
    if name !in s {
      assert id in r;
      var parents := FindParentTypes(u, id).value;
      assert RankedAt(u, rank, s, id);
      var bound := Measure(u, rank, s, id);
      ReachUnfolds(u, rank, s, id);
      ParentsSucceedWithin(u, rank, bound, parents, s, r);
      NameStaysFree(u, rank, id, s, r);
      CreateResultUnfolds(u, rank, s, id);
    }
  }

  /** The outcome `createInSchema` returns for a missing class whose parents
      were all made while its name stayed free. */
  lemma CreateResultUnfolds(u: Universe, rank: map<TypeId, nat>, s: Schema, id: TypeId)
    requires WellFormed(u) && id in u && IsDatabaseType(u[id]) && Ranked(u, rank, s) && RankedAt(u, rank, s, id)
    requires Name(u, id) !in s && FindParentTypes(u, id).Ok?
    ensures var made := CreateParents(u, rank, Measure(u, rank, s, id), FindParentTypes(u, id).value, s);
      made.result.Ok? && Name(u, id) !in made.schema ==> CreateInSchema(u, rank, id, s).result == Ok(Name(u, id))
  {
  }

  /** Inside a creatable set, making the parents never takes the child's
      name: every class they add belongs to a reached type of smaller
      measure, and no other reached type shares the child's name. */
  lemma NameStaysFree(u: Universe, rank: map<TypeId, nat>, id: TypeId, s: Schema, r: set<TypeId>)
    requires WellFormed(u) && id in u && IsDatabaseType(u[id]) && Ranked(u, rank, s) && RankedAt(u, rank, s, id)
    requires Name(u, id) !in s && FindParentTypes(u, id).Ok?
    requires forall p | p in r :: p in u && IsDatabaseType(u[p])
    requires Creatable(u, r) && id in r
    requires ReachAll(u, rank, s, Measure(u, rank, s, id), FindParentTypes(u, id).value) <= r
    ensures Name(u, id) !in CreateParents(u, rank, Measure(u, rank, s, id), FindParentTypes(u, id).value, s).schema
  {
    var bound := Measure(u, rank, s, id);
    var parents := FindParentTypes(u, id).value;
    CreateParentsBuilds(u, rank, bound, parents, s);
    forall p | p in ReachAll(u, rank, s, bound, parents)
      ensures Name(u, p) != Name(u, id)
    {
      assert p in r && p != id;
    }
  }

  lemma ParentsSucceedWithin(u: Universe, rank: map<TypeId, nat>, bound: nat, ids: seq<TypeId>, s: Schema, r: set<TypeId>)
    requires WellFormed(u) && Ranked(u, rank, s)
    requires forall j | 0 <= j < |ids| :: ids[j] in u && IsDatabaseType(u[ids[j]]) && Measure(u, rank, s, ids[j]) < bound
    requires forall p | p in r :: p in u && IsDatabaseType(u[p])
    requires Creatable(u, r) && ReachAll(u, rank, s, bound, ids) <= r
    ensures CreateParents(u, rank, bound, ids, s).result.Ok?
    decreases bound, 0, |ids|
  {
    if |ids| > 0 {
      ParentsStepReach(u, rank, bound, ids, s);
      ParentsStepOutcome(u, rank, bound, ids, s);
      SucceedsWithin(u, rank, ids[0], s, r);
      ParentsSucceedWithin(u, rank, bound, ids[1..], CreateInSchema(u, rank, ids[0], s).schema, r);
    }
  }

  /** The contrapositive of `CreationSucceeds`: a failed creation reached an
      interface entity whose class was missing, or two reached entity types
      sharing a class name. */
  lemma CreationFailureExplained(u: Universe, rank: map<TypeId, nat>, id: TypeId, s: Schema)
    requires WellFormed(u) && id in u && IsDatabaseType(u[id]) && Ranked(u, rank, s)
    requires CreateInSchema(u, rank, id, s).result.Err?
    ensures var reach := Reach(u, rank, s, id);
      || (exists p | p in reach :: u[p].superclass.None?)
      || (exists p, q | p in reach && q in reach :: p != q && Name(u, p) == Name(u, q))
  {
    if Creatable(u, Reach(u, rank, s, id)) {
      CreationSucceeds(u, rank, id, s);
    }
  }

  // ---------------------------------------------------------------------------
  // Where creation cannot end

  /** A rank orders every missing parent strictly below its child. */
  lemma ParentRankedBelow(u: Universe, rank: map<TypeId, nat>, s: Schema, p: TypeId, q: TypeId)
    requires WellFormed(u) && Ranked(u, rank, s) && p in u && IsDatabaseType(u[p]) && Name(u, p) !in s
    requires FindParentTypes(u, p).Ok? && q in FindParentTypes(u, p).value && Name(u, q) !in s
    ensures p in rank && q in rank && rank[q] < rank[p]
  {
    assert RankedAt(u, rank, s, p);
  }

  /** A cycle of parents among missing entity classes admits no rank, so the
      model promises nothing for such a universe. The Java recursion
      overflows the stack on the cycle unless the creation of an earlier
      parent fails first. With `a == b` this is a type that is its own
      parent, as a self-referencing link field makes it. */
  lemma CycleHasNoRank(u: Universe, rank: map<TypeId, nat>, s: Schema, a: TypeId, b: TypeId)
    requires WellFormed(u) && a in u && b in u && IsDatabaseType(u[a]) && IsDatabaseType(u[b])
    requires Name(u, a) !in s && Name(u, b) !in s
    requires FindParentTypes(u, a).Ok? && b in FindParentTypes(u, a).value
    requires FindParentTypes(u, b).Ok? && a in FindParentTypes(u, b).value
    ensures !Ranked(u, rank, s)
  {
    if Ranked(u, rank, s) {
      ParentRankedBelow(u, rank, s, a, b);
      ParentRankedBelow(u, rank, s, b, a);
      assert false;
    }
  }

  /** Self reference: an entity whose only member is a LINK field targeting
      its own class (an `Employee.manager`), with a plain superclass and no
      interfaces, is its own only parent. While its class is missing no rank
      exists, matching the unbounded recursion of the Java code. */
  lemma SelfLinkIsOwnParent(u: Universe, id: TypeId, sup: TypeId, field: string, s: Schema)
    requires WellFormed(u) && id in u && sup in u && id != FieldClass
    requires IsDatabaseType(u[id]) && !IsDatabaseType(u[sup])
    requires u[id].superclass == Some(sup) && u[id].interfaces == [] && u[id].methods == []
    requires u[id].fields == [Element(FieldElement, field, Some(FieldAnnotation(None, Link, id, false)))]
    ensures FindParentTypes(u, id) == Ok([id])
    ensures Name(u, id) !in s ==> forall rank: map<TypeId, nat> :: !Ranked(u, rank, s)
  {
    var c := u[id];
    var e := c.fields[0];
    var t := ForField(e.annotation.value, field);
    assert Describe([]) == Ok([]);
    assert c.fields[1..] == [];
    assert GetNameType(e.annotation.value, e) == Ok(t);
    assert [t] + [] == [t];
    assert Describe(c.fields) == Ok([t]);
    assert Describe(c.methods) == Ok([]);
    assert [] + [t] == [t];
    assert CollectFields(c) == Ok([t]);
    assert [t][1..] == [];
    assert TargetParents(u, [t]) == [id];
    assert [sup][1..] == [];
    assert EntitiesAmong(u, [sup]) == [];
    ParentsInDeclarationOrder(u, id);
    assert [] + [] + [id] == [id];
    if Name(u, id) !in s {
      forall rank: map<TypeId, nat> ensures !Ranked(u, rank, s) {
        CycleHasNoRank(u, rank, s, id, id);
      }
    }
  }
}
