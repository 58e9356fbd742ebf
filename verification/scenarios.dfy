/** Laws about class hierarchies of a given shape that exercise the engine's
    sharp edges: the ancestry gap, multiple inheritance through interfaces,
    the interface crash, and default naming. */
module Scenarios {
  import opened Outcomes
  import opened Exceptions
  import opened Annotations
  import opened Reflection
  import opened NameTypes
  import opened Schemas
  import opened Types

  /** A class without declared members contributes no descriptors and no
      field-target parents. */
  lemma NoMembers(u: Universe, c: ClassInfo)
    requires c.methods == [] && c.fields == [] && ClassResolves(u, c)
    ensures CollectFields(c) == Ok([])
    ensures FieldTargetParents(u, c) == []
  {
    assert Describe([]) == Ok([]);
  }

  /** Ancestry gap: entity `c` extends plain `b`, which extends entity `a`.
      Without interfaces or members, `c` has no parents at all, while `b`'s
      only parent is `a`. */
  lemma AncestryGap(u: Universe, a: TypeId, b: TypeId, c: TypeId)
    requires WellFormed(u) && a in u && b in u && c in u
    requires IsDatabaseType(u[a]) && !IsDatabaseType(u[b]) && IsDatabaseType(u[c])
    requires u[c].superclass == Some(b) && u[b].superclass == Some(a)
    requires u[b].interfaces == [] && u[c].interfaces == []
    requires u[b].methods == u[b].fields == u[c].methods == u[c].fields == []
    ensures FindParentTypes(u, c) == Ok([])
    ensures FindParentTypes(u, b) == Ok([a])
  {
    NoMembers(u, u[b]);
    NoMembers(u, u[c]);
    assert [b][1..] == [] && [a][1..] == [];
    assert EntitiesAmong(u, [b]) == [];
    assert EntitiesAmong(u, [a]) == [a];
    ParentsInDeclarationOrder(u, c);
    ParentsInDeclarationOrder(u, b);
    assert [a] + [] + [] == [a];
  }

  /** Multiple inheritance: entity `d` extends plain `g` and implements entity
      interfaces `e` and `f`. Without members, its parents are exactly `e`
      then `f`. */
  lemma MultipleInheritance(u: Universe, d: TypeId, g: TypeId, e: TypeId, f: TypeId)
    requires WellFormed(u) && d in u && g in u && e in u && f in u
    requires IsDatabaseType(u[d]) && !IsDatabaseType(u[g]) && IsDatabaseType(u[e]) && IsDatabaseType(u[f])
    requires u[d].superclass == Some(g) && u[d].interfaces == [e, f]
    requires u[d].methods == u[d].fields == []
    ensures FindParentTypes(u, d) == Ok([e, f])
  {
    NoMembers(u, u[d]);
    assert [g][1..] == [] && [e, f][1..] == [f] && [f][1..] == [];
    assert EntitiesAmong(u, [g]) == [];
    assert EntitiesAmong(u, [f]) == [f];
    assert EntitiesAmong(u, [e, f]) == [e, f];
    ParentsInDeclarationOrder(u, d);
    assert [] + [e, f] + [] == [e, f];
  }

  /** A missing interface as first parent aborts creation: the interface's
      null superclass fails inside the recursive call, and nothing is added. */
  lemma InterfaceParentCrashes(u: Universe, rank: map<TypeId, nat>, d: TypeId, s: Schema)
    requires WellFormed(u) && d in u && IsDatabaseType(u[d]) && Ranked(u, rank, s)
    requires Name(u, d) !in s
    requires FindParentTypes(u, d).Ok? && |FindParentTypes(u, d).value| > 0
    requires var e := FindParentTypes(u, d).value[0]; u[e].superclass.None? && Name(u, e) !in s
    ensures CreateInSchema(u, rank, d, s) == Effect(s, Err(NullPointer))
  {
    var ps := FindParentTypes(u, d).value;
    assert RankedAt(u, rank, s, d);
    assert CreateInSchema(u, rank, ps[0], s) == Effect(s, Err(NullPointer));
  }

  /** When every parent's class already exists, creation adds exactly one
      class, whose parents are the parents' names in order. */
  lemma ParentsPresentAddsOneClass(u: Universe, rank: map<TypeId, nat>, d: TypeId, s: Schema)
    requires WellFormed(u) && d in u && IsDatabaseType(u[d]) && Ranked(u, rank, s)
    requires Name(u, d) !in s
    requires FindParentTypes(u, d).Ok?
    requires forall p | p in FindParentTypes(u, d).value :: Name(u, p) in s
    ensures CreateInSchema(u, rank, d, s) ==
      Effect(s[Name(u, d) := SchemaClass(NamesOf(u, FindParentTypes(u, d).value), map[], [])], Ok(Name(u, d)))
  {
    var ps := FindParentTypes(u, d).value;
    assert RankedAt(u, rank, s, d);
    ExistingParentsChangeNothing(u, rank, Measure(u, rank, s, d), ps, s);
  }

  lemma {:induction false} ExistingParentsChangeNothing(u: Universe, rank: map<TypeId, nat>, bound: nat, ids: seq<TypeId>, s: Schema)
    requires WellFormed(u) && Ranked(u, rank, s)
    requires forall j | 0 <= j < |ids| :: ids[j] in u && IsDatabaseType(u[ids[j]]) && Measure(u, rank, s, ids[j]) < bound
    requires forall j | 0 <= j < |ids| :: Name(u, ids[j]) in s
    ensures CreateParents(u, rank, bound, ids, s) == Effect(s, Ok(NamesOf(u, ids)))
    decreases |ids|
  {
    if |ids| > 0 {
      assert CreateInSchema(u, rank, ids[0], s) == Effect(s, Ok(Name(u, ids[0])));
      ExistingParentsChangeNothing(u, rank, bound, ids[1..], s);
      NamesOfStep(u, ids);
    }
  }

  /** The default-naming law, as the code applies it. */
  lemma DefaultNaming()
    ensures ForMethod(Declare(BareField), "getHomeAddress").name == "homeAddress"
    ensures ForField(Declare(BareField), "email").name == "email"
    ensures ForMethod(Declare(BareField.(name := Some("address"))), "getHomeAddress").name == "address"
    ensures ForMethod(Declare(BareField), "get").name == ""
    ensures ForMethod(Declare(BareField), "setName").name == ""
  {
    assert "get" <= "getHomeAddress";
    assert "getHomeAddress"[4..] == "omeAddress";
    assert !("get" <= "setName") by { assert "setName"[0] == 's'; }
  }

  /** A LINK field declared without a target is not flagged as needing one. */
  lemma LinkWithoutTarget()
    ensures !ForField(Declare(BareField.(kind := Some(Link))), "owner").requiresTargetClass
    ensures ForField(Declare(BareField.(kind := Some(Link))), "owner").targetClass == None
  {
  }
}
