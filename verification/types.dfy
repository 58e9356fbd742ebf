/** `Type`: the descriptor of one Java class. It resolves the class's schema
    name, collects its field descriptors, finds its direct entity parents,
    creates it (parents first) in the schema, and adds its properties and
    unique indexes to a schema class. */
module Types {
  import opened Outcomes
  import opened Exceptions
  import opened Annotations
  import opened Reflection
  import opened NameTypes
  import opened Schemas

  // ---------------------------------------------------------------------------
  // Construction, getName and isDatabaseType

  /** `isDatabaseType`: the class carries the `@Entity` marker. */
  predicate IsDatabaseType(c: ClassInfo) {
    c.entity.Some?
  }

  /** The name the `Type` constructor settles on: the marker's name, or the
      simple class name when the marker's name was left at its default; no
      name at all (Java's null) without a marker. */
  function TypeName(c: ClassInfo): (r: Option<string>)
    ensures r.Some? <==> IsDatabaseType(c)
    ensures IsDatabaseType(c) && c.entity.value.name.Some? ==> r.value == c.entity.value.name.value
    ensures IsDatabaseType(c) && c.entity.value.name.None? ==> r.value == c.simpleName
  {
    match c.entity
    case None => None
    case Some(marker) => Some(marker.name.GetOr(c.simpleName))
  }

  /** The schema class name of an entity type. */
  function Name(u: Universe, id: TypeId): string
    requires id in u && IsDatabaseType(u[id])
  {
    TypeName(u[id]).value
  }

  /** The schema class names of a list of entity types, position by position. */
  function NamesOf(u: Universe, ids: seq<TypeId>): (r: seq<string>)
    requires forall j | 0 <= j < |ids| :: ids[j] in u && IsDatabaseType(u[ids[j]])
    ensures |r| == |ids| && forall j | 0 <= j < |ids| :: r[j] == Name(u, ids[j])
  {
    seq(|ids|, j requires 0 <= j < |ids| => Name(u, ids[j]))
  }

  // ---------------------------------------------------------------------------
  // collectFields, collectMethodFields, collectFieldFields, addFieldName

  /** The elements that carry an `@Field` annotation, in declaration order. */
  function Annotated(es: seq<Element>): (r: seq<Element>)
    ensures forall e | e in r :: e in es && e.annotation.Some?
  {
    if |es| == 0 then []
    else (if es[0].annotation.Some? then [es[0]] else []) + Annotated(es[1..])
  }

  lemma {:induction false} AnnotatedAppend(a: seq<Element>, b: seq<Element>)
    ensures Annotated(a + b) == Annotated(a) + Annotated(b)
  {
    if |a| == 0 {
      assert a + b == b;
    } else {
      assert (a + b)[0] == a[0];
      assert (a + b)[1..] == a[1..] + b;
      AnnotatedAppend(a[1..], b);
    }
  }

  /** `ts` are the descriptors of the annotated elements `es`, one for one. */
  predicate Describes(ts: seq<NameType>, es: seq<Element>) {
    && |ts| == |es|
    && forall i | 0 <= i < |ts| :: es[i].annotation.Some? && GetNameType(es[i].annotation.value, es[i]) == Ok(ts[i])
  }

  /** No annotated element is of a category `getNameType` refuses. */
  predicate Describable(es: seq<Element>) {
    forall e | e in es :: e.annotation.Some? ==> e.kind != OtherElement
  }

  /** `addFieldName` over a list of members: a descriptor for each annotated
      member, in order; unannotated members are skipped; the first refused
      member aborts the whole list. */
  function Describe(es: seq<Element>): (r: Result<seq<NameType>, Failure>)
    ensures r.Ok? <==> Describable(es)
    ensures r.Err? ==> r.error == UnsupportedFieldType
  {
    if |es| == 0 then Ok([])
    else
      DescribableStep(es);
      var rest := Describe(es[1..]);
      if es[0].annotation.None? then rest
      else
        var described := GetNameType(es[0].annotation.value, es[0]);
        if described.Err? || rest.Err? then Err(UnsupportedFieldType)
        else Ok([described.value] + rest.value)
  }

  lemma DescribableStep(es: seq<Element>)
    requires |es| > 0
    ensures Describable(es) <==>
      (es[0].annotation.Some? ==> es[0].kind != OtherElement) && Describable(es[1..])
  {
    assert es == [es[0]] + es[1..];
  }

  /** A successful `Describe` lists exactly one descriptor per annotated
      member, each the one `getNameType` gives for it. */
  lemma {:induction false} DescribeDescribes(es: seq<Element>)
    ensures Describe(es).Ok? ==> Describes(Describe(es).value, Annotated(es))
  {
    if |es| > 0 && Describe(es).Ok? {
      DescribeDescribes(es[1..]);
      if es[0].annotation.Some? {
        var t := GetNameType(es[0].annotation.value, es[0]).value;
        DescribesCons(t, Describe(es[1..]).value, es[0], Annotated(es[1..]));
      }
    }
  }

  lemma DescribesCons(t: NameType, ts: seq<NameType>, e: Element, es: seq<Element>)
    requires e.annotation.Some? && GetNameType(e.annotation.value, e) == Ok(t)
    requires Describes(ts, es)
    ensures Describes([t] + ts, [e] + es)
  {
  }

  /** `collectFields`: the descriptors of the annotated declared methods,
      followed by those of the annotated declared fields. */
  function CollectFields(c: ClassInfo): (r: Result<seq<NameType>, Failure>)
    ensures r.Ok? <==> Describable(c.methods) && Describable(c.fields)
    ensures r.Err? ==> r.error == UnsupportedFieldType
    ensures r.Ok? ==> Describes(r.value, Annotated(c.methods + c.fields))
  {
    match Describe(c.methods)
    case Err(f) => Err(f)
    case Ok(ms) =>
      match Describe(c.fields)
      case Err(f) => Err(f)
      case Ok(fs) =>
        DescribeDescribes(c.methods);
        DescribeDescribes(c.fields);
        AnnotatedAppend(c.methods, c.fields);
        Ok(ms + fs)
  }

  /** Reflection only lists methods among declared methods and fields among
      declared fields, so for a real class the `UnsupportedFieldType` branch
      of collection is never taken. */
  lemma WellKindedClassCollects(c: ClassInfo)
    requires forall e | e in c.methods :: e.kind == MethodElement
    requires forall e | e in c.fields :: e.kind == FieldElement
    ensures CollectFields(c).Ok?
  {
  }

  /** Every explicit target is a known descriptor-consistent class. */
  predicate TargetsKnown(u: Universe, ts: seq<NameType>) {
    forall t | t in ts :: Consistent(t) && (t.targetClass.Some? ==> t.targetClass.value in u)
  }

  lemma CollectedTargetsKnown(u: Universe, c: ClassInfo)
    requires ClassResolves(u, c)
    ensures CollectFields(c).Ok? ==> TargetsKnown(u, CollectFields(c).value)
  {
    if CollectFields(c).Ok? {
      var ts := CollectFields(c).value;
      var es := Annotated(c.methods + c.fields);
      forall t | t in ts
        ensures Consistent(t) && (t.targetClass.Some? ==> t.targetClass.value in u)
      {
        var i :| 0 <= i < |ts| && ts[i] == t;
        var e := es[i];
        assert e in c.methods + c.fields;
        assert e in c.methods || e in c.fields;
      }
    }
  }

  // ---------------------------------------------------------------------------
  // findParentTypes

  /** The entity types among `ids`, in order, duplicates kept. */
  function EntitiesAmong(u: Universe, ids: seq<TypeId>): (r: seq<TypeId>)
    requires forall j | 0 <= j < |ids| :: ids[j] in u
    ensures forall j | 0 <= j < |r| :: r[j] in u && IsDatabaseType(u[r[j]])
  {
    if |ids| == 0 then []
    else
      (if IsDatabaseType(u[ids[0]]) then [ids[0]] else []) + EntitiesAmong(u, ids[1..])
  }

  /** Filtering keeps every occurrence of an entity and drops every non-entity. */
  lemma {:induction false} EntitiesAmongKeepsDuplicates(u: Universe, ids: seq<TypeId>, p: TypeId)
    requires forall j | 0 <= j < |ids| :: ids[j] in u
    ensures multiset(EntitiesAmong(u, ids))[p] == if p in u && IsDatabaseType(u[p]) then multiset(ids)[p] else 0
  {
    if |ids| > 0 {
      assert ids == [ids[0]] + ids[1..];
      EntitiesAmongKeepsDuplicates(u, ids[1..], p);
    }
  }

  lemma {:induction false} EntitiesAmongAppend(u: Universe, a: seq<TypeId>, b: seq<TypeId>)
    requires forall j | 0 <= j < |a| :: a[j] in u
    requires forall j | 0 <= j < |b| :: b[j] in u
    ensures EntitiesAmong(u, a + b) == EntitiesAmong(u, a) + EntitiesAmong(u, b)
  {
    if |a| == 0 {
      assert a + b == b;
    } else {
      assert (a + b)[0] == a[0];
      assert (a + b)[1..] == a[1..] + b;
      EntitiesAmongAppend(u, a[1..], b);
    }
  }

  /** The explicit targets of the descriptors that declare one, in order. */
  function DeclaredTargets(ts: seq<NameType>): seq<TypeId>
    requires forall t | t in ts :: Consistent(t)
  {
    if |ts| == 0 then []
    else
      assert ts[0] in ts && Consistent(ts[0]);
      (if ts[0].requiresTargetClass then [ts[0].targetClass.value] else []) + DeclaredTargets(ts[1..])
  }

  /** The field-target part of `findParentTypes`: the declared targets up to,
      not including, the first that is not an entity (where the loop throws
      and the exception is swallowed). */
  function TargetParents(u: Universe, ts: seq<NameType>): (r: seq<TypeId>)
    requires TargetsKnown(u, ts)
    ensures r <= DeclaredTargets(ts)
    ensures forall j | 0 <= j < |r| :: r[j] in u && IsDatabaseType(u[r[j]])
    ensures |r| < |DeclaredTargets(ts)| ==>
      DeclaredTargets(ts)[|r|] in u && !IsDatabaseType(u[DeclaredTargets(ts)[|r|]])
  {
    if |ts| == 0 then []
    else
      assert ts[0] in ts;
      if ts[0].requiresTargetClass then
        var target := ts[0].targetClass.value;
        assert DeclaredTargets(ts) == [target] + DeclaredTargets(ts[1..]);
        if IsDatabaseType(u[target]) then [target] + TargetParents(u, ts[1..]) else []
      else
        assert DeclaredTargets(ts) == DeclaredTargets(ts[1..]);
        TargetParents(u, ts[1..])
  }

  /** `findParentTypes`: the superclass if it is an entity, then the entity
      interfaces, then the entity targets of explicit-target fields. A null
      superclass (an interface) fails when the `Type` is built; a failure to
      collect fields only drops the field-target part. */
  function FindParentTypes(u: Universe, id: TypeId): (r: Result<seq<TypeId>, Failure>)
    requires WellFormed(u) && id in u
    ensures r.Err? <==> u[id].superclass.None?
    ensures r.Err? ==> r.error == NullPointer
    ensures r.Ok? ==> forall j | 0 <= j < |r.value| :: r.value[j] in u && IsDatabaseType(u[r.value[j]])
  {
    var c := u[id];
    match c.superclass
    case None => Err(NullPointer)
    case Some(sup) =>
      var direct := EntitiesAmong(u, [sup] + c.interfaces);
      match CollectFields(c)
      case Err(_) => Ok(direct)
      case Ok(ts) =>
        CollectedTargetsKnown(u, c);
        Ok(direct + TargetParents(u, ts))
  }

  /** The field-target parents `findParentTypes` contributes for class `c`. */
  function FieldTargetParents(u: Universe, c: ClassInfo): seq<TypeId>
    requires ClassResolves(u, c)
  {
    match CollectFields(c)
    case Err(_) => []
    case Ok(ts) =>
      CollectedTargetsKnown(u, c);
      TargetParents(u, ts)
  }

  /** Parents come in declaration order: superclass, then interfaces, then field targets. */
  lemma ParentsInDeclarationOrder(u: Universe, id: TypeId)
    requires WellFormed(u) && id in u && u[id].superclass.Some?
    ensures FindParentTypes(u, id) ==
      Ok(EntitiesAmong(u, [u[id].superclass.value]) + EntitiesAmong(u, u[id].interfaces) + FieldTargetParents(u, u[id]))
  {
    var c := u[id];
    EntitiesAmongAppend(u, [c.superclass.value], c.interfaces);
    var direct := EntitiesAmong(u, [c.superclass.value] + c.interfaces);
    match CollectFields(c)
    case Err(_) =>
      assert FindParentTypes(u, id) == Ok(direct);
      assert FieldTargetParents(u, c) == [];
      assert direct + [] == direct;
    case Ok(ts) =>
      CollectedTargetsKnown(u, c);
      assert FindParentTypes(u, id) == Ok(direct + TargetParents(u, ts));
  }

  /** Only direct ancestors are examined: every parent is the superclass, one
      of the directly implemented interfaces, or the declared target of one of
      the class's own annotated members. */
  lemma ParentsAreDirect(u: Universe, id: TypeId)
    requires WellFormed(u) && id in u
    ensures FindParentTypes(u, id).Ok? ==>
      forall p | p in FindParentTypes(u, id).value ::
        || Some(p) == u[id].superclass
        || p in u[id].interfaces
        || (CollectFields(u[id]).Ok? && p in DeclaredTargets(CollectFields(u[id]).value))
  {
    var c := u[id];
    if FindParentTypes(u, id).Ok? {
      var sup := c.superclass.value;
      var direct := EntitiesAmong(u, [sup] + c.interfaces);
      forall p | p in FindParentTypes(u, id).value
        ensures || Some(p) == c.superclass
                || p in c.interfaces
                || (CollectFields(c).Ok? && p in DeclaredTargets(CollectFields(c).value))
      {
        if p in direct {
          EntitiesAmongKeepsDuplicates(u, [sup] + c.interfaces, p);
          assert multiset(direct)[p] > 0;
          assert p in [sup] + c.interfaces;
        } else {
          CollectedTargetsKnown(u, c);
          var ts := CollectFields(c).value;
          assert p in TargetParents(u, ts);
          var j :| 0 <= j < |TargetParents(u, ts)| && TargetParents(u, ts)[j] == p;
          assert DeclaredTargets(ts)[j] == p;
        }
      }
    }
  }

  // ---------------------------------------------------------------------------
  // createInSchema

  /** Creation from `id` in schema `s` descends only along entity parents
      whose class is still missing, and `rank` strictly decreases along each
      such edge. */
  predicate RankedAt(u: Universe, rank: map<TypeId, nat>, s: Schema, id: TypeId)
    requires WellFormed(u) && id in u && IsDatabaseType(u[id])
  {
    && id in rank
    && match FindParentTypes(u, id)
       case Err(_) => true
       case Ok(ps) =>
         forall j | 0 <= j < |ps| :: Name(u, ps[j]) !in s ==> ps[j] in rank && rank[ps[j]] < rank[id]
  }

  /** The parent graph restricted to entity types whose class is not yet in
      `s` is acyclic, as witnessed by `rank`. */
  predicate Ranked(u: Universe, rank: map<TypeId, nat>, s: Schema)
    requires WellFormed(u)
  {
    forall id {:trigger RankedAt(u, rank, s, id)} | id in u && IsDatabaseType(u[id]) && Name(u, id) !in s :: RankedAt(u, rank, s, id)
  }

  /** Adding classes to the schema only removes obligations from `Ranked`. */
  lemma RankedGrows(u: Universe, rank: map<TypeId, nat>, s: Schema, s': Schema)
    requires WellFormed(u) && Ranked(u, rank, s) && s.Keys <= s'.Keys
    ensures Ranked(u, rank, s')
  {
    forall id | id in u && IsDatabaseType(u[id]) && Name(u, id) !in s'
      ensures RankedAt(u, rank, s', id)
    {
      assert RankedAt(u, rank, s, id);
    }
  }

  /** The termination measure of creation: zero once the class exists. */
  function Measure(u: Universe, rank: map<TypeId, nat>, s: Schema, id: TypeId): nat
    requires WellFormed(u) && id in u && IsDatabaseType(u[id]) && Ranked(u, rank, s)
  {
    if Name(u, id) in s then 0
    else
      assert RankedAt(u, rank, s, id);
      rank[id] + 1
  }

  /** `createInSchema`: an existing class of this name is returned untouched;
      otherwise every parent is created first, in order, and then one bare
      class with those parents. */
  function CreateInSchema(u: Universe, rank: map<TypeId, nat>, id: TypeId, s: Schema): (r: Effect<string>)
    requires WellFormed(u) && id in u && IsDatabaseType(u[id]) && Ranked(u, rank, s)
    ensures Extends(s, r.schema)
    ensures forall n | n in r.schema && n !in s :: Bare(r.schema[n])
    ensures ParentsPresent(s, r.schema)
    ensures Name(u, id) in s ==> r == Effect(s, Ok(Name(u, id)))
    ensures Name(u, id) !in s && u[id].superclass.None? ==> r == Effect(s, Err(NullPointer))
    ensures r.result.Ok? ==> r.result.value == Name(u, id) && Name(u, id) in r.schema
    ensures r.result.Ok? && Name(u, id) !in s ==>
      && FindParentTypes(u, id).Ok?
      && r.schema[Name(u, id)].parents == NamesOf(u, FindParentTypes(u, id).value)
      && forall n | n in r.schema[Name(u, id)].parents :: n in r.schema
    decreases Measure(u, rank, s, id), 1, 0
  {
    var name := Name(u, id);
    if name in s then Effect(s, Ok(name))
    else
      match FindParentTypes(u, id)
      case Err(f) => Effect(s, Err(f))
      case Ok(parents) =>
        assert RankedAt(u, rank, s, id);
        var made := CreateParents(u, rank, Measure(u, rank, s, id), parents, s);
        match made.result
        case Err(f) => Effect(made.schema, Err(f))
        case Ok(parentNames) =>
          match CreateClass(made.schema, name, parentNames)
          case Err(f) => Effect(made.schema, Err(f))
          case Ok(s') =>
            ClassCreatedLast(s, made.schema, name, parentNames, s');
            Effect(s', Ok(name))
  }

  /** The last step of creation: the class minted after its parents keeps
      every earlier guarantee and names only classes that exist. */
  lemma ClassCreatedLast(s: Schema, m: Schema, name: string, parentNames: seq<string>, s': Schema)
    requires Extends(s, m) && forall n | n in m && n !in s :: Bare(m[n])
    requires ParentsPresent(s, m)
    requires name !in s && forall n | n in parentNames :: n in m
    requires CreateClass(m, name, parentNames) == Ok(s')
    ensures Extends(s, s') && forall n | n in s' && n !in s :: Bare(s'[n])
    ensures ParentsPresent(s, s')
    ensures name in s' && s'[name].parents == parentNames
    ensures forall n | n in s'[name].parents :: n in s'
  {
  }

  /** The loop over the parents of `createInSchema`, threading the schema:
      each parent is created in the schema its predecessors left behind. */
  function CreateParents(u: Universe, rank: map<TypeId, nat>, bound: nat, ids: seq<TypeId>, s: Schema): (r: Effect<seq<string>>)
    requires WellFormed(u) && Ranked(u, rank, s)
    requires forall j | 0 <= j < |ids| :: ids[j] in u && IsDatabaseType(u[ids[j]]) && Measure(u, rank, s, ids[j]) < bound
    ensures Extends(s, r.schema)
    ensures forall n | n in r.schema && n !in s :: Bare(r.schema[n])
    ensures ParentsPresent(s, r.schema)
    ensures r.result.Ok? ==> r.result.value == NamesOf(u, ids)
    ensures r.result.Ok? ==> forall n | n in r.result.value :: n in r.schema
    decreases bound, 0, |ids|
  {
    if |ids| == 0 then Effect(s, Ok([]))
    else
      var first := CreateInSchema(u, rank, ids[0], s);
      match first.result
      case Err(f) => Effect(first.schema, Err(f))
      case Ok(n) =>
        MeasureShrinks(u, rank, s, first.schema, ids[1..]);
        var rest := CreateParents(u, rank, bound, ids[1..], first.schema);
        OnlyBareAdded(s, first.schema, rest.schema);
        ParentsPresentCompose(s, first.schema, rest.schema);
        match rest.result
        case Err(f) => Effect(rest.schema, Err(f))
        case Ok(ns) =>
          NamesOfStep(u, ids);
          Effect(rest.schema, Ok([n] + ns))
  }

  /** Two steps that each keep existing classes and add only bare ones
      together do the same. */
  lemma OnlyBareAdded(s: Schema, s1: Schema, s2: Schema)
    requires Extends(s, s1) && forall n | n in s1 && n !in s :: Bare(s1[n])
    requires Extends(s1, s2) && forall n | n in s2 && n !in s1 :: Bare(s2[n])
    ensures Extends(s, s2) && forall n | n in s2 && n !in s :: Bare(s2[n])
  {
  }

  /** After classes are added, `Ranked` still holds and no type's measure grows. */
  lemma MeasureShrinks(u: Universe, rank: map<TypeId, nat>, s: Schema, s': Schema, ids: seq<TypeId>)
    requires WellFormed(u) && Ranked(u, rank, s) && Extends(s, s')
    requires forall j | 0 <= j < |ids| :: ids[j] in u && IsDatabaseType(u[ids[j]])
    ensures Ranked(u, rank, s')
    ensures forall j | 0 <= j < |ids| :: Measure(u, rank, s', ids[j]) <= Measure(u, rank, s, ids[j])
  {
    RankedGrows(u, rank, s, s');
  }

  lemma NamesOfStep(u: Universe, ids: seq<TypeId>)
    requires |ids| > 0
    requires forall j | 0 <= j < |ids| :: ids[j] in u && IsDatabaseType(u[ids[j]])
    ensures NamesOf(u, ids) == [Name(u, ids[0])] + NamesOf(u, ids[1..])
  {
  }

  /** Creating twice is creating once: the second call finds the class and
      changes nothing. */
  lemma CreateIdempotent(u: Universe, rank: map<TypeId, nat>, id: TypeId, s: Schema)
    requires WellFormed(u) && id in u && IsDatabaseType(u[id]) && Ranked(u, rank, s)
    requires CreateInSchema(u, rank, id, s).result.Ok?
    ensures Ranked(u, rank, CreateInSchema(u, rank, id, s).schema)
    ensures var s' := CreateInSchema(u, rank, id, s).schema;
      CreateInSchema(u, rank, id, s') == Effect(s', Ok(Name(u, id)))
  {
    RankedGrows(u, rank, s, CreateInSchema(u, rank, id, s).schema);
  }

  // ---------------------------------------------------------------------------
  // hasIndex and configureFields

  /** `hasIndex`: a scan of the class's indexes for one of exactly this name. */
  function HasIndex(indexName: string, indexes: seq<string>): (b: bool)
    ensures b <==> indexName in indexes
  {
    if |indexes| == 0 then false
    else
      assert indexes == [indexes[0]] + indexes[1..];
      indexes[0] == indexName || HasIndex(indexName, indexes[1..])
  }

  /** The property names of `ts`, in order. */
  function FieldNames(ts: seq<NameType>): seq<string> {
    if |ts| == 0 then [] else [ts[0].name] + FieldNames(ts[1..])
  }

  /** The property names of the unique descriptors of `ts`, in order. */
  function UniqueNames(ts: seq<NameType>): seq<string> {
    if |ts| == 0 then [] else (if ts[0].unique then [ts[0].name] else []) + UniqueNames(ts[1..])
  }

  /** The kind of the first descriptor named `n`. */
  function FirstKind(ts: seq<NameType>, n: string): OType
    requires n in FieldNames(ts)
  {
    if ts[0].name == n then ts[0].kind else FirstKind(ts[1..], n)
  }

  /** `cls` already has everything `ts` asks for. */
  predicate Configured(cls: SchemaClass, ts: seq<NameType>) {
    forall t | t in ts :: t.name in cls.properties && (t.unique ==> t.name in cls.indexes)
  }

  /** One iteration of the `configureFields` loop: a missing property is
      created with the descriptor's kind; a unique descriptor gets an index
      of its name unless one exists. */
  function ConfigureField(cls: SchemaClass, t: NameType): (r: SchemaClass)
    ensures r.parents == cls.parents
    ensures forall n :: n in r.properties <==> n in cls.properties || n == t.name
    ensures forall n | n in cls.properties :: r.properties[n] == cls.properties[n]
    ensures t.name !in cls.properties ==> r.properties[t.name] == t.kind
    ensures r.indexes == if t.unique && t.name !in cls.indexes then cls.indexes + [t.name] else cls.indexes
  {
    var withProperty :=
      if t.name in cls.properties then cls
      else cls.(properties := cls.properties[t.name := t.kind]);
    if t.unique && !HasIndex(t.name, withProperty.indexes) then
      withProperty.(indexes := withProperty.indexes + [t.name])
    else
      withProperty
  }

  /** The `configureFields` loop over all descriptors. */
  function ConfigureAll(cls: SchemaClass, ts: seq<NameType>): (r: SchemaClass)
    ensures r.parents == cls.parents
    ensures forall n | n in cls.properties :: n in r.properties && r.properties[n] == cls.properties[n]
    ensures forall n :: n in r.properties <==> n in cls.properties || n in FieldNames(ts)
    ensures forall n | n in r.properties && n !in cls.properties :: n in FieldNames(ts) && r.properties[n] == FirstKind(ts, n)
    ensures |cls.indexes| <= |r.indexes| && r.indexes[..|cls.indexes|] == cls.indexes
    ensures forall n :: n in r.indexes <==> n in cls.indexes || n in UniqueNames(ts)
    ensures NoDuplicates(cls.indexes) ==> NoDuplicates(r.indexes)
    decreases |ts|
  {
    if |ts| == 0 then cls
    else ConfigureAll(ConfigureField(cls, ts[0]), ts[1..])
  }

  /** `configureFields`: adds a property for every collected descriptor and a
      unique index for every unique one, never touching what exists; a class
      whose fields cannot be collected is left as it is. */
  function ConfigureFields(c: ClassInfo, cls: SchemaClass): (r: SchemaClass)
    ensures CollectFields(c).Err? ==> r == cls
    ensures r.parents == cls.parents
    ensures forall n | n in cls.properties :: n in r.properties && r.properties[n] == cls.properties[n]
    ensures |cls.indexes| <= |r.indexes| && r.indexes[..|cls.indexes|] == cls.indexes
    ensures NoDuplicates(cls.indexes) ==> NoDuplicates(r.indexes)
    ensures CollectFields(c).Ok? ==> Configured(r, CollectFields(c).value)
    ensures CollectFields(c).Ok? ==> forall n ::
      && (n in r.properties <==> n in cls.properties || n in FieldNames(CollectFields(c).value))
      && (n in r.indexes <==> n in cls.indexes || n in UniqueNames(CollectFields(c).value))
    ensures CollectFields(c).Ok? ==> forall n | n in r.properties && n !in cls.properties ::
      n in FieldNames(CollectFields(c).value) && r.properties[n] == FirstKind(CollectFields(c).value, n)
  {
    match CollectFields(c)
    case Err(_) => cls
    case Ok(ts) =>
      var r := ConfigureAll(cls, ts);
      forall t | t in ts ensures t.name in r.properties && (t.unique ==> t.name in r.indexes) {
        NamesCover(ts, t);
      }
      r
  }

  lemma {:induction false} NamesCover(ts: seq<NameType>, t: NameType)
    requires t in ts
    ensures t.name in FieldNames(ts)
    ensures t.unique ==> t.name in UniqueNames(ts)
  {
    if ts[0] != t {
      NamesCover(ts[1..], t);
    }
  }

  /** A class that already has everything the descriptors ask for is left unchanged. */
  lemma {:induction false} ConfiguredIsFixedPoint(cls: SchemaClass, ts: seq<NameType>)
    requires Configured(cls, ts)
    ensures ConfigureAll(cls, ts) == cls
    decreases |ts|
  {
    if |ts| > 0 {
      assert ts[0] in ts;
      assert ConfigureField(cls, ts[0]) == cls;
      ConfiguredIsFixedPoint(cls, ts[1..]);
    }
  }

  /** Configuring twice is configuring once. */
  lemma ConfigureFieldsIdempotent(c: ClassInfo, cls: SchemaClass)
    ensures ConfigureFields(c, ConfigureFields(c, cls)) == ConfigureFields(c, cls)
  {
    if CollectFields(c).Ok? {
      ConfiguredIsFixedPoint(ConfigureFields(c, cls), CollectFields(c).value);
    }
  }
}
