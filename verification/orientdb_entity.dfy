/** `OrientDBEntity`: the two entry points callers use — fetch (optionally
    creating) the schema class of a type, and configure a class's properties
    from a type. */
module OrientDBEntity {
  import opened Outcomes
  import opened Exceptions
  import opened Annotations
  import opened Reflection
  import opened Schemas
  import opened Types

  /** `getOType`: refuses a type without `@Entity`; otherwise looks its class
      up by name and, when asked to and the class is missing, creates it. The
      result is the class name, or `None` (Java's null) when the class is
      missing and creation was not asked for. */
  function GetOType(u: Universe, rank: map<TypeId, nat>, id: TypeId, s: Schema, createIfNotFound: bool): (r: Effect<Option<string>>)
    requires id in u
    requires createIfNotFound ==> WellFormed(u) && Ranked(u, rank, s)
    ensures !IsDatabaseType(u[id]) ==> r == Effect(s, Err(InvalidType))
    ensures IsDatabaseType(u[id]) && Name(u, id) in s ==> r == Effect(s, Ok(Some(Name(u, id))))
    ensures !createIfNotFound ==> r.schema == s
    ensures !createIfNotFound && IsDatabaseType(u[id]) && Name(u, id) !in s ==> r.result == Ok(None)
    ensures createIfNotFound ==> Extends(s, r.schema)
    ensures createIfNotFound && r.result.Ok? ==> r.result.value == Some(Name(u, id)) && Name(u, id) in r.schema
    ensures createIfNotFound && IsDatabaseType(u[id]) && Name(u, id) !in s ==>
      && r.schema == CreateInSchema(u, rank, id, s).schema
      && r.result == match CreateInSchema(u, rank, id, s).result
                     case Ok(n) => Ok(Some(n))
                     case Err(f) => Err(f)
  {
    var cls := u[id];
    if !IsDatabaseType(cls) then Effect(s, Err(InvalidType))
    else
      var name := Name(u, id);
      if name in s then Effect(s, Ok(Some(name)))
      else if !createIfNotFound then Effect(s, Ok(None))
      else
        var created := CreateInSchema(u, rank, id, s);
        match created.result
        case Err(f) => Effect(created.schema, Err(f))
        case Ok(n) => Effect(created.schema, Ok(Some(n)))
  }

  /** Once `getOType` has created a class, asking again — with or without the
      create flag — returns the same class and changes nothing. */
  lemma GetOTypeIdempotent(u: Universe, rank: map<TypeId, nat>, id: TypeId, s: Schema, again: bool)
    requires WellFormed(u) && id in u && Ranked(u, rank, s)
    requires GetOType(u, rank, id, s, true).result.Ok?
    ensures var s' := GetOType(u, rank, id, s, true).schema;
      && Ranked(u, rank, s')
      && GetOType(u, rank, id, s', again) == Effect(s', GetOType(u, rank, id, s, true).result)
  {
    var s' := GetOType(u, rank, id, s, true).schema;
    RankedGrows(u, rank, s, s');
  }

  /** `configureBaseFields(cls, schema)`: refuses a non-entity or a class
      not yet in the schema, never creates one, and otherwise applies
      `configureFields` to the class found. */
  function ConfigureBaseFields(u: Universe, id: TypeId, s: Schema): (r: Result<Schema, Failure>)
    requires id in u
    ensures r.Err? <==> !IsDatabaseType(u[id]) || Name(u, id) !in s
    ensures r.Err? ==> r.error == InvalidType
    ensures r.Ok? ==> r.value.Keys == s.Keys
    ensures r.Ok? ==> forall n | n in s && n != Name(u, id) :: r.value[n] == s[n]
    ensures r.Ok? ==> r.value[Name(u, id)] == ConfigureFields(u[id], s[Name(u, id)])
  {
    var found := GetOType(u, map[], id, s, false);
    match found.result
    case Err(f) => Err(f)
    case Ok(None) => Err(InvalidType)
    case Ok(Some(name)) => Ok(s[name := ConfigureClass(u, id, s[name])])
  }

  /** `configureBaseFields(cls, oClass)`: no `@Entity` check, only
      `configureFields` on the class given. */
  function ConfigureClass(u: Universe, id: TypeId, cls: SchemaClass): (r: SchemaClass)
    requires id in u
    ensures CollectFields(u[id]).Err? ==> r == cls
    ensures r.parents == cls.parents
    ensures forall n | n in cls.properties :: n in r.properties && r.properties[n] == cls.properties[n]
    ensures |cls.indexes| <= |r.indexes| && r.indexes[..|cls.indexes|] == cls.indexes
    ensures NoDuplicates(cls.indexes) ==> NoDuplicates(r.indexes)
    ensures CollectFields(u[id]).Ok? ==> Configured(r, CollectFields(u[id]).value)
    ensures CollectFields(u[id]).Ok? ==> forall n ::
      && (n in r.properties <==> n in cls.properties || n in FieldNames(CollectFields(u[id]).value))
      && (n in r.indexes <==> n in cls.indexes || n in UniqueNames(CollectFields(u[id]).value))
    ensures CollectFields(u[id]).Ok? ==> forall n | n in r.properties && n !in cls.properties ::
      n in FieldNames(CollectFields(u[id]).value) && r.properties[n] == FirstKind(CollectFields(u[id]).value, n)
  {
    ConfigureFields(u[id], cls)
  }

  /** The class overload skips the `@Entity` check: a plain class's fields
      are still configured into any class handed over, while the schema
      overload refuses the same type. */
  lemma ClassOverloadSkipsEntityCheck(u: Universe, id: TypeId, s: Schema, cls: SchemaClass)
    requires id in u && !IsDatabaseType(u[id]) && CollectFields(u[id]).Ok?
    ensures ConfigureBaseFields(u, id, s) == Err(InvalidType)
    ensures Configured(ConfigureClass(u, id, cls), CollectFields(u[id]).value)
  {
  }

  /** For an entity whose class exists, the schema overload is the class
      overload applied to the class it finds. */
  lemma OverloadsAgree(u: Universe, id: TypeId, s: Schema)
    requires id in u && IsDatabaseType(u[id]) && Name(u, id) in s
    ensures ConfigureBaseFields(u, id, s) == Ok(s[Name(u, id) := ConfigureClass(u, id, s[Name(u, id)])])
  {
  }

  /** Two entity types that declare the same name share one schema class:
      once either is created, asking for the other with the create flag
      returns that class and changes nothing. */
  lemma SharedNameSharesClass(u: Universe, rank: map<TypeId, nat>, id: TypeId, other: TypeId, s: Schema)
    requires WellFormed(u) && id in u && other in u && Ranked(u, rank, s)
    requires IsDatabaseType(u[id]) && IsDatabaseType(u[other]) && Name(u, id) == Name(u, other)
    requires GetOType(u, rank, id, s, true).result.Ok?
    ensures var s' := GetOType(u, rank, id, s, true).schema;
      && Ranked(u, rank, s')
      && GetOType(u, rank, other, s', true) == Effect(s', Ok(Some(Name(u, id))))
  {
    RankedGrows(u, rank, s, GetOType(u, rank, id, s, true).schema);
  }

  /** The documented workflow — `getOType` with creation, then
      `configureBaseFields` on the class it returns — leaves a class that
      carries every collected property and unique index, and configuring it
      again changes nothing. */
  lemma CreateThenConfigure(u: Universe, rank: map<TypeId, nat>, id: TypeId, s: Schema)
    requires WellFormed(u) && id in u && Ranked(u, rank, s)
    requires GetOType(u, rank, id, s, true).result.Ok?
    requires CollectFields(u[id]).Ok?
    ensures var created := GetOType(u, rank, id, s, true);
      && created.result.value.Some?
      && created.result.value.value in created.schema
      && var cls := ConfigureClass(u, id, created.schema[created.result.value.value]);
      && Configured(cls, CollectFields(u[id]).value)
      && ConfigureClass(u, id, cls) == cls
  {
    var created := GetOType(u, rank, id, s, true);
    var cls := ConfigureClass(u, id, created.schema[created.result.value.value]);
    ConfigureFieldsIdempotent(u[id], created.schema[created.result.value.value]);
  }
}
