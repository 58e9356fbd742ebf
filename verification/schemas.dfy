/** The database schema as abstract state: class name to class, each class
    with its ordered parent names, its properties and its indexes. Stands in
    for OrientDB's `OSchema`, `OClass` and `OIndex`. */
module Schemas {
  import opened Outcomes
  import opened Exceptions
  import opened Annotations

  /** One schema class. `indexes` lists index names in creation order, as
      `getIndexes` would report them. */
  datatype SchemaClass = SchemaClass(parents: seq<string>, properties: map<string, OType>, indexes: seq<string>)

  type Schema = map<string, SchemaClass>

  /** A schema operation's result together with the schema it leaves behind;
      on failure that is whatever was created before the exception. */
  datatype Effect<+T> = Effect(schema: Schema, result: Result<T, Failure>)

  /** `s'` only adds to `s`: every class of `s` is still there, unchanged. */
  predicate Extends(s: Schema, s': Schema) {
    forall n | n in s :: n in s' && s'[n] == s[n]
  }

  /** A class as `createClass` mints it: no properties, no indexes. */
  predicate Bare(c: SchemaClass) {
    c.properties == map[] && c.indexes == []
  }

  /** Every class `s'` holds beyond `s` names only parents that exist in `s'`. */
  predicate ParentsPresent(s: Schema, s': Schema) {
    forall n | n in s' && n !in s :: forall q | q in s'[n].parents :: q in s'
  }

  /** Two steps that each add only classes whose parents exist together do
      the same. */
  lemma ParentsPresentCompose(s: Schema, s1: Schema, s2: Schema)
    requires Extends(s1, s2) && ParentsPresent(s, s1) && ParentsPresent(s1, s2)
    ensures ParentsPresent(s, s2)
  {
  }

  predicate NoDuplicates(xs: seq<string>) {
    forall i, j | 0 <= i < j < |xs| :: xs[i] != xs[j]
  }

  /** `OSchema.createClass(name, parents)`: OrientDB refuses a name already taken. */
  function CreateClass(s: Schema, name: string, parents: seq<string>): (r: Result<Schema, Failure>)
    ensures r.Err? <==> name in s
    ensures r.Err? ==> r.error == ClassAlreadyExists(name)
    ensures r.Ok? ==> Extends(s, r.value) && r.value.Keys == s.Keys + {name}
    ensures r.Ok? ==> r.value[name] == SchemaClass(parents, map[], [])
  {
    if name in s then Err(ClassAlreadyExists(name)) else Ok(s[name := SchemaClass(parents, map[], [])])
  }
}
