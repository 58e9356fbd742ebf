/** The `@Field` and `@Entity` annotations and the OrientDB value kinds a field
    can be declared with. */
module Annotations {
  import opened Outcomes

  /** A Java class, identified by its fully qualified name. */
  type TypeId = string

  /** OrientDB's property types (`OType`). */
  datatype OType =
    | Boolean | Integer | Short | Long | Float | Double | DateTime | String | Binary
    | Embedded | EmbeddedList | EmbeddedSet | EmbeddedMap
    | Link | LinkList | LinkSet | LinkMap
    | Byte | Transient | Date | Custom | Decimal | LinkBag | Any

  /** `Field.DEFAULT`: the value `name()` reports when no name was given. */
  const DEFAULT: string := ""

  /** `Field.class`, the sentinel default of `target()` meaning "no target". */
  const FieldClass: TypeId := "com.thehellings.gully.orientdb.annotations.Field"

  /** An `@Field` annotation as reflection reports it. `name == None` is the
      `DEFAULT` sentinel: the name element was left at its default. */
  datatype FieldAnnotation = FieldAnnotation(name: Option<string>, kind: OType, target: TypeId, unique: bool)
  {
    /** What `name()` returns. */
    function NameValue(): string {
      name.GetOr(DEFAULT)
    }
  }

  /** An `@Field` annotation as written in source: an element the programmer
      omitted is `None`. */
  datatype FieldUsage = FieldUsage(name: Option<string>, kind: Option<OType>, target: Option<TypeId>, unique: Option<bool>)

  /** An `@Field` with every element omitted. */
  const BareField: FieldUsage := FieldUsage(None, None, None, None)

  /** The annotation reflection reports for a written usage: every omitted
      element takes the default the annotation type declares. */
  function Declare(usage: FieldUsage): (a: FieldAnnotation)
    ensures usage.name.None? ==> a.NameValue() == DEFAULT && a.name.None?
    ensures usage.name.Some? ==> a.name == usage.name
    ensures usage.kind.None? ==> a.kind == String
    ensures usage.kind.Some? ==> a.kind == usage.kind.value
    ensures usage.target.None? ==> a.target == FieldClass
    ensures usage.target.Some? ==> a.target == usage.target.value
    ensures usage.unique.None? ==> !a.unique
    ensures usage.unique.Some? ==> a.unique == usage.unique.value
  {
    FieldAnnotation(usage.name, usage.kind.GetOr(String), usage.target.GetOr(FieldClass), usage.unique.GetOr(false))
  }

  /** Writing an element's default out is the same as omitting it: reflection
      cannot tell `@Field(type = OType.STRING, unique = false)` from a bare
      `@Field`. Every annotation is the declaration of the usage that spells
      all of its elements out. */
  lemma DefaultsAreImplicit(usage: FieldUsage, a: FieldAnnotation)
    ensures Declare(usage.(kind := Some(String))) == Declare(usage.(kind := None))
    ensures Declare(usage.(target := Some(FieldClass))) == Declare(usage.(target := None))
    ensures Declare(usage.(unique := Some(false))) == Declare(usage.(unique := None))
    ensures Declare(FieldUsage(a.name, Some(a.kind), Some(a.target), Some(a.unique))) == a
  {
  }

  /** An `@Entity` marker; `name == None` means the name was left at its default. */
  datatype EntityMarker = EntityMarker(name: Option<string>)
}
