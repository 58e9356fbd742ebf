/** The slice of Java reflection the engine consults, as plain data: a
    universe mapping each class to what `getDeclaredAnnotation`,
    `getSimpleName`, `getSuperclass`, `getInterfaces`, `getDeclaredMethods`
    and `getDeclaredFields` report about it. */
module Reflection {
  import opened Outcomes
  import opened Annotations

  /** The categories of annotated element `NameType.getNameType` can be handed. */
  datatype ElementKind = MethodElement | FieldElement | OtherElement

  /** A declared member together with its `@Field` annotation, if any. */
  datatype Element = Element(kind: ElementKind, name: string, annotation: Option<FieldAnnotation>)

  /** What reflection reports about one class. `superclass == None` is the
      null `getSuperclass()` returns for interfaces and `java.lang.Object`. */
  datatype ClassInfo = ClassInfo(
    entity: Option<EntityMarker>,
    simpleName: string,
    superclass: Option<TypeId>,
    interfaces: seq<TypeId>,
    methods: seq<Element>,
    fields: seq<Element>)

  type Universe = map<TypeId, ClassInfo>

  /** Every class an element's `@Field` names as its target is loaded, unless
      it is the `Field.class` sentinel. */
  predicate TargetsResolve(u: Universe, es: seq<Element>) {
    forall e | e in es :: e.annotation.Some? ==> e.annotation.value.target == FieldClass || e.annotation.value.target in u
  }

  /** Every class `c` refers to is itself in the universe. */
  predicate ClassResolves(u: Universe, c: ClassInfo) {
    && (c.superclass.Some? ==> c.superclass.value in u)
    && (forall j | 0 <= j < |c.interfaces| :: c.interfaces[j] in u)
    && TargetsResolve(u, c.methods)
    && TargetsResolve(u, c.fields)
  }

  /** The universe is closed: reflection never hands out a class it cannot describe. */
  predicate WellFormed(u: Universe) {
    forall id | id in u :: ClassResolves(u, u[id])
  }
}
