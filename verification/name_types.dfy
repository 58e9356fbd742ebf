/** `NameType`: the descriptor of one annotated member — its property name,
    OrientDB kind, uniqueness flag and optional link/embed target — built from
    the member's `@Field` annotation with the default-naming rules applied. */
module NameTypes {
  import opened Outcomes
  import opened Exceptions
  import opened Annotations
  import opened Reflection

  datatype NameType = NameType(
    name: string,
    kind: OType,
    unique: bool,
    targetClass: Option<TypeId>,
    requiresTargetClass: bool)

  /** The kinds the class documents as needing a target (`linkTypes`). The
      descriptor never consults this set. */
  predicate IsLinkKind(k: OType) {
    k in {Link, LinkBag, LinkList, LinkMap, LinkSet, Embedded, EmbeddedList, EmbeddedMap, EmbeddedSet}
  }

  /** A descriptor whose flag agrees with its target: the shape every
      constructor produces. */
  predicate Consistent(t: NameType) {
    t.requiresTargetClass <==> t.targetClass.Some?
  }

  /** `NameType(Field)` via `init`: every value read straight off the annotation. */
  function FromAnnotation(a: FieldAnnotation): (t: NameType)
    ensures t.name == a.NameValue()
    ensures t.kind == a.kind && t.unique == a.unique
    ensures t.targetClass.None? <==> a.target == FieldClass
    ensures t.targetClass.Some? ==> t.targetClass.value == a.target
    ensures t.requiresTargetClass <==> a.target != FieldClass
    ensures Consistent(t)
  {
    var declared := a.target != FieldClass;
    NameType(a.NameValue(), a.kind, a.unique, if declared then Some(a.target) else None, declared)
  }

  /** ASCII lower-casing of one character. */
  function LowerAscii(c: char): char {
    if 'A' <= c <= 'Z' then (c as int + 32) as char else c
  }

  /** ASCII upper-casing of one character. */
  function UpperAscii(c: char): char {
    if 'a' <= c <= 'z' then (c as int - 32) as char else c
  }

  /** A method name the default-naming rule rewrites: `get` followed by at least one character. */
  predicate IsGetterName(m: string) {
    "get" <= m && |m| > 3
  }

  /** `NameType(Field, Method)`. An explicit name is kept; a default name on a
      getter becomes the rest of the method name with its first character
      lower-cased; a default name on any other method stays `DEFAULT`. */
  function ForMethod(a: FieldAnnotation, methodName: string): (t: NameType)
    ensures t.kind == a.kind && t.unique == a.unique
    ensures t.targetClass == FromAnnotation(a).targetClass
    ensures t.requiresTargetClass == FromAnnotation(a).requiresTargetClass
    ensures a.name.Some? ==> t.name == a.name.value
    ensures a.name.None? && IsGetterName(methodName) ==>
      |t.name| == |methodName| - 3 && t.name[0] == LowerAscii(methodName[3]) && t.name[1..] == methodName[4..]
    ensures a.name.None? && !IsGetterName(methodName) ==> t.name == DEFAULT
  {
    var base := FromAnnotation(a);
    if a.name.None? then
      if IsGetterName(methodName) then
        base.(name := [LowerAscii(methodName[3])] + methodName[4..])
      else
        base
    else
      base.(name := a.name.value)
  }

  /** `NameType(Field, java.lang.reflect.Field)`: an explicit name is kept,
      a default name becomes the Java field's own name. */
  function ForField(a: FieldAnnotation, fieldName: string): (t: NameType)
    ensures t.kind == a.kind && t.unique == a.unique
    ensures t.targetClass == FromAnnotation(a).targetClass
    ensures t.requiresTargetClass == FromAnnotation(a).requiresTargetClass
    ensures t.name == (if a.name.Some? then a.name.value else fieldName)
  {
    var base := FromAnnotation(a);
    if a.name.None? then base.(name := fieldName) else base.(name := a.name.value)
  }

  /** `getNameType`: dispatch on the member category; anything other than a
      method or a field is refused. */
  function GetNameType(a: FieldAnnotation, e: Element): (r: Result<NameType, Failure>)
    ensures r.Err? <==> e.kind == OtherElement
    ensures r.Err? ==> r.error == UnsupportedFieldType
    ensures e.kind == MethodElement ==> r == Ok(ForMethod(a, e.name))
    ensures e.kind == FieldElement ==> r == Ok(ForField(a, e.name))
    ensures r.Ok? ==> r.value.kind == a.kind && r.value.unique == a.unique && Consistent(r.value)
    ensures r.Ok? ==> r.value.targetClass == (if a.target == FieldClass then None else Some(a.target))
  {
    match e.kind
    case MethodElement => Ok(ForMethod(a, e.name))
    case FieldElement => Ok(ForField(a, e.name))
    case OtherElement => Err(UnsupportedFieldType)
  }

  /** The getter a JavaBeans tool would write for property `p`. */
  function GetterFor(p: string): string
    requires |p| > 0
  {
    "get" + [UpperAscii(p[0])] + p[1..]
  }

  /** Default naming inverts the getter convention: a bare `@Field` on
      `getHomeAddress` names the property `homeAddress`, for every property
      name that does not start with an upper-case letter. */
  lemma GetterNameRoundTrip(p: string)
    requires |p| > 0 && !('A' <= p[0] <= 'Z')
    ensures IsGetterName(GetterFor(p))
    ensures ForMethod(Declare(BareField), GetterFor(p)).name == p
  {
    var m := GetterFor(p);
    assert m[..3] == "get";
    assert m[3] == UpperAscii(p[0]) && m[4..] == p[1..];
    var t := ForMethod(Declare(BareField), m);
    assert t.name == [LowerAscii(m[3])] + m[4..];
    assert LowerAscii(UpperAscii(p[0])) == p[0];
    assert t.name == [p[0]] + p[1..] == p;
  }

  /** The two naming rules agree on a JavaBeans property: a default-named
      annotation on the getter of `p` gives the same descriptor as on the
      field `p`, for every property name not starting with an upper-case
      letter. */
  lemma GetterAndFieldAgree(a: FieldAnnotation, p: string)
    requires a.name.None? && |p| > 0 && !('A' <= p[0] <= 'Z')
    ensures ForMethod(a, GetterFor(p)) == ForField(a, p)
  {
    var m := GetterFor(p);
    assert m[..3] == "get" && m[3] == UpperAscii(p[0]) && m[4..] == p[1..];
    assert LowerAscii(UpperAscii(p[0])) == p[0];
    assert [p[0]] + p[1..] == p;
  }

  /** An explicit name overrides both rules: the member's own name plays no
      part, so a method and a field carrying the same annotation get the same
      descriptor. */
  lemma ExplicitNameOverridesMember(a: FieldAnnotation, methodName: string, fieldName: string)
    requires a.name.Some?
    ensures ForMethod(a, methodName) == ForField(a, fieldName)
    ensures ForField(a, fieldName) == FromAnnotation(a).(name := a.name.value)
  {
  }

  /** `requiresTargetClass` records that a target was declared, not that the
      kind needs one: a LINK or EMBEDDED field without a target is not flagged,
      and a STRING field with a target is. */
  lemma TargetFlagIgnoresKind(a: FieldAnnotation)
    ensures FromAnnotation(a).requiresTargetClass <==> a.target != FieldClass
    ensures IsLinkKind(a.kind) && a.target == FieldClass ==> !FromAnnotation(a).requiresTargetClass
    ensures !IsLinkKind(a.kind) && a.target != FieldClass ==> FromAnnotation(a).requiresTargetClass
  {
  }

  /** A method whose name is not a getter gets no derived name: with a default
      name it reports `DEFAULT`, not the method's name. This covers the bare
      `get` method and every `set…` method, whose prefix is never stripped. */
  lemma NonGetterKeepsDefaultName(a: FieldAnnotation, methodName: string)
    requires a.name.None? && !IsGetterName(methodName)
    ensures ForMethod(a, methodName).name == DEFAULT
    ensures methodName != DEFAULT ==> ForMethod(a, methodName).name != methodName
  {
  }
}
