# OrientDB schema reconciliation, modelled in Dafny

This project models the schema-reconciliation engine of the `gully-orientdb`
library. The engine turns Java classes annotated with `@Entity` and `@Field`
into OrientDB schema classes, properties and unique indexes. It only ever
adds to the schema. It never removes, renames or retypes anything.

The model is functional. Java reflection becomes a *type universe*: a map
from class name to what reflection reports about the class. The database
schema becomes a map from class name to a record. That record holds the
ordered parent names, a property map `name → OType` and the index names.
Every operation takes the schema as input and returns the new schema.

| file | models |
|---|---|
| `outcomes.dfy` | `Option` (Java's null) and `Result` (return or throw) |
| `exceptions.dfy` | the failures: `UnsupportedFieldType`, `InvalidType`, the null dereference, OrientDB's duplicate-class refusal |
| `annotations.dfy` | `@Field` with its defaults and the `DEFAULT` / `Field.class` sentinels; the `@Entity` marker; `OType` |
| `reflection.dfy` | the type universe: entity marker, simple name, superclass, interfaces, declared methods and fields |
| `name_types.dfy` | `NameType`: the field descriptor and its default-naming rules |
| `schemas.dfy` | the abstract `OSchema`/`OClass` and `createClass` |
| `types.dfy` | `Type`: name resolution, `collectFields`, `findParentTypes`, `createInSchema`, `configureFields`, `hasIndex` |
| `creation.dfy` | what `createInSchema` builds: the types it reaches, the classes it adds, when it succeeds, when it fails, and the parent cycles, such as a self link, on which it cannot end |
| `orientdb_entity.dfy` | the `OrientDBEntity` façade: `getOType` and both `configureBaseFields` |
| `connection_pool.dfy` | `ConnectionPool.getInstance` as a transition on the static map |
| `scenarios.dfy` | laws over hierarchies of a given shape: the ancestry gap, multiple inheritance, the interface crash, creation when all parents exist, default naming |

## Where the code and its documentation differ

The model follows the code in each of these places.

- `requiresTargetClass` means "an explicit target was declared"
  (`NameType.java:60-66`). It does not mean "the kind is a link or embedded
  kind". The `linkTypes` set (`NameType.java:38-48`) is never read. So a LINK
  field without a target is not flagged, and a STRING field with a target
  is flagged. `NameTypes.TargetFlagIgnoresKind` and
  `Scenarios.LinkWithoutTarget` state this.
- Take a method whose annotation leaves the name at its default. If the
  method name does not start with `get`, or is exactly `get`, the
  descriptor's name stays `DEFAULT` (`""`). It does not become the method
  name (`NameType.java:93-97`). The comment at `NameType.java:80-84` says
  otherwise. See `NameTypes.NonGetterKeepsDefaultName`.
- A `set` prefix is never stripped, although the comment at `Field.java:14`
  says it is. A bare `@Field` on `setName` yields the name `""`
  (`Scenarios.DefaultNaming`).
- A field target that is not an entity does more than skip that one
  ancestor. The thrown exception ends the loop, so every later field target
  is dropped too (`Type.java:73-83`). `Types.TargetParents` characterises
  the result as the longest prefix of declared targets that are entities.
- An interface's superclass is null, and `findParentTypes` builds a `Type`
  from it (`Type.java:61`). The constructor then dereferences null
  (`Type.java:32`). Creating an interface entity that is missing from the
  schema therefore fails with `NullPointer`. So does creating any class
  whose first parent is an entity interface that is still missing
  (`Scenarios.InterfaceParentCrashes`).
  Multiple inheritance through interfaces only works once the interface's
  class exists.
- A LINK or EMBEDDED field whose target is an entity makes that entity a
  parent (`Type.java:76-79`). A field that targets its own class, such as
  a manager link on an employee, therefore makes the class its own parent.
  Two entities that link to each other are each other's parents.
  `createInSchema` creates every parent before the class itself
  (`Type.java:117-125`). So for such a class that is still missing, it
  recurses without end and the JVM throws `StackOverflowError`, unless the
  creation of an earlier parent fails first, for example with the null
  dereference of a missing interface entity. The
  documentation promises that creation stops at the base of the
  hierarchy (`Type.java:93-96`). The model requires a rank that decreases
  along parent edges. `Creation.CycleHasNoRank` and
  `Creation.SelfLinkIsOwnParent` show that no rank exists for these
  universes, so the model promises nothing for them.

## Model

| member | source | states |
|---|---|---|
| Annotations.Declare | src/main/java/com/thehellings/gully/orientdb/annotations/Field.java:61-100 | an omitted element takes its default: name the `DEFAULT` sentinel, type STRING, target the `Field.class` sentinel, unique false; a given element is kept |
| Annotations.DefaultsAreImplicit | src/main/java/com/thehellings/gully/orientdb/annotations/Field.java:61-100 | writing a default value out gives the same annotation as leaving it out, and an annotation with every element written out is read back unchanged |
| NameTypes.FromAnnotation | src/main/java/com/thehellings/gully/orientdb/types/NameType.java:56-76 | name, kind and unique are copied from the annotation; the target is absent exactly when the annotation names `Field.class`, else it is the declared class; `requiresTargetClass` holds exactly when a target is present |
| NameTypes.ForMethod | src/main/java/com/thehellings/gully/orientdb/types/NameType.java:90-101 | an explicit name is used verbatim; a default name on `get` plus at least one character becomes the rest with its first character lower-cased; a default name on any other method stays `DEFAULT`; kind, unique and target as in the annotation |
| NameTypes.ForField | src/main/java/com/thehellings/gully/orientdb/types/NameType.java:113-121 | an explicit name is used verbatim, a default name becomes the Java field's name; kind, unique and target as in the annotation |
| NameTypes.GetNameType | src/main/java/com/thehellings/gully/orientdb/types/NameType.java:189-197 | methods get the method rule, fields the field rule; any other member fails with `UnsupportedFieldType`; every descriptor's flag agrees with its target |
| NameTypes.GetterNameRoundTrip | src/main/java/com/thehellings/gully/orientdb/types/NameType.java:93-97 | for every property name not starting with an upper-case letter, default naming on its JavaBeans getter gives the property name back |
| NameTypes.GetterAndFieldAgree | src/main/java/com/thehellings/gully/orientdb/types/NameType.java:90-121 | with a default name, the JavaBeans getter of a property and the field of that property get the same descriptor |
| NameTypes.ExplicitNameOverridesMember | src/main/java/com/thehellings/gully/orientdb/types/NameType.java:90-121 | with an explicit name, a method and a field carrying the same annotation get the same descriptor, named as the annotation says |
| NameTypes.TargetFlagIgnoresKind | src/main/java/com/thehellings/gully/orientdb/types/NameType.java:38-66 | the target flag depends only on the declared target: a link/embedded kind without a target is unflagged, any other kind with a target is flagged |
| NameTypes.NonGetterKeepsDefaultName | src/main/java/com/thehellings/gully/orientdb/types/NameType.java:91-97 | a default-named method that is not a getter is named `DEFAULT`, never its own method name |
| Types.TypeName | src/main/java/com/thehellings/gully/orientdb/types/Type.java:30-40 | a class has a name exactly when it carries `@Entity`; it is the marker's name, or the simple class name when the marker's name is the default |
| Types.Describe | src/main/java/com/thehellings/gully/orientdb/types/Type.java:216-260 | succeeds exactly when no annotated member is of an unsupported category, and otherwise fails with `UnsupportedFieldType` |
| Types.DescribeDescribes | src/main/java/com/thehellings/gully/orientdb/types/Type.java:216-260 | on success the descriptors are those `getNameType` gives for the annotated members, one for one and in order; unannotated members contribute nothing |
| Types.AnnotatedAppend | src/main/java/com/thehellings/gully/orientdb/types/Type.java:199-204 | the annotated members of methods followed by fields are the annotated methods followed by the annotated fields |
| Types.CollectFields | src/main/java/com/thehellings/gully/orientdb/types/Type.java:199-204 | the descriptors of the annotated methods followed by those of the annotated fields; fails with `UnsupportedFieldType` exactly when either list holds an annotated member of an unsupported category |
| Types.WellKindedClassCollects | src/main/java/com/thehellings/gully/orientdb/types/Type.java:216-240 | when the method list holds only methods and the field list only fields, collection cannot fail |
| Types.EntitiesAmongKeepsDuplicates | src/main/java/com/thehellings/gully/orientdb/types/Type.java:58-70 | the superclass and interface step keeps each entity as often as it occurs and drops every non-entity |
| Types.TargetParents | src/main/java/com/thehellings/gully/orientdb/types/Type.java:71-83 | the field-target parents are a prefix of the declared targets, all entities, and stop exactly at the first declared target that is not an entity |
| Types.FindParentTypes | src/main/java/com/thehellings/gully/orientdb/types/Type.java:58-88 | fails, with a null dereference, exactly when the superclass is null; otherwise every parent is an entity of the universe |
| Types.ParentsInDeclarationOrder | src/main/java/com/thehellings/gully/orientdb/types/Type.java:58-88 | parents come as the entity superclass, then the entity interfaces in order, then the field-target parents; when field collection fails, no field-target parents |
| Types.ParentsAreDirect | src/main/java/com/thehellings/gully/orientdb/types/Type.java:58-82 | every parent is the direct superclass, a directly implemented interface, or a declared target of the class's own members; no grandparent is reached |
| Types.CreateInSchema | src/main/java/com/thehellings/gully/orientdb/types/Type.java:111-127 | an existing class of the name is returned with the schema unchanged; otherwise on success the class exists and its parents are the parents' class names in `findParentTypes` order, all present; classes already in the schema are never altered, every class it adds is bare, and every class it adds, at any depth and on failure too, names only parents present in the resulting schema, because parents are created first; a missing interface entity fails with a null dereference and adds nothing; which classes are added, and when the call succeeds, is stated by the `Creation` lemmas |
| Types.CreateParents | src/main/java/com/thehellings/gully/orientdb/types/Type.java:117-121 | the parents are created in order, each in the schema its predecessors left; on success the result lists their class names position by position and all exist; pre-existing classes are never altered; every class the loop adds, even when a later parent fails, is bare and names only parents present in the resulting schema |
| Creation.Reach | src/main/java/com/thehellings/gully/orientdb/types/Type.java:111-121 | an upper bound on the types one `createInSchema` call may visit, taken in the starting schema: the type itself exactly when its class is missing, then, when its superclass is present, the types reached from each parent; every reached type is an entity whose class is missing |
| Creation.ReachShrinks | src/main/java/com/thehellings/gully/orientdb/types/Type.java:111-115 | adding classes to the schema never enlarges the reach bound `Reach` |
| Creation.CreateBuilds | src/main/java/com/thehellings/gully/orientdb/types/Type.java:111-127 | every class creation adds was built for a type the call reached: its name is that type's name and it is bare, with the class names of that type's `findParentTypes` result as its parents |
| Creation.CreateParentsBuilds | src/main/java/com/thehellings/gully/orientdb/types/Type.java:117-121 | every class the parent loop adds was built, as above, for a type reached from one of the parents |
| Creation.CreationSucceeds | src/main/java/com/thehellings/gully/orientdb/types/Type.java:111-127 | when every reached type has a superclass and no two reached types share a name, creation returns the type's own class name |
| Creation.CreationFailureExplained | src/main/java/com/thehellings/gully/orientdb/types/Type.java:111-127 | when creation fails, some reached type has no superclass (an interface) or two reached types share a class name |
| Creation.ParentRankedBelow | src/main/java/com/thehellings/gully/orientdb/types/Type.java:117-121 | a rank puts every missing parent strictly below its child, so each recursive call works on a smaller rank |
| Creation.CycleHasNoRank | src/main/java/com/thehellings/gully/orientdb/types/Type.java:76-79 | two missing entities that are each other's parents, or one that is its own parent, admit no rank, so the model promises nothing for them; Java overflows the stack on such a cycle unless an earlier parent's creation fails first |
| Creation.SelfLinkIsOwnParent | src/main/java/com/thehellings/gully/orientdb/types/Type.java:58-88 | an entity whose only member is a LINK field to its own class, with a plain superclass and no interfaces, has itself as its only parent, and while its class is missing no rank exists |
| Types.CreateIdempotent | src/main/java/com/thehellings/gully/orientdb/types/Type.java:111-115 | a second `createInSchema` after a successful one returns the same class and leaves the schema unchanged |
| Types.HasIndex | src/main/java/com/thehellings/gully/orientdb/types/Type.java:269-277 | true exactly when some index has exactly that name |
| Types.ConfigureAll | src/main/java/com/thehellings/gully/orientdb/types/Type.java:145-155 | existing properties keep their kind; the properties afterwards are the old ones plus the descriptor names; a new property gets the kind of the first descriptor of its name; the old indexes stay as a prefix, the new ones are exactly the missing unique names, and when the old indexes repeat no name, no index name is repeated afterwards |
| Types.ConfigureFields | src/main/java/com/thehellings/gully/orientdb/types/Type.java:144-161 | every collected name has a property and every unique one an index of its name; a new property gets the kind of the first collected descriptor of its name; nothing existing is removed or retyped; parents are untouched; a class whose fields cannot be collected is unchanged |
| Types.ConfiguredIsFixedPoint | src/main/java/com/thehellings/gully/orientdb/types/Type.java:146-153 | a class that already has every property and unique index the descriptors ask for is left exactly as it is |
| Types.ConfigureFieldsIdempotent | src/main/java/com/thehellings/gully/orientdb/types/Type.java:144-161 | configuring twice gives the same class as configuring once |
| Schemas.CreateClass | src/main/java/com/thehellings/gully/orientdb/types/Type.java:125 | adds exactly one bare class with the given parents and keeps all others; refuses a name already in the schema |
| OrientDBEntity.GetOType | src/main/java/com/thehellings/gully/orientdb/OrientDBEntity.java:53-63 | a non-entity fails with `InvalidType` and the schema unchanged, whatever the flag; without the flag it is a pure lookup, returning null when the class is missing; with the flag and a missing class its schema and outcome are exactly those of `createInSchema`, wrapped as a present class; it only adds to the schema and on success returns the type's class, present in the schema |
| OrientDBEntity.GetOTypeIdempotent | src/main/java/com/thehellings/gully/orientdb/OrientDBEntity.java:58-62 | after a successful create, a second call with either flag returns the same class and changes nothing |
| OrientDBEntity.ConfigureBaseFields | src/main/java/com/thehellings/gully/orientdb/OrientDBEntity.java:76-83 | fails with `InvalidType` exactly when the type is not an entity or its class is missing; never creates a class; otherwise changes only that class, exactly as `configureFields` does |
| OrientDBEntity.ConfigureClass | src/main/java/com/thehellings/gully/orientdb/OrientDBEntity.java:100-103 | no entity check: the given class afterwards has every collected name as a property and every unique name as an index; a new property gets the kind of the first collected descriptor of its name, existing properties keep their kinds, old indexes stay as a prefix, parents are untouched, nothing else is added; a type whose fields cannot be collected leaves the class as it is |
| OrientDBEntity.ClassOverloadSkipsEntityCheck | src/main/java/com/thehellings/gully/orientdb/OrientDBEntity.java:76-103 | for a type without `@Entity` the schema overload fails with `InvalidType`, while the class overload still configures its fields into the class |
| OrientDBEntity.OverloadsAgree | src/main/java/com/thehellings/gully/orientdb/OrientDBEntity.java:76-103 | for an entity whose class exists, the schema overload replaces that class by what the class overload makes of it |
| OrientDBEntity.SharedNameSharesClass | src/main/java/com/thehellings/gully/orientdb/OrientDBEntity.java:53-63 | two entity types that declare the same name share one class: once one is created, `getOType` on the other returns that class and changes nothing |
| OrientDBEntity.CreateThenConfigure | src/main/java/com/thehellings/gully/orientdb/OrientDBEntity.java:11-14 | creating the class with `getOType` and then handing that class to the class overload of `configureBaseFields` leaves every collected property and unique index in place, and configuring again changes nothing |
| ConnectionPool.GetInstance | src/main/java/com/thehellings/gully/orientdb/ConnectionPool.java:31-41 | a present key, even one mapped to null, returns its value without calling the factory; an absent key calls the factory once with the key: a pool is stored and returned, a null is stored and returned, an `Exception` stores nothing and returns null, an `Error` stores nothing and propagates to the caller; other keys never change |
| ConnectionPool.RegisteredKeyIsStable | src/main/java/com/thehellings/gully/orientdb/ConnectionPool.java:32-40 | once a key is registered, no sequence of later calls changes its entry or calls a factory for it |
| ConnectionPool.ThrowingFactoryIsRetried | src/main/java/com/thehellings/gully/orientdb/ConnectionPool.java:33-40 | a throwing factory leaves the key unregistered; null is returned after an `Exception` and an `Error` propagates; the next call for the key calls its factory again |
| ConnectionPool.NullIsCachedForever | src/main/java/com/thehellings/gully/orientdb/ConnectionPool.java:32-40 | a factory that returns null registers the key: the next call, with any factory, returns null without calling it (`ConnectionPool.RegisteredKeyIsStable` extends this to every later sequence of calls) |
| Scenarios.AncestryGap | src/main/java/com/thehellings/gully/orientdb/types/Type.java:58-70 | in any universe, an entity C without interfaces or members whose superclass is a plain class B, itself extending entity A, has no parents at all, while B's only parent is A |
| Scenarios.MultipleInheritance | src/main/java/com/thehellings/gully/orientdb/types/Type.java:58-70 | an entity D without members, extending a plain class and implementing entity interfaces E then F, has exactly the parents E, F, in that order |
| Scenarios.InterfaceParentCrashes | src/main/java/com/thehellings/gully/orientdb/types/Type.java:111-127 | creating a missing entity whose first parent is a missing interface fails with a null dereference and leaves the schema unchanged |
| Scenarios.ParentsPresentAddsOneClass | src/main/java/com/thehellings/gully/orientdb/types/Type.java:111-127 | creating a missing entity whose parents' classes all exist adds exactly one class, bare, with the parents' names in order, and changes nothing else |
| Scenarios.ExistingParentsChangeNothing | src/main/java/com/thehellings/gully/orientdb/types/Type.java:117-121 | when every parent's class exists, the parent loop leaves the schema unchanged and returns the parents' names in order |
| Scenarios.DefaultNaming | src/main/java/com/thehellings/gully/orientdb/types/NameType.java:90-121 | `getHomeAddress` gives `homeAddress`, an explicit `address` wins, the field `email` gives `email`, and both `get` and `setName` give `""` |
| Scenarios.LinkWithoutTarget | src/main/java/com/thehellings/gully/orientdb/types/NameType.java:56-67 | a LINK field with no target has no target and is not flagged as needing one |

## Left out

- OrientDB itself: `OSchema`, `OClass`, `OIndex` and index storage are reduced to a map of records. Index names are kept per class. OrientDB's global index namespace is not modelled, and neither is its refusal to create an index whose name another class already uses.
- `OSchema.createClass` with the same parent listed twice: the parent list is stored as given. OrientDB's own reaction to a repeated parent is not modelled.
- Java reflection mechanics: the universe fixes one declaration order per class.
- The `==` test against `DEFAULT`: an annotation name is modelled as "left at default" or "given". Whether Java's string identity really tells these apart at run time is not modelled.
- Lower-casing: ASCII only, one character. Java's locale-dependent `toLowerCase` and surrogate pairs are not modelled.
- Logging and `printStackTrace`: they have no effect on state.
- `NameType.setName`: a mutator the engine never calls.
- `ConnectionPool.isAutoCreate`, `setAutoCreate` and `acquire`: these pass straight through to `OPartitionedDatabasePool`. The unsynchronised static `HashMap` is shared between threads, but the model is sequential. A factory is a function parameter. A factory with state is modelled by passing a different function on each call.
- `Getter.java`: it runs a query and calls a constructor reflectively, which is I/O. Its query text has no comparison operator between the field and the parameter (`Getter.java:26`). It looks up a constructor whose parameter type is the model class itself, not the record type (`Getter.java:22`).
- `DefaultModel.java`: a pass-through to `ODocument.save()`.
- Types.CreateInSchema: requires a rank that strictly decreases along parent edges between entity types whose class is still missing, over the whole universe. The Java code terminates whenever the types it actually visits have no cycle. The rank is stronger than that, because it also rules out cycles the call never reaches: one missing self-linking entity anywhere in the universe leaves every creation call without a contract, even calls that never visit it. It is also only called on entity types, as every caller in the library does.
- OrientDBEntity.GetOType: with the create flag it inherits the rank requirement of `Types.CreateInSchema`.
- Empty property names: a bare `@Field` on a method that is not a getter, or on `get` itself, gives a descriptor named `""`, and `configureFields` then calls `createProperty("")` (`Type.java:150`). The model adds a property with the empty name. OrientDB's refusal of that name is not modelled.
- Case of class names: OrientDB looks class names up without regard to case. The model's schema keys are case-sensitive, so `Person` and `person` are two classes in the model, but in OrientDB `getClass` finds one for the other and `createClass` refuses the second.
- ConnectionPool.GetInstance: a `Throwable` that is neither an `Exception` nor an `Error` is not modelled, since Java code rarely throws one.
- Concurrency of schema mutation, and OrientDB's handling of two writers creating the same class: the model is sequential.
