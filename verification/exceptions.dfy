/** The exceptions the schema-reconciliation engine can raise or run into. */
module Exceptions {

  datatype Failure =
      /** An `@Field` annotation sits on a member that is neither a method nor a field. */
    | UnsupportedFieldType
      /** The type is not an `@Entity`, or its class is missing from the schema. */
    | InvalidType
      /** A `Type` was built from a null class: the superclass of an interface. */
    | NullPointer
      /** The schema already holds a class of this name when `createClass` is called. */
    | ClassAlreadyExists(name: string)
}
