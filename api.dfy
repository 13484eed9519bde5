/**
 * Shapes shared by the server's views and the client: HTTP status codes
 * and the resource descriptor (a resource type and the properties that
 * select its records).
 */
module Api {
  const OK: int := 200
  const NO_CONTENT: int := 204

  /** Field name -> value: the properties of a record, a filter or a set of changes. */
  type Fields = map<string, string>

  /** A resource descriptor: the name of the resource type and its properties. */
  datatype Descriptor = Descriptor(typeName: string, properties: Fields)

  /** The body of an `update_fields` request: which records, and the changes to apply to them. */
  datatype ChangeRequest = ChangeRequest(descriptor: Descriptor, changes: Fields)
}
