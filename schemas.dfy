/**
 * The static schema registry: the shape of a User record, the narrower create/update payloads,
 * and the generic error and success envelopes. Each schema is a value built the way the
 * source builds it, one kin-openapi builder call per record update.
 */
module Schemas {
  import opened Options

  /** The JSON-schema keywords this system sets on a kin-openapi Schema. */
  datatype Schema = Schema(
    typ: string,
    format: string,
    pattern: string,
    minimum: Option<int>,
    default: Option<string>,
    properties: map<string, Schema>,
    required: seq<string>,
    anyOf: seq<Schema>,
    items: Option<Schema>)

  /** openapi3.NewSchema(): no keyword set. */
  const EmptySchema := Schema("", "", "", None, None, map[], [], [], None)

  /** openapi3.NewStringSchema(). */
  const StringSchema := EmptySchema.(typ := "string")

  /** openapi3.NewUUIDSchema(): a string with format uuid. */
  const UUIDSchema := StringSchema.(format := "uuid")

  /** openapi3.NewDateTimeSchema(): a string with format date-time. */
  const DateTimeSchema := StringSchema.(format := "date-time")

  /** openapi3.NewArraySchema(). */
  const ArraySchema := EmptySchema.(typ := "array")

  /** openapi3.NewAnyOfSchema(alternatives...). */
  function AnyOf(alternatives: seq<Schema>): (s: Schema)
    ensures s.anyOf == alternatives && s.properties == map[] && s.typ == ""
  {
    EmptySchema.(anyOf := alternatives)
  }

  /** The regular expression every email property carries. */
  const EmailPattern := "^[a-zA-Z0-9._%+-]+@[a-zA-Z0-9.-]+\\.[a-zA-Z]{2,}$"

  /** `name`: a text string; WithMin sets the numeric `minimum` keyword to 3. */
  const NameProperty := StringSchema.(format := "text", minimum := Some(3))

  /** `email`: a string of format email constrained by EmailPattern. */
  const EmailProperty := StringSchema.(format := "email", pattern := EmailPattern)

  /** The fields the store manages itself and a client never sends. */
  const SystemFields: set<string> := {"id", "createdAt", "updatedAt"}

  const UserSchema := EmptySchema.(
    properties := map[
      "id" := UUIDSchema,
      "name" := NameProperty,
      "email" := EmailProperty,
      "createdAt" := DateTimeSchema,
      "updatedAt" := DateTimeSchema],
    required := ["id", "name", "email", "createdAt", "updatedAt"])

  const CreateUserSchema := EmptySchema.(
    properties := map["name" := NameProperty, "email" := EmailProperty],
    required := ["name", "email"])

  const UpdateUserSchema := EmptySchema.(
    properties := map["name" := NameProperty, "email" := EmailProperty],
    required := ["name", "email"])

  const ErrorSchema := EmptySchema.(
    properties := map[
      "error" := StringSchema.(format := "text"),
      "message" := StringSchema.(format := "text")],
    required := ["error", "message"])

  const SuccessSchema := EmptySchema.(
    properties := map[
      "item" := AnyOf([UserSchema]),
      "items" := ArraySchema.(items := Some(AnyOf([UserSchema])))],
    required := [])

  /** The names a required list mentions. */
  function Elems(names: seq<string>): (r: set<string>)
    ensures forall i :: 0 <= i < |names| ==> names[i] in r
    ensures forall x :: x in r ==> x in names
  {
    set x | x in names
  }

  /** Every User property is required and every required name is a property. */
  lemma UserSchemaRequiresEveryProperty()
    ensures UserSchema.properties.Keys == {"id", "name", "email", "createdAt", "updatedAt"}
    ensures Elems(UserSchema.required) == UserSchema.properties.Keys
    ensures |UserSchema.required| == |UserSchema.properties|
  {
  }

  /**
   * The create and update payloads are the User shape without the store-managed fields:
   * exactly name and email, both required.
   */
  lemma InputSchemasAreUserWithoutSystemFields()
    ensures CreateUserSchema.properties == UserSchema.properties - SystemFields
    ensures UpdateUserSchema.properties == UserSchema.properties - SystemFields
    ensures CreateUserSchema.properties.Keys == {"name", "email"} == Elems(CreateUserSchema.required)
    ensures UpdateUserSchema.properties.Keys == {"name", "email"} == Elems(UpdateUserSchema.required)
    ensures SystemFields !! CreateUserSchema.properties.Keys
  {
  }

  /** The create and update payload schemas have identical content. */
  lemma CreateAndUpdateSchemasAgree()
    ensures CreateUserSchema == UpdateUserSchema
  {
  }

  /** In all three user schemas `name` is a text string with minimum 3 and `email` has format email and one pattern. */
  lemma FieldConstraintsAgree()
    ensures forall s :: s in [UserSchema, CreateUserSchema, UpdateUserSchema] ==>
      && "name" in s.properties && "email" in s.properties
      && s.properties["name"].typ == "string" && s.properties["name"].minimum == Some(3)
      && s.properties["email"].format == "email" && s.properties["email"].pattern == EmailPattern
  {
  }

  /** The error envelope has exactly the properties error and message, both required text strings. */
  lemma ErrorSchemaShape()
    ensures ErrorSchema.properties.Keys == {"error", "message"} == Elems(ErrorSchema.required)
    ensures ErrorSchema.properties["error"].format == "text" && ErrorSchema.properties["message"].format == "text"
  {
  }

  /** The success envelope carries `item` (any of User) or `items` (an array of any of User), neither required. */
  lemma SuccessSchemaShape()
    ensures SuccessSchema.properties.Keys == {"item", "items"}
    ensures SuccessSchema.required == []
    ensures SuccessSchema.properties["item"].anyOf == [UserSchema]
    ensures SuccessSchema.properties["items"].typ == "array"
    ensures SuccessSchema.properties["items"].items == Some(SuccessSchema.properties["item"])
  {
  }

}
