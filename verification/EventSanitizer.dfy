/** JSON documents, and the removal of secrets from user-data events before they are recorded. */
module EventSanitizer {
  import opened RateTables

  datatype Json =
    | Null | Bool(b: bool) | Num(n: int) | Float(x: real) | Str(s: string) | List(items: Items) | Obj(fields: Fields)

  datatype Items = NoItems | Item(head: Json, rest: Items)

  datatype Fields = NoFields | Field(name: string, value: Json, rest: Fields)

  function Get(fields: Fields, name: string): Option<Json> {
    match fields
    case NoFields => None
    case Field(n, v, rest) => if n == name then Some(v) else Get(rest, name)
  }

  function Without(fields: Fields, name: string): Fields {
    match fields
    case NoFields => NoFields
    case Field(n, v, rest) => if n == name then Without(rest, name) else Field(n, v, Without(rest, name))
  }

  const SECRET_NAMES: set<string> :=
    {"listenkey", "apikey", "secret", "secretkey", "signature", "token", "password", "privatekey"}

  function Alphanumeric(s: string): string {
    if s == [] then []
    else if 'a' <= s[0] <= 'z' || '0' <= s[0] <= '9' then [s[0]] + Alphanumeric(s[1..])
    else Alphanumeric(s[1..])
  }

  /** `lower` is the platform's lower-casing. */
  predicate IsSecret(lower: string -> string, name: string) {
    Alphanumeric(lower(name)) in SECRET_NAMES
  }

  function Sanitize(lower: string -> string, v: Json): Json {
    match v
    case Obj(fields) => Obj(SanitizeFields(lower, fields))
    case List(items) => List(SanitizeItems(lower, items))
    case _ => v
  }

  function SanitizeItems(lower: string -> string, items: Items): Items {
    match items
    case NoItems => NoItems
    case Item(head, rest) => Item(Sanitize(lower, head), SanitizeItems(lower, rest))
  }

  function SanitizeFields(lower: string -> string, fields: Fields): Fields {
    match fields
    case NoFields => NoFields
    case Field(name, value, rest) =>
      if IsSecret(lower, name) then SanitizeFields(lower, rest)
      else Field(name, Sanitize(lower, value), SanitizeFields(lower, rest))
  }

  /** An account update keeps only its reason and its positions. */
  function SanitizeEvent(lower: string -> string, fields: Fields): Fields {
    if Get(fields, "e") == Some(Str("ACCOUNT_UPDATE")) then
      var account := Get(fields, "a");
      var kept :=
        if account.Some? && account.value.Obj? then
          var reason := Get(account.value.fields, "m");
          var positions := Get(account.value.fields, "P");
          Field("m", if reason.None? then Null else reason.value,
                if positions.Some? && positions.value.List?
                then Field("P", Sanitize(lower, positions.value), NoFields) else NoFields)
        else NoFields;
      SanitizeFields(lower, Field("a", Obj(kept), Without(fields, "a")))
    else SanitizeFields(lower, fields)
  }

  // ---------------------------------------------------------------- no secret survives

  /** No secret name at any depth. */
  predicate Clean(lower: string -> string, v: Json) {
    match v
    case Obj(fields) => CleanFields(lower, fields)
    case List(items) => CleanItems(lower, items)
    case _ => true
  }

  predicate CleanItems(lower: string -> string, items: Items) {
    items.NoItems? || (Clean(lower, items.head) && CleanItems(lower, items.rest))
  }

  predicate CleanFields(lower: string -> string, fields: Fields) {
    fields.NoFields? || (!IsSecret(lower, fields.name) && Clean(lower, fields.value) && CleanFields(lower, fields.rest))
  }

  /** Sanitizing leaves no secret, and leaves a clean value alone: it is idempotent. */
  lemma {:induction false} SanitizeCleans(lower: string -> string, v: Json)
    ensures Clean(lower, Sanitize(lower, v))
    ensures Clean(lower, v) ==> Sanitize(lower, v) == v
    ensures Sanitize(lower, Sanitize(lower, v)) == Sanitize(lower, v)
  {
    match v
    case Obj(fields) => SanitizeFieldsCleans(lower, fields);
    case List(items) => SanitizeItemsCleans(lower, items);
    case _ =>
  }

  lemma {:induction false} SanitizeItemsCleans(lower: string -> string, items: Items)
    ensures CleanItems(lower, SanitizeItems(lower, items))
    ensures CleanItems(lower, items) ==> SanitizeItems(lower, items) == items
    ensures SanitizeItems(lower, SanitizeItems(lower, items)) == SanitizeItems(lower, items)
  {
    if items.Item? {
      SanitizeCleans(lower, items.head);
      SanitizeItemsCleans(lower, items.rest);
    }
  }

  lemma {:induction false} SanitizeFieldsCleans(lower: string -> string, fields: Fields)
    ensures CleanFields(lower, SanitizeFields(lower, fields))
    ensures CleanFields(lower, fields) ==> SanitizeFields(lower, fields) == fields
    ensures SanitizeFields(lower, SanitizeFields(lower, fields)) == SanitizeFields(lower, fields)
  {
    if fields.Field? {
      SanitizeCleans(lower, fields.value);
      SanitizeFieldsCleans(lower, fields.rest);
    }
  }

  lemma EventIsClean(lower: string -> string, fields: Fields)
    ensures CleanFields(lower, SanitizeEvent(lower, fields))
  {
    var account := Get(fields, "a");
    SanitizeFieldsCleans(lower, fields);
    if Get(fields, "e") == Some(Str("ACCOUNT_UPDATE")) {
      forall kept ensures CleanFields(lower, SanitizeFields(lower, Field("a", Obj(kept), Without(fields, "a")))) {
        SanitizeFieldsCleans(lower, Field("a", Obj(kept), Without(fields, "a")));
      }
    }
  }
}
