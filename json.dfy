/**
 * JSON values as serde_json hands them to a deserializer, and the field-level
 * rules serde's derived `Deserialize` applies to an object.
 */
module Json {
  import opened Basics

  /** A parsed JSON value. Numbers are read as exact reals (see README). */
  datatype Json =
    | Null
    | Bool(b: bool)
    | Num(n: real)
    | Str(s: string)
    | Arr(items: seq<Json>)
    | Obj(fields: map<string, Json>)

  /** Why a request body failed to decode (serde's `de::Error`). */
  datatype DecodeError =
    | NotAnObject                          // a struct was expected
    | MissingField(field: string)          // a required key is absent
    | InvalidType(field: string)           // a key holds the wrong kind of value
    | UnknownFields(fields: set<string>)   // keys a `deny_unknown_fields` shape does not declare
    | UnknownVariant(field: string, token: string)
    | Negative(value: real)                // "<v> is negative"
    | OutsideScaleRange(value: real)       // "<v> is outside range 0.1-2"
    | NoMatchingShape                      // no variant of an untagged enum matched
    | InvalidBase64
    | FileCreate                           // `File::create` failed
    | FileWrite                            // `write` failed
    | PathNotUnicode                       // "could not write addon to file"

  /** A required `String` field. */
  function StringField(fields: map<string, Json>, key: string): Result<string, DecodeError>
  {
    if key !in fields then Err(MissingField(key))
    else if fields[key].Str? then Ok(fields[key].s)
    else Err(InvalidType(key))
  }

  /** An `Option<bool>` field: absent and `null` both read as `None`. */
  function OptionalBoolField(fields: map<string, Json>, key: string): Result<Option<bool>, DecodeError>
  {
    if key !in fields || fields[key] == Null then Ok(None)
    else if fields[key].Bool? then Ok(Some(fields[key].b))
    else Err(InvalidType(key))
  }

  /** A `bool` field of a struct marked `#[serde(default)]`. */
  function BoolFieldOr(fields: map<string, Json>, key: string, default: bool): Result<bool, DecodeError>
  {
    if key !in fields then Ok(default)
    else if fields[key].Bool? then Ok(fields[key].b)
    else Err(InvalidType(key))
  }

  /** `f64::deserialize`: any JSON number, nothing else. */
  function Number(key: string, j: Json): Result<real, DecodeError>
  {
    if j.Num? then Ok(j.n) else Err(InvalidType(key))
  }

  /** `#[serde(deny_unknown_fields)]`: every key must be declared. */
  function OnlyFields(fields: map<string, Json>, declared: set<string>): Result<(), DecodeError>
  {
    if fields.Keys <= declared then Ok(()) else Err(UnknownFields(fields.Keys - declared))
  }

  /** The JSON value serde writes for an `Option<bool>`. */
  function OptionalBool(o: Option<bool>): Json
  {
    match o
    case None => Null
    case Some(b) => Bool(b)
  }

  lemma OptionalBoolRoundTrip(key: string, o: Option<bool>, fields: map<string, Json>)
    requires key in fields && fields[key] == OptionalBool(o)
    ensures OptionalBoolField(fields, key) == Ok(o)
  {
  }
}
