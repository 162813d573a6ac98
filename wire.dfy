/**
 * JSON values as the blog exchanges them: the dicts producers hand to the channel layer,
 * the objects consumers write to browsers, and the bodies of JSON responses.
 * Field order of a JSON object is not significant, so an object is a map.
 */
module Wire {

  datatype Option<+T> = None | Some(value: T)

  datatype Result<+T, +E> = Success(value: T) | Failure(error: E)

  /** The field names the blog's dicts and JSON objects use. */
  datatype Key =
    | Type | Data | Id | Title | Description | Timestamp | Status
    | PostId | User | Content | Message | Error | Comments

  /** How each key is written in the Python source and on the wire. */
  function Spelling(k: Key): string {
    match k
    case Type => "type"
    case Data => "data"
    case Id => "id"
    case Title => "title"
    case Description => "description"
    case Timestamp => "timestamp"
    case Status => "status"
    case PostId => "post_id"
    case User => "user"
    case Content => "content"
    case Message => "message"
    case Error => "error"
    case Comments => "comments"
  }

  datatype Value =
    | Int(i: int)
    | Str(s: string)
    | Arr(items: seq<Value>)
    | Obj(fields: map<Key, Value>)

  /** A Python dict whose keys are among the names above. */
  type Dict = map<Key, Value>
}
