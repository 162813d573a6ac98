/**
 * The typed events the blog broadcasts to live subscribers.  For each event this module gives
 * the dict a producer hands to `group_send` (a "type" naming the consumer handler and a "data"
 * part) and the JSON object a subscribed browser is meant to receive for it.
 */
module Events {
  import opened Wire

  /** The one group every producer sends to and every consumer joins. */
  const BlogGroup := "blog_updates"

  /** A stored post; its id is its key in the store.  `timestamp` is the post's time already
      formatted as "%Y-%m-%d %H:%M:%S". */
  datatype Post = Post(title: string, description: string, timestamp: string, status: string)

  /** A stored comment; `user` is the commenter's username, `timestamp` is formatted. */
  datatype Comment = Comment(postId: int, user: string, content: string, timestamp: string)

  datatype Event =
    | PostCreated(id: int, post: Post)
    | PostEdited(id: int, post: Post)
    | PostDeleted(id: int)
    | CommentAdded(postId: int, user: string, content: string, timestamp: string)
    | Notice(message: string)

  /** The value of "type": the name of the consumer handler meant to render the event. */
  function Kind(e: Event): string {
    match e
    case PostCreated(_, _) => "blog_post_update"
    case PostEdited(_, _) => "blog_post_edit"
    case PostDeleted(_) => "blog_delete_post"
    case CommentAdded(_, _, _, _) => "new_comment"
    case Notice(_) => "notification"
  }

  /** The "data" dict add_post and update_post build from the saved post. */
  function PostData(id: int, p: Post): Dict {
    map[Id := Int(id), Title := Str(p.title), Description := Str(p.description),
        Timestamp := Str(p.timestamp), Status := Str(p.status)]
  }

  /** The keys the post handlers and the comment handler read from a message's data. */
  const PostKeys: set<Key> := {Id, Title, Description, Timestamp, Status}
  const CommentKeys: set<Key> := {PostId, User, Content, Timestamp}

  /** The "data" entry of the group message: a dict holding exactly the keys the event's handler
      reads, except for a notice, whose data is its text. */
  function DataOf(e: Event): (d: Value)
    ensures d.Str? <==> e.Notice?
    ensures (e.PostCreated? || e.PostEdited?) ==> d.Obj? && d.fields.Keys == PostKeys
    ensures e.PostDeleted? ==> d.Obj? && d.fields.Keys == {Id}
    ensures e.CommentAdded? ==> d.Obj? && d.fields.Keys == CommentKeys
  {
    match e
    case PostCreated(id, p) => Obj(PostData(id, p))
    case PostEdited(id, p) => Obj(PostData(id, p))
    case PostDeleted(id) => Obj(map[Id := Int(id)])
    case CommentAdded(postId, user, content, timestamp) =>
      Obj(map[PostId := Int(postId), User := Str(user), Content := Str(content),
              Timestamp := Str(timestamp)])
    case Notice(message) => Str(message)
  }

  /** The group message {"type": ..., "data": ...} a producer hands to `group_send`. */
  function Payload(e: Event): (m: Dict)
    ensures m.Keys == {Type, Data} && m[Type] == Str(Kind(e))
  {
    map[Type := Str(Kind(e)), Data := DataOf(e)]
  }

  /** Distinct events never produce the same group message: the dict carries the whole event. */
  lemma PayloadDeterminesEvent(e1: Event, e2: Event)
    ensures Payload(e1) == Payload(e2) <==> e1 == e2
  {
  }

  /** The JSON object a subscriber's browser is meant to receive for `e`: its "type" and the
      event's own fields under the client's names, a notice's text under "message". */
  function Frame(e: Event): Dict {
    match e
    case PostCreated(id, p) =>
      map[Type := Str("blog_post_update"), Id := Int(id), Title := Str(p.title),
          Description := Str(p.description), Timestamp := Str(p.timestamp), Status := Str(p.status)]
    case PostEdited(id, p) =>
      map[Type := Str("blog_post_edit"), Id := Int(id), Title := Str(p.title),
          Description := Str(p.description), Timestamp := Str(p.timestamp), Status := Str(p.status)]
    case PostDeleted(id) =>
      map[Type := Str("blog_delete_post"), Id := Int(id)]
    case CommentAdded(postId, user, content, timestamp) =>
      map[Type := Str("new_comment"), PostId := Int(postId), User := Str(user),
          Content := Str(content), Timestamp := Str(timestamp)]
    case Notice(message) =>
      map[Type := Str("notification"), Message := Str(message)]
  }

  /** One `group_send` call that reached the channel layer: the group and the dict sent. */
  datatype Broadcast = Broadcast(group: string, message: Dict)

  /** A `group_send` of `e` to the blog group inside try/except: when the layer cannot be
      reached the exception is logged and swallowed, and nothing reaches the layer. */
  function Emit(e: Event, layerUp: bool): (sent: seq<Broadcast>)
    ensures |sent| == (if layerUp then 1 else 0)
    ensures forall b :: b in sent ==> b.group == BlogGroup && b.message == Payload(e)
  {
    if layerUp then [Broadcast(BlogGroup, Payload(e))] else []
  }
}
