/**
 * The WebSocket consumer of the blog: its connect/disconnect lifecycle against the channel
 * layer, and the five handlers that turn a group message into the JSON object written to the
 * browser.  Handlers index Python dicts, so each is modelled on dicts and fails where the
 * Python would raise.
 */
module Consumers {
  import opened Wire
  import opened Events
  import opened ChannelLayers

  /** Why a handler raises instead of sending. */
  datatype Fault =
    | MissingKey(key: Key)  // KeyError from event[...] or data[...]
    | NotADict                 // TypeError from indexing a data value that is not a dict
    | NoHandler                // the message's "type" names none of the consumer's handlers

  /** The order in which the handlers' dict literals read the keys of the data. */
  const PostOrder: seq<Key> := [Id, Title, Description, Timestamp, Status]
  const CommentOrder: seq<Key> := [PostId, User, Content, Timestamp]

  /** The dict literal of blog_post_update and blog_post_edit over `data = event["data"]`.
      Python evaluates the entries in order, so the first key `data` lacks raises. */
  function PostMessage(kind: string, event: Dict): (r: Result<Dict, Fault>)
    ensures r.Success? <==> Data in event && event[Data].Obj? && PostKeys <= event[Data].fields.Keys
    ensures r.Success? ==> r.value.Keys == {Type} + PostKeys && r.value[Type] == Str(kind)
    ensures r.Success? ==> forall k :: k in PostKeys ==> r.value[k] == event[Data].fields[k]
    ensures Data !in event ==> r == Failure(MissingKey(Data))
    ensures Data in event && !event[Data].Obj? ==> r == Failure(NotADict)
    ensures Data in event && event[Data].Obj? ==>
      forall i :: (0 <= i < |PostOrder| && PostOrder[i] !in event[Data].fields
                   && forall j :: 0 <= j < i ==> PostOrder[j] in event[Data].fields)
        ==> r == Failure(MissingKey(PostOrder[i]))
  {
    if Data !in event then Failure(MissingKey(Data))
    else match event[Data]
      case Obj(data) =>
        assert PostOrder[0] == Id && PostOrder[1] == Title && PostOrder[2] == Description
            && PostOrder[3] == Timestamp && PostOrder[4] == Status;
        if Id !in data then Failure(MissingKey(Id))
        else if Title !in data then Failure(MissingKey(Title))
        else if Description !in data then Failure(MissingKey(Description))
        else if Timestamp !in data then Failure(MissingKey(Timestamp))
        else if Status !in data then Failure(MissingKey(Status))
        else Success(map[Type := Str(kind), Id := data[Id], Title := data[Title],
                         Description := data[Description], Timestamp := data[Timestamp], Status := data[Status]])
      case _ => Failure(NotADict)
  }

  /** blog_post_update: exactly type, id, title, description, timestamp and status, the last
      five copied unchanged from the event's data. */
  function BlogPostUpdate(event: Dict): (r: Result<Dict, Fault>)
    ensures r.Success? <==> Data in event && event[Data].Obj? && PostKeys <= event[Data].fields.Keys
    ensures r.Success? ==> r.value.Keys == {Type} + PostKeys && r.value[Type] == Str("blog_post_update")
    ensures r.Success? ==> forall k :: k in PostKeys ==> r.value[k] == event[Data].fields[k]
  {
    PostMessage("blog_post_update", event)
  }

  /** blog_post_edit: the same five fields as blog_post_update, with type "blog_post_edit". */
  function BlogPostEdit(event: Dict): (r: Result<Dict, Fault>)
    ensures r.Success? <==> Data in event && event[Data].Obj? && PostKeys <= event[Data].fields.Keys
    ensures r.Success? ==> r.value.Keys == {Type} + PostKeys && r.value[Type] == Str("blog_post_edit")
    ensures r.Success? ==> forall k :: k in PostKeys ==> r.value[k] == event[Data].fields[k]
  {
    PostMessage("blog_post_edit", event)
  }

  /** blog_delete_post: only type and id. */
  function BlogDeletePost(event: Dict): (r: Result<Dict, Fault>)
    ensures r.Success? <==> Data in event && event[Data].Obj? && Id in event[Data].fields
    ensures r.Success? ==> r.value.Keys == {Type, Id} && r.value[Type] == Str("blog_delete_post")
    ensures r.Success? ==> r.value[Id] == event[Data].fields[Id]
    ensures Data !in event ==> r == Failure(MissingKey(Data))
    ensures Data in event && !event[Data].Obj? ==> r == Failure(NotADict)
    ensures Data in event && event[Data].Obj? && Id !in event[Data].fields ==> r == Failure(MissingKey(Id))
  {
    if Data !in event then Failure(MissingKey(Data))
    else match event[Data]
      case Obj(data) =>
        if Id !in data then Failure(MissingKey(Id))
        else Success(map[Type := Str("blog_delete_post"), Id := data[Id]])
      case _ => Failure(NotADict)
  }

  /** new_comment: exactly type, post_id, user, content and timestamp, copied from the data. */
  function NewComment(event: Dict): (r: Result<Dict, Fault>)
    ensures r.Success? <==> Data in event && event[Data].Obj? && CommentKeys <= event[Data].fields.Keys
    ensures r.Success? ==> r.value.Keys == {Type} + CommentKeys && r.value[Type] == Str("new_comment")
    ensures r.Success? ==> forall k :: k in CommentKeys ==> r.value[k] == event[Data].fields[k]
    ensures Data !in event ==> r == Failure(MissingKey(Data))
    ensures Data in event && !event[Data].Obj? ==> r == Failure(NotADict)
    ensures Data in event && event[Data].Obj? ==>
      forall i :: (0 <= i < |CommentOrder| && CommentOrder[i] !in event[Data].fields
                   && forall j :: 0 <= j < i ==> CommentOrder[j] in event[Data].fields)
        ==> r == Failure(MissingKey(CommentOrder[i]))
  {
    if Data !in event then Failure(MissingKey(Data))
    else match event[Data]
      case Obj(data) =>
        assert CommentOrder[0] == PostId && CommentOrder[1] == User && CommentOrder[2] == Content
            && CommentOrder[3] == Timestamp;
        if PostId !in data then Failure(MissingKey(PostId))
        else if User !in data then Failure(MissingKey(User))
        else if Content !in data then Failure(MissingKey(Content))
        else if Timestamp !in data then Failure(MissingKey(Timestamp))
        else Success(map[Type := Str("new_comment"), PostId := data[PostId], User := data[User],
                         Content := data[Content], Timestamp := data[Timestamp]])
      case _ => Failure(NotADict)
  }

  /** notification: type "notification" and a message that is the whole data value (a string as
      the producers send it, but any value is passed through). */
  function Notification(event: Dict): (r: Result<Dict, Fault>)
    ensures r.Success? <==> Data in event
    ensures Data !in event ==> r == Failure(MissingKey(Data))
    ensures r.Success? ==> r.value.Keys == {Type, Message}
    ensures r.Success? ==> r.value[Type] == Str("notification") && r.value[Message] == event[Data]
  {
    if Data !in event then Failure(MissingKey(Data))
    else Success(map[Type := Str("notification"), Message := event[Data]])
  }

  /** The consumer runs the handler its "type" names; a successful handler's message carries the
      same "type" it was dispatched on. */
  function Dispatch(event: Dict): (r: Result<Dict, Fault>)
    ensures Type !in event ==> r == Failure(MissingKey(Type))
    ensures Type in event && event[Type] == Str("blog_post_update") ==> r == BlogPostUpdate(event)
    ensures Type in event && event[Type] == Str("blog_post_edit") ==> r == BlogPostEdit(event)
    ensures Type in event && event[Type] == Str("blog_delete_post") ==> r == BlogDeletePost(event)
    ensures Type in event && event[Type] == Str("new_comment") ==> r == NewComment(event)
    ensures Type in event && event[Type] == Str("notification") ==> r == Notification(event)
    ensures r.Success? ==> Type in event && Type in r.value && r.value[Type] == event[Type]
    ensures (Type in event && event[Type] !in {Str("blog_post_update"), Str("blog_post_edit"),
      Str("blog_delete_post"), Str("new_comment"), Str("notification")}) ==> r == Failure(NoHandler)
  {
    if Type !in event then Failure(MissingKey(Type))
    else match event[Type]
      case Str("blog_post_update") => BlogPostUpdate(event)
      case Str("blog_post_edit") => BlogPostEdit(event)
      case Str("blog_delete_post") => BlogDeletePost(event)
      case Str("new_comment") => NewComment(event)
      case Str("notification") => Notification(event)
      case _ => Failure(NoHandler)
  }

  /** blog_post_update accepts the event add_post builds and writes exactly its frame. */
  lemma PostCreatedHandled(id: int, p: Post)
    ensures Dispatch(Payload(PostCreated(id, p))) == Success(Frame(PostCreated(id, p)))
  {
  }

  /** blog_post_edit accepts the event update_post builds and writes exactly its frame. */
  lemma PostEditedHandled(id: int, p: Post)
    ensures Dispatch(Payload(PostEdited(id, p))) == Success(Frame(PostEdited(id, p)))
  {
  }

  /** new_comment accepts the event add_comment builds and writes exactly its frame. */
  lemma CommentAddedHandled(postId: int, user: string, content: string, timestamp: string)
    ensures Dispatch(Payload(CommentAdded(postId, user, content, timestamp)))
         == Success(Frame(CommentAdded(postId, user, content, timestamp)))
  {
  }

  /** Every event a producer can build names a handler and supplies every key that handler
      reads, and the handler writes exactly the message meant for that event. */
  lemma HandlersAcceptEveryEvent(e: Event)
    ensures Dispatch(Payload(e)) == Success(Frame(e))
  {
    match e
    case PostCreated(id, p) => PostCreatedHandled(id, p);
    case PostEdited(id, p) => PostEditedHandled(id, p);
    case PostDeleted(id) =>
      assert Dispatch(Payload(e)) == BlogDeletePost(Payload(e));
    case CommentAdded(postId, user, content, timestamp) =>
      CommentAddedHandled(postId, user, content, timestamp);
    case Notice(message) =>
      assert Dispatch(Payload(e)) == Notification(Payload(e));
  }

  /** One live WebSocket connection and the frames written to its browser. */
  class BlogConsumer {
    const channelName: string
    const layer: ChannelLayer
    var groupName: Option<string>
    var accepted: bool
    var sent: seq<Dict>

    constructor (channelName: string, layer: ChannelLayer)
      ensures this.channelName == channelName && this.layer == layer
      ensures groupName == None && !accepted && sent == []
    {
      this.channelName := channelName;
      this.layer := layer;
      groupName := None;
      accepted := false;
      sent := [];
    }

    /** Names the group, joins "blog_updates" and then accepts: afterwards the channel is a
        member.  When the layer cannot be reached, `group_add` raises before `accept`, so the
        group is named but nothing joins and the connection is not accepted. */
    method Connect(layerUp: bool)
      modifies this, layer
      ensures groupName == Some(BlogGroup) && sent == old(sent)
      ensures layer.queues == old(layer.queues)
      ensures layerUp ==> accepted && layer.groups == Join(old(layer.groups), BlogGroup, channelName)
      ensures layerUp ==> channelName in Members(layer.groups, BlogGroup)
      ensures !layerUp ==> accepted == old(accepted) && layer.groups == old(layer.groups)
    {
      groupName := Some(BlogGroup);
      if !layerUp {
        // the exception of group_add leaves connect here
        return;
      }
      layer.GroupAdd(BlogGroup, channelName);
      accepted := true;
    }

    /** Leaves the same literal group `Connect` joined: afterwards the channel is not a member.
        When the layer cannot be reached, `group_discard` raises and the membership stays. */
    method Disconnect(closeCode: int, layerUp: bool)
      modifies layer
      ensures layer.queues == old(layer.queues)
      ensures layerUp ==> layer.groups == Leave(old(layer.groups), BlogGroup, channelName)
      ensures layerUp ==> channelName !in Members(layer.groups, BlogGroup)
      ensures !layerUp ==> layer.groups == old(layer.groups)
    {
      if layerUp {
        layer.GroupDiscard(BlogGroup, channelName);
      }
    }

    /** Takes the next group message queued for this channel and runs its handler; a handler that
        succeeds writes its message to the browser, one that raises writes nothing. */
    method HandleNext() returns (r: Option<Result<Dict, Fault>>)
      modifies this`sent, layer
      ensures layer.groups == old(layer.groups)
      ensures Queue(old(layer.queues), channelName) == [] ==>
        r == None && layer.queues == old(layer.queues) && sent == old(sent)
      ensures Queue(old(layer.queues), channelName) != [] ==>
        var event := old(layer.queues)[channelName][0];
        && r == Some(Dispatch(event))
        && layer.queues == old(layer.queues)[channelName := old(layer.queues)[channelName][1..]]
        && sent == old(sent) + (if Dispatch(event).Success? then [Dispatch(event).value] else [])
    {
      var m := layer.Receive(channelName);
      match m
      case None =>
        r := None;
      case Some(event) =>
        var out := Dispatch(event);
        if out.Success? {
          sent := sent + [out.value];
        }
        r := Some(out);
    }
  }

  /** Two browsers connect and a post is created and sent to the group: both receive a
      blog_post_update carrying exactly that post's fields. */
  method TwoSubscribersScenario()
  {
    var layer := new ChannelLayer();
    var a := new BlogConsumer("a", layer);
    var b := new BlogConsumer("b", layer);
    a.Connect(true);
    b.Connect(true);
    var e := PostCreated(1, Post("Hi", "d", "2024-01-01 00:00:00", "Ongoing"));
    layer.GroupSend(BlogGroup, Payload(e));
    assert Queue(layer.queues, "a") == [Payload(e)];
    var ra := a.HandleNext();
    assert Queue(layer.queues, "b") == [Payload(e)];
    var rb := b.HandleNext();
    PostCreatedHandled(1, Post("Hi", "d", "2024-01-01 00:00:00", "Ongoing"));
    assert a.sent == [Frame(e)] && b.sent == [Frame(e)];
  }

  /** A browser connects and then disconnects before a comment is sent to the group: nothing is
      queued for it and nothing is written to it. */
  method DepartedSubscriberScenario()
  {
    var layer := new ChannelLayer();
    var gone := new BlogConsumer("gone", layer);
    gone.Connect(true);
    gone.Disconnect(1000, true);
    layer.GroupSend(BlogGroup, Payload(CommentAdded(5, "alice", "nice", "2024-01-01 00:00:01")));
    var r := gone.HandleNext();
    assert r == None && gone.sent == [];
  }
}
