/**
 * The content views that change the store and broadcast: add_post, update_post, delete_post
 * and add_comment, and the read-only get_comments.  Each changing view is given twice: as a
 * function from the situation to an Outcome (response, new store, broadcasts that reached the
 * channel layer), and as a method of `Site` that performs the same steps in place and is proved
 * to agree with it.  Environment faults (a failing save, an unreachable channel layer) are
 * inputs.
 */
module Views {
  import opened Wire
  import opened Events
  import Signals
  import Consumers

  const LoginPage := "/login/"
  /** Where `login_required` sends anonymous users: Django's default LOGIN_URL. */
  const DefaultLoginUrl := "/accounts/login/"
  const Home := "/"
  const Dashboard := "/dashboard/"
  const AddPostTemplate := "blog/addpost.html"
  const UpdatePostTemplate := "blog/updatepost.html"
  const SaveError := "An error occurred while saving the post."

  /** What a view uses of the request: whether the user is logged in, their username, and
      whether the method is POST. */
  datatype Request = Request(authenticated: bool, username: string, isPost: bool)

  datatype Response =
    | Redirect(location: string)
    | Page(template: string, error: Option<string>)  // a rendered template, status 200
    | Json(status: int, body: Dict)
    | NotAllowed                                      // 405 from require_POST
    | ServerError                                     // 500: an exception escaped the view, or it returned None

  /** The posts by id, the comments in the order they were saved, and the next id the
      database will assign. */
  datatype Store = Store(posts: map<int, Post>, comments: seq<Comment>, nextId: int)

  /** Ids are assigned from 1 upwards and never reused. */
  predicate ValidStore(s: Store) {
    s.nextId >= 1 && forall id :: id in s.posts ==> 1 <= id < s.nextId
  }

  datatype Outcome = Outcome(response: Response, store: Store, sent: seq<Broadcast>)

  /** The JSON body of add_comment as `json.loads` sees it: unparsable, or the values of
      "post_id" and "content" (None when absent or null). */
  datatype CommentBody = Malformed | Fields(postId: Option<int>, content: Option<string>)

  /** Python truthiness of the two inputs of add_comment. */
  predicate IdGiven(v: Option<int>) { v.Some? && v.value != 0 }
  predicate TextGiven(v: Option<string>) { v.Some? && v.value != "" }

  /** add_post.  A successful save writes the post under a fresh id and runs the post-save hook
      (a notification), then the view sends blog_post_update. */
  function AddPostOutcome(s: Store, req: Request, formValid: bool, form: Post, saveOk: bool, layerUp: bool): Outcome {
    if !req.authenticated then Outcome(Redirect(LoginPage), s, [])
    else if !req.isPost || !formValid then Outcome(Page(AddPostTemplate, None), s, [])
    else if !saveOk then Outcome(Page(AddPostTemplate, Some(SaveError)), s, [])
    else
      var id := s.nextId;
      Outcome(Redirect(Home), s.(posts := s.posts[id := form], nextId := id + 1),
              Signals.SendNotification(form, true, layerUp) + Emit(PostCreated(id, form), layerUp))
  }

  /** update_post.  On POST a missing id goes to the dashboard; a valid form is saved (an error
      in that save is not caught), the post-save hook runs, then the view sends
      blog_post_edit.  A GET of a missing id is not caught either. */
  function UpdatePostOutcome(s: Store, req: Request, id: int, formValid: bool, form: Post, saveOk: bool, layerUp: bool): Outcome {
    if !req.authenticated then Outcome(Redirect(LoginPage), s, [])
    else if req.isPost then
      if id !in s.posts then Outcome(Redirect(Dashboard), s, [])
      else if !formValid then Outcome(Page(UpdatePostTemplate, None), s, [])
      else if !saveOk then Outcome(ServerError, s, [])
      else
        Outcome(Redirect(Home), s.(posts := s.posts[id := form]),
                Signals.SendNotification(form, false, layerUp) + Emit(PostEdited(id, form), layerUp))
    else if id !in s.posts then Outcome(ServerError, s, [])
    else Outcome(Page(UpdatePostTemplate, None), s, [])
  }

  /** delete_post.  Only POST is handled; any other method falls off the end of the view, which
      then returns None.  An error in the delete itself is not caught. */
  function DeletePostOutcome(s: Store, req: Request, id: int, deleteOk: bool, layerUp: bool): Outcome {
    if !req.authenticated then Outcome(Redirect(LoginPage), s, [])
    else if !req.isPost then Outcome(ServerError, s, [])
    else if id !in s.posts then Outcome(Redirect(Dashboard), s, [])
    else if !deleteOk then Outcome(ServerError, s, [])
    else Outcome(Redirect(Dashboard), s.(posts := s.posts - {id}), Emit(PostDeleted(id), layerUp))
  }

  /** add_comment, behind login_required and require_POST.  Its broadcast is not inside a try,
      so an unreachable layer turns an already saved comment into a 500. */
  function AddCommentOutcome(s: Store, req: Request, body: CommentBody, saveOk: bool, now: string, layerUp: bool): Outcome {
    if !req.authenticated then Outcome(Redirect(DefaultLoginUrl), s, [])
    else if !req.isPost then Outcome(NotAllowed, s, [])
    else match body
      case Malformed => Outcome(ServerError, s, [])
      case Fields(postId, content) =>
        if !IdGiven(postId) || !TextGiven(content) then Outcome(Json(400, map[Error := Str("Invalid input")]), s, [])
        else if postId.value !in s.posts then Outcome(Json(404, map[Error := Str("Post not found")]), s, [])
        else if !saveOk then Outcome(Json(500, map[Error := Str("Failed to add comment")]), s, [])
        else
          var saved := s.(comments := s.comments + [Comment(postId.value, req.username, content.value, now)]);
          if layerUp then
            Outcome(Json(200, map[Message := Str("Comment added successfully")]), saved,
                    [Broadcast(BlogGroup, Payload(CommentAdded(postId.value, req.username, content.value, now)))])
          else Outcome(ServerError, saved, [])
  }

  /** One entry of get_comments. */
  function CommentEntry(c: Comment): Value {
    Obj(map[User := Str(c.user), Content := Str(c.content), Timestamp := Str(c.timestamp)])
  }

  /** get_comments over the rows the database returns for the post, newest first: one entry per
      row, in that order, each with exactly user, content and timestamp. */
  function GetComments(rows: seq<Comment>): (r: Response)
    ensures r.Json? && r.status == 200 && r.body.Keys == {Comments} && r.body[Comments].Arr?
    ensures rows == [] ==> r.body[Comments] == Arr([])
    ensures |r.body[Comments].items| == |rows|
    ensures forall i :: 0 <= i < |rows| ==>
      r.body[Comments].items[i].Obj? && r.body[Comments].items[i].fields.Keys == {User, Content, Timestamp} &&
      r.body[Comments].items[i].fields[User] == Str(rows[i].user) &&
      r.body[Comments].items[i].fields[Content] == Str(rows[i].content) &&
      r.body[Comments].items[i].fields[Timestamp] == Str(rows[i].timestamp)
  {
    if rows == [] then Json(200, map[Comments := Arr([])])
    else Json(200, map[Comments := Arr(seq(|rows|, i requires 0 <= i < |rows| => CommentEntry(rows[i])))])
  }

  /** Anonymous callers of add_post, update_post and delete_post are sent to the login page;
      nothing is saved, deleted or sent. */
  lemma PostViewsRequireLogin(s: Store, req: Request, id: int, formValid: bool, form: Post, saveOk: bool, layerUp: bool)
    requires !req.authenticated
    ensures AddPostOutcome(s, req, formValid, form, saveOk, layerUp) == Outcome(Redirect(LoginPage), s, [])
    ensures UpdatePostOutcome(s, req, id, formValid, form, saveOk, layerUp) == Outcome(Redirect(LoginPage), s, [])
    ensures DeletePostOutcome(s, req, id, saveOk, layerUp) == Outcome(Redirect(LoginPage), s, [])
  {
  }

  /** add_post sends only after the save succeeded; a failing save re-renders the form with the
      error and changes nothing. */
  lemma AddPostSendsOnlyAfterSave(s: Store, req: Request, formValid: bool, form: Post, saveOk: bool, layerUp: bool)
    ensures var o := AddPostOutcome(s, req, formValid, form, saveOk, layerUp);
      o.sent != [] ==> req.authenticated && req.isPost && formValid && saveOk && s.nextId in o.store.posts
    ensures req.authenticated && req.isPost && formValid && !saveOk ==>
      AddPostOutcome(s, req, formValid, form, saveOk, layerUp) == Outcome(Page(AddPostTemplate, Some(SaveError)), s, [])
  {
  }

  /** A successful add_post stores the post under a fresh id, redirects home, and sends the
      creation notice and then blog_post_update with exactly id, title, description, timestamp
      and status. */
  lemma AddPostSuccess(s: Store, req: Request, form: Post, layerUp: bool)
    requires ValidStore(s) && req.authenticated && req.isPost
    ensures var o := AddPostOutcome(s, req, true, form, true, layerUp);
      && o.response == Redirect(Home)
      && s.nextId !in s.posts && o.store.posts == s.posts[s.nextId := form] && ValidStore(o.store)
      && o.store.comments == s.comments && o.store.nextId == s.nextId + 1
      && (layerUp ==> o.sent == [
           Broadcast(BlogGroup, map[Type := Str("notification"),
                                    Data := Str(Signals.NotificationText(form.title, true))]),
           Broadcast(BlogGroup, map[Type := Str("blog_post_update"),
                                    Data := Obj(map[Id := Int(s.nextId), Title := Str(form.title),
                                                    Description := Str(form.description),
                                                    Timestamp := Str(form.timestamp), Status := Str(form.status)])])])
  {
  }

  /** A successful update_post replaces the post, redirects home, and sends the update notice
      and then blog_post_edit with the saved fields. */
  lemma UpdatePostSuccess(s: Store, req: Request, id: int, form: Post, layerUp: bool)
    requires ValidStore(s) && req.authenticated && req.isPost && id in s.posts
    ensures var o := UpdatePostOutcome(s, req, id, true, form, true, layerUp);
      && o.response == Redirect(Home)
      && o.store.posts == s.posts[id := form] && o.store.comments == s.comments && ValidStore(o.store)
      && (layerUp ==> o.sent == [
           Broadcast(BlogGroup, map[Type := Str("notification"),
                                    Data := Str(Signals.NotificationText(form.title, false))]),
           Broadcast(BlogGroup, map[Type := Str("blog_post_edit"),
                                    Data := Obj(map[Id := Int(id), Title := Str(form.title),
                                                    Description := Str(form.description),
                                                    Timestamp := Str(form.timestamp), Status := Str(form.status)])])])
  {
  }

  /** A POST to update_post or delete_post for an id with no post goes to the dashboard and
      changes and sends nothing. */
  lemma MissingPostGoesToDashboard(s: Store, req: Request, id: int, formValid: bool, form: Post, saveOk: bool, layerUp: bool)
    requires req.authenticated && req.isPost && id !in s.posts
    ensures UpdatePostOutcome(s, req, id, formValid, form, saveOk, layerUp) == Outcome(Redirect(Dashboard), s, [])
    ensures DeletePostOutcome(s, req, id, saveOk, layerUp) == Outcome(Redirect(Dashboard), s, [])
  {
  }

  /** A successful delete_post removes the post, sends blog_delete_post carrying only the id,
      and goes to the dashboard. */
  lemma DeletePostSuccess(s: Store, req: Request, id: int, layerUp: bool)
    requires ValidStore(s) && req.authenticated && req.isPost && id in s.posts
    ensures var o := DeletePostOutcome(s, req, id, true, layerUp);
      && o.response == Redirect(Dashboard)
      && id !in o.store.posts && o.store.posts == s.posts - {id} && ValidStore(o.store)
      && (layerUp ==> o.sent == [Broadcast(BlogGroup, map[Type := Str("blog_delete_post"), Data := Obj(map[Id := Int(id)])])])
  {
  }

  /** In add_post, update_post and delete_post an unreachable channel layer is swallowed: the
      response and the store are those of a successful send, and nothing is sent. */
  lemma BroadcastFailureIsSwallowed(s: Store, req: Request, id: int, formValid: bool, form: Post, saveOk: bool)
    ensures var up := AddPostOutcome(s, req, formValid, form, saveOk, true);
      var down := AddPostOutcome(s, req, formValid, form, saveOk, false);
      up.response == down.response && up.store == down.store && down.sent == []
    ensures var up := UpdatePostOutcome(s, req, id, formValid, form, saveOk, true);
      var down := UpdatePostOutcome(s, req, id, formValid, form, saveOk, false);
      up.response == down.response && up.store == down.store && down.sent == []
    ensures var up := DeletePostOutcome(s, req, id, saveOk, true);
      var down := DeletePostOutcome(s, req, id, saveOk, false);
      up.response == down.response && up.store == down.store && down.sent == []
  {
  }

  /** The outcomes of add_comment for a logged-in POST with a parsable body: 400 for a missing or
      falsy post_id or content, 404 for an unknown post, 500 for a failing save, none of which
      changes or sends anything; otherwise the comment is saved and, if the layer is up,
      new_comment is sent and 200 returned, else the send error escapes as a 500. */
  lemma AddCommentOutcomes(s: Store, req: Request, postId: Option<int>, content: Option<string>, saveOk: bool, now: string, layerUp: bool)
    requires req.authenticated && req.isPost
    ensures var o := AddCommentOutcome(s, req, Fields(postId, content), saveOk, now, layerUp);
      && (o.response.Json? && o.response.status == 400 <==> !IdGiven(postId) || !TextGiven(content))
      && (o.response.Json? && o.response.status == 404 <==>
            IdGiven(postId) && TextGiven(content) && postId.value !in s.posts)
      && (o.response.Json? && o.response.status == 500 <==>
            IdGiven(postId) && TextGiven(content) && postId.value in s.posts && !saveOk)
      && (o.store != s <==> IdGiven(postId) && TextGiven(content) && postId.value in s.posts && saveOk)
      && (o.sent != [] <==> o.response.Json? && o.response.status == 200)
      && (o.response.Json? && o.response.status == 200 <==>
            IdGiven(postId) && TextGiven(content) && postId.value in s.posts && saveOk && layerUp)
  {
    var o := AddCommentOutcome(s, req, Fields(postId, content), saveOk, now, layerUp);
    if IdGiven(postId) && TextGiven(content) && postId.value in s.posts && saveOk {
      assert |o.store.comments| == |s.comments| + 1;
    }
  }

  /** A saved comment is announced with exactly the saved post id, username, content and time. */
  lemma AddCommentSuccess(s: Store, req: Request, postId: int, content: string, now: string)
    requires req.authenticated && req.isPost && postId != 0 && content != "" && postId in s.posts
    ensures var o := AddCommentOutcome(s, req, Fields(Some(postId), Some(content)), true, now, true);
      && o.response == Json(200, map[Message := Str("Comment added successfully")])
      && o.store.comments == s.comments + [Comment(postId, req.username, content, now)]
      && o.store.posts == s.posts
      && o.sent == [Broadcast(BlogGroup, map[Type := Str("new_comment"),
                     Data := Obj(map[PostId := Int(postId), User := Str(req.username),
                                     Content := Str(content), Timestamp := Str(now)])])]
  {
  }

  /** Every broadcast goes to the group consumers join and is accepted by a consumer handler. */
  predicate Handled(sent: seq<Broadcast>) {
    forall i :: 0 <= i < |sent| ==> sent[i].group == BlogGroup && Consumers.Dispatch(sent[i].message).Success?
  }

  /** A broadcast of any event a producer builds is handled. */
  lemma EmitHandled(e: Event, layerUp: bool)
    ensures Handled(Emit(e, layerUp))
  {
    if layerUp {
      Consumers.HandlersAcceptEveryEvent(e);
    }
  }

  lemma HandledConcat(a: seq<Broadcast>, b: seq<Broadcast>)
    requires Handled(a) && Handled(b)
    ensures Handled(a + b)
  {
    forall i | 0 <= i < |a + b|
      ensures (a + b)[i].group == BlogGroup && Consumers.Dispatch((a + b)[i].message).Success?
    {
      if i >= |a| {
        assert (a + b)[i] == b[i - |a|];
      }
    }
  }

  /** The post-save hook's notification followed by a view's own broadcast is handled. */
  lemma SaveSendsHandled(form: Post, created: bool, e: Event, layerUp: bool)
    ensures Handled(Signals.SendNotification(form, created, layerUp) + Emit(e, layerUp))
  {
    EmitHandled(Notice(Signals.NotificationText(form.title, created)), layerUp);
    EmitHandled(e, layerUp);
    HandledConcat(Signals.SendNotification(form, created, layerUp), Emit(e, layerUp));
  }

  /** Across the files: whatever the situation, every broadcast of every view goes to
      "blog_updates", the group a consumer joins on connect, and supplies every key the handler
      its type names reads, so no handler can fail on it. */
  lemma EveryBroadcastIsHandled(s: Store, req: Request, id: int, formValid: bool, form: Post, saveOk: bool,
                                body: CommentBody, now: string, layerUp: bool)
    ensures Handled(AddPostOutcome(s, req, formValid, form, saveOk, layerUp).sent)
    ensures Handled(UpdatePostOutcome(s, req, id, formValid, form, saveOk, layerUp).sent)
    ensures Handled(DeletePostOutcome(s, req, id, saveOk, layerUp).sent)
    ensures Handled(AddCommentOutcome(s, req, body, saveOk, now, layerUp).sent)
  {
    SaveSendsHandled(form, true, PostCreated(s.nextId, form), layerUp);
    SaveSendsHandled(form, false, PostEdited(id, form), layerUp);
    EmitHandled(PostDeleted(id), layerUp);
    if body.Fields? && IdGiven(body.postId) && TextGiven(body.content) {
      EmitHandled(CommentAdded(body.postId.value, req.username, body.content.value, now), layerUp);
    }
  }

  /** Every view keeps ids fresh and in range. */
  lemma ViewsKeepStoreValid(s: Store, req: Request, id: int, formValid: bool, form: Post, saveOk: bool,
                            body: CommentBody, now: string, layerUp: bool)
    requires ValidStore(s)
    ensures ValidStore(AddPostOutcome(s, req, formValid, form, saveOk, layerUp).store)
    ensures ValidStore(UpdatePostOutcome(s, req, id, formValid, form, saveOk, layerUp).store)
    ensures ValidStore(DeletePostOutcome(s, req, id, saveOk, layerUp).store)
    ensures ValidStore(AddCommentOutcome(s, req, body, saveOk, now, layerUp).store)
  {
  }

  /** The blog's database and the broadcasts it has handed to the channel layer; every one of
      them went to the consumers' group and is accepted by a handler. */
  class Site {
    var posts: map<int, Post>
    var comments: seq<Comment>
    var nextId: int
    var sent: seq<Broadcast>

    function State(): Store
      reads this
    {
      Store(posts, comments, nextId)
    }

    ghost predicate Valid()
      reads this
    {
      ValidStore(State()) && Handled(sent)
    }

    constructor ()
      ensures Valid() && State() == Store(map[], [], 1) && sent == []
    {
      posts := map[];
      comments := [];
      nextId := 1;
      sent := [];
    }

    method AddPost(req: Request, formValid: bool, form: Post, saveOk: bool, layerUp: bool) returns (response: Response)
      requires Valid()
      modifies this
      ensures Valid()
      ensures var o := AddPostOutcome(old(State()), req, formValid, form, saveOk, layerUp);
        response == o.response && State() == o.store && sent == old(sent) + o.sent
    {
      if !req.authenticated {
        return Redirect(LoginPage);
      }
      if !req.isPost || !formValid {
        return Page(AddPostTemplate, None);
      }
      if !saveOk {
        return Page(AddPostTemplate, Some(SaveError));
      }
      // post.save(): the row is written under the next id, then the post-save hook runs
      var id := nextId;
      posts := posts[id := form];
      nextId := nextId + 1;
      // the post-save hook's notification, then the view's own broadcast
      var news := Signals.SendNotification(form, true, layerUp) + Emit(PostCreated(id, form), layerUp);
      SaveSendsHandled(form, true, PostCreated(id, form), layerUp);
      HandledConcat(sent, news);
      sent := sent + news;
      response := Redirect(Home);
    }

    method UpdatePost(req: Request, id: int, formValid: bool, form: Post, saveOk: bool, layerUp: bool) returns (response: Response)
      requires Valid()
      modifies this
      ensures Valid()
      ensures var o := UpdatePostOutcome(old(State()), req, id, formValid, form, saveOk, layerUp);
        response == o.response && State() == o.store && sent == old(sent) + o.sent
    {
      if !req.authenticated {
        return Redirect(LoginPage);
      }
      if !req.isPost {
        if id !in posts {
          return ServerError;
        }
        return Page(UpdatePostTemplate, None);
      }
      if id !in posts {
        return Redirect(Dashboard);
      }
      if !formValid {
        return Page(UpdatePostTemplate, None);
      }
      if !saveOk {
        return ServerError;
      }
      // form.save(): the row is rewritten, then the post-save hook runs
      posts := posts[id := form];
      var news := Signals.SendNotification(form, false, layerUp) + Emit(PostEdited(id, form), layerUp);
      SaveSendsHandled(form, false, PostEdited(id, form), layerUp);
      HandledConcat(sent, news);
      sent := sent + news;
      response := Redirect(Home);
    }

    method DeletePost(req: Request, id: int, deleteOk: bool, layerUp: bool) returns (response: Response)
      requires Valid()
      modifies this
      ensures Valid()
      ensures var o := DeletePostOutcome(old(State()), req, id, deleteOk, layerUp);
        response == o.response && State() == o.store && sent == old(sent) + o.sent
    {
      if !req.authenticated {
        return Redirect(LoginPage);
      }
      if !req.isPost {
        return ServerError;
      }
      if id !in posts {
        return Redirect(Dashboard);
      }
      if !deleteOk {
        return ServerError;
      }
      posts := posts - {id};
      var news := Emit(PostDeleted(id), layerUp);
      EmitHandled(PostDeleted(id), layerUp);
      HandledConcat(sent, news);
      sent := sent + news;
      response := Redirect(Dashboard);
    }

    method AddComment(req: Request, body: CommentBody, saveOk: bool, now: string, layerUp: bool) returns (response: Response)
      requires Valid()
      modifies this
      ensures Valid()
      ensures var o := AddCommentOutcome(old(State()), req, body, saveOk, now, layerUp);
        response == o.response && State() == o.store && sent == old(sent) + o.sent
    {
      if !req.authenticated {
        return Redirect(DefaultLoginUrl);
      }
      if !req.isPost {
        return NotAllowed;
      }
      if body.Malformed? {
        return ServerError;
      }
      var postId, content := body.postId, body.content;
      if !IdGiven(postId) || !TextGiven(content) {
        return Json(400, map[Error := Str("Invalid input")]);
      }
      if postId.value !in posts {
        return Json(404, map[Error := Str("Post not found")]);
      }
      if !saveOk {
        return Json(500, map[Error := Str("Failed to add comment")]);
      }
      comments := comments + [Comment(postId.value, req.username, content.value, now)];
      if !layerUp {
        // the send is not guarded: its exception escapes the view
        return ServerError;
      }
      var news := Emit(CommentAdded(postId.value, req.username, content.value, now), layerUp);
      EmitHandled(CommentAdded(postId.value, req.username, content.value, now), layerUp);
      HandledConcat(sent, news);
      sent := sent + news;
      response := Json(200, map[Message := Str("Comment added successfully")]);
    }
  }
}
