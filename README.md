# Live updates of a Django blog, modelled in Dafny

This project models the real-time part of a small Django blog. Authors add, edit and delete
posts, and readers add comments. Each change is sent through a Channels channel layer to the
group `"blog_updates"`. Every open WebSocket connection joins that group on connect, and its
consumer turns each group message into a JSON object written to the browser.

The model has five modules:

- `Wire` (wire.dfy): JSON values. A dict is a map from an enumeration of the field names the
  code uses; `Spelling` gives each name's text.
- `Events` (events.dfy): the five typed events. For each event it gives the dict a producer
  hands to `group_send` (`Payload`) and the object a browser is meant to receive (`Frame`).
  `Emit` is a `group_send` inside try/except.
- `ChannelLayers` (channel_layer.dfy): an explicit abstraction of the channel layer. It holds
  group membership and, per channel, the group messages not yet consumed. `Join`, `Leave` and
  `Publish` are its value-level operations, and the `ChannelLayer` class performs them in place.
- `Consumers` (consumers.dfy): the `BlogConsumer` class, whose `Connect` and `Disconnect`
  change group membership. It also holds the five handlers, written on dicts, so a missing key
  or a non-dict `data` is a `Fault` exactly where the Python would raise. `Dispatch` runs the
  handler named by `"type"`.
- `Signals` (signals.dfy): the post-save hook that builds the notification text and sends it.
- `Views` (views.dfy): `add_post`, `update_post`, `delete_post` and `add_comment`.
  - Each is a function from the situation to an `Outcome`: the response, the new store and the
    broadcasts that reached the layer.
  - Each is also a method of the `Site` class that does the same steps in place. Its
    postcondition ties the new state and the response to that function.
  - `get_comments` is a pure function.

The model assumes the post-save hook is connected, so that it runs inside `post.save()` and
`form.save()` (see "## Left out"). So a successful `add_post`
sends a notification and then `blog_post_update`, and `update_post` sends a notification and
then `blog_post_edit`.

Two behaviours of the code are modelled as written, even though a design where notification
never fails a change would differ:

- `add_comment` sends without a try. When the layer is unreachable, the comment is already
  saved and the request ends in a 500.
- `delete_post` handles only POST. Any other method falls off the end of the view, which
  returns None, and Django answers 500.

## Model

| member | source | states |
|---|---|---|
| `Consumers.BlogConsumer.constructor` | blog/consumers.py:8-14 | a new consumer has no group, is not accepted and has written nothing |
| `Consumers.BlogConsumer.Connect` | blog/consumers.py:16-26 | the group name becomes "blog_updates"; with a reachable layer the channel is added and the connection accepted, so the channel is a member; when group_add raises, nothing joins and the connection is not accepted |
| `Consumers.BlogConsumer.Disconnect` | blog/consumers.py:28-38 | the channel is discarded from the same literal group connect joined, so it is no longer a member; when group_discard raises, membership stays; queues are unchanged either way |
| `Consumers.BlogConsumer.HandleNext` | blog/consumers.py:40-145 | the oldest queued group message is dispatched to its handler; a handler that succeeds writes exactly its result to the browser, one that raises writes nothing |
| `Consumers.PostMessage` | blog/consumers.py:48-60 | the dict literal shared by both post handlers succeeds iff data is a dict holding all five post keys and copies each unchanged beside type; a missing "data" raises KeyError on it, a non-dict data raises TypeError, and otherwise the fault names the first key missing in the order id, title, description, timestamp, status |
| `Consumers.BlogPostUpdate` | blog/consumers.py:48-60 | succeeds iff data is a dict with id, title, description, timestamp, status; the message has exactly those keys plus type "blog_post_update", each copied unchanged |
| `Consumers.BlogPostEdit` | blog/consumers.py:71-83 | the same five fields copied unchanged, differing only in type "blog_post_edit" |
| `Consumers.BlogDeletePost` | blog/consumers.py:94-102 | succeeds iff data is a dict with id; the message has only type "blog_delete_post" and that id; otherwise the fault is the missing "data", a non-dict data, or the missing "id" |
| `Consumers.NewComment` | blog/consumers.py:112-124 | succeeds iff data is a dict with post_id, user, content, timestamp; the message has exactly those plus type "new_comment", copied; otherwise the fault is the missing "data", a non-dict data, or the first key missing in the order post_id, user, content, timestamp |
| `Consumers.Notification` | blog/consumers.py:135-144 | succeeds iff the event has data, and fails with KeyError on "data" otherwise; the message has exactly type "notification" and message equal to the whole data value |
| `Consumers.Dispatch` | blog/consumers.py:40-145 | each of the five type names runs its own handler, whose contract then says when it succeeds; a message without type fails, a type naming none of the five handlers fails, and a handled message carries the type it was dispatched on |
| `Consumers.PostCreatedHandled` | blog/views.py:271-285 | the dict add_post sends is accepted by blog_post_update, which writes exactly the intended blog_post_update object |
| `Consumers.PostEditedHandled` | blog/views.py:347-361 | the dict update_post sends is accepted by blog_post_edit, which writes exactly the intended blog_post_edit object |
| `Consumers.CommentAddedHandled` | blog/views.py:493-506 | the dict add_comment sends is accepted by new_comment, which writes exactly the intended new_comment object |
| `Consumers.HandlersAcceptEveryEvent` | blog/consumers.py:48-144 | for every event any producer can build, dispatch succeeds and yields exactly the intended client object: no handler can hit a missing key |
| `ChannelLayers.Join` | blog/consumers.py:22 | group_add adds the channel to that group's members and leaves every other group as it was |
| `ChannelLayers.Leave` | blog/consumers.py:35 | group_discard removes the channel from that group, is a no-op for a non-member, and leaves other groups as they were |
| `ChannelLayers.Publish` | blog/views.py:271-272 | group_send appends the message to the queue of every member and leaves every other queue unchanged |
| `ChannelLayers.MembershipFollowsLastChange` | blog/consumers.py:20-35 | after any sequence of joins and leaves, a channel is a member exactly when its last change for that group was a join (or, with none, when it was a member before) |
| `ChannelLayers.ChangesAreIdempotent` | blog/consumers.py:35 | discarding twice equals discarding once, and adding twice equals adding once |
| `ChannelLayers.DepartedChannelMissesSend` | blog/consumers.py:35 | a channel that left the group before a send gets nothing from that send |
| `ChannelLayers.ChannelLayer.GroupAdd` | blog/consumers.py:22 | membership becomes Join of the old membership; queues unchanged |
| `ChannelLayers.ChannelLayer.GroupDiscard` | blog/consumers.py:35 | membership becomes Leave of the old membership; queues unchanged |
| `ChannelLayers.ChannelLayer.GroupSend` | blog/views.py:271-272 | queues become Publish of the old queues to the group's current members; membership unchanged |
| `ChannelLayers.ChannelLayer.Receive` | blog/consumers.py:40-48 | the oldest message queued for the channel is removed and handed to the consumer's handler; an empty queue hands nothing and changes nothing; membership unchanged |
| `Events.DataOf` | blog/views.py:275-283 | the "data" of each producer's dict holds exactly the keys its handler reads: the five post keys for a creation or edit, only id for a deletion, the four comment keys for a comment; a notice's data is its text |
| `Events.Payload` | blog/signals.py:39 | the dict handed to group_send has exactly "type" and "data", and its type names the event's handler |
| `Events.PayloadDeterminesEvent` | blog/views.py:271-285 | two events give the same group_send dict exactly when they are the same event: the dict loses nothing of the event |
| `Events.Emit` | blog/views.py:270-293 | a group_send inside try/except: one broadcast of the event's dict to "blog_updates" when the layer is reachable, none when the exception is swallowed |
| `Signals.Snippet` | blog/signals.py:30 | a title of at most 30 characters is kept whole with no "..."; a longer one becomes exactly its first 30 characters then "..."; the snippet is at most 33 long and, without the ellipsis, a prefix of the title |
| `Signals.NotificationText` | blog/signals.py:29-34 | the text starts with "New post created: " when created and "Post updated: " otherwise, followed by the snippet; it is at most 51 characters long |
| `Signals.NotificationTextDeterminesKind` | blog/signals.py:29-34 | equal texts come from the same created flag and the same snippet: the text tells a creation from an update |
| `Signals.SendNotification` | blog/signals.py:36-43 | each call sends exactly one dict to "blog_updates" with type "notification" and data the text; an unreachable layer is swallowed and nothing is sent |
| `Views.GetComments` | blog/views.py:527-545 | status 200 with only "comments": an empty list when there are no rows, else one entry per row in query order with exactly user, content and timestamp |
| `Views.PostViewsRequireLogin` | blog/views.py:305-307 | anonymous add_post, update_post and delete_post redirect to "/login/" and save, delete and send nothing |
| `Views.AddPostSendsOnlyAfterSave` | blog/views.py:249-265 | add_post sends only when logged in, POST, valid and saved; a failing save re-renders the form with the error and changes nothing |
| `Views.AddPostSuccess` | blog/views.py:249-295 | the post is stored under a fresh id, the comments are kept and the next id advances by one, and the response is a redirect to "/"; the sends are the creation notice, then blog_post_update with exactly id, title, description, timestamp, status |
| `Views.UpdatePostSuccess` | blog/views.py:337-370 | the post is replaced and the response is a redirect to "/"; the sends are the update notice, then blog_post_edit with the saved fields |
| `Views.MissingPostGoesToDashboard` | blog/views.py:331-335 | a POST to update_post or delete_post for an unknown id redirects to "/dashboard/" with no change and no send |
| `Views.DeletePostSuccess` | blog/views.py:403-434 | the post is removed, blog_delete_post with data only the id is sent, and the response is a redirect to "/dashboard/" |
| `Views.BroadcastFailureIsSwallowed` | blog/views.py:290-295 | in add_post, update_post and delete_post, an unreachable layer gives the same response and store as a successful send, and nothing is sent |
| `Views.AddCommentOutcomes` | blog/views.py:462-510 | 400 iff post_id or content is falsy, 404 iff the post is unknown, 500 iff the save fails, none of which changes or sends; 200 iff saved and sent, and something is sent iff the response is 200 |
| `Views.AddCommentSuccess` | blog/views.py:468-510 | a saved comment is appended and new_comment is sent with exactly the post id, username, content and time, then 200 "Comment added successfully" |
| `Views.EveryBroadcastIsHandled` | blog/views.py:271-506 | in every situation, every send of every view goes to "blog_updates", the group connect joins, and its handler accepts it |
| `Views.ViewsKeepStoreValid` | blog/views.py:249-250 | every view keeps post ids positive and below the next id to assign |
| `Views.Site.AddPost` | blog/views.py:211-307 | the response, new store and appended sends are exactly those of AddPostOutcome; ids stay fresh and every send so far still goes to "blog_updates" and is accepted by a handler |
| `Views.Site.UpdatePost` | blog/views.py:310-380 | the response, new store and appended sends are exactly those of UpdatePostOutcome, and the same store and broadcast invariant is kept |
| `Views.Site.DeletePost` | blog/views.py:383-437 | the response, new store and appended sends are exactly those of DeletePostOutcome, and the same store and broadcast invariant is kept |
| `Views.Site.AddComment` | blog/views.py:440-510 | the response, new store and appended sends are exactly those of AddCommentOutcome, and the same store and broadcast invariant is kept |

## Left out

- The channel layer itself (Channels with Redis) is not modelled. Delivery, ordering across processes and concurrency are left out. The layer is an abstract membership map with per-channel queues, and each call is one atomic step.
- Async scheduling and interleavings of connect, disconnect and send are left out.
- The connection state machine that `BlogConsumer` inherits from Channels' `AsyncWebsocketConsumer` is left out. In Channels the consumer stops once it has disconnected. In the model, `HandleNext` after `Disconnect` still handles a message that was queued before the leave and writes its frame.
- The signal receiver is connected only when something imports `blog/signals.py`, normally the app configuration's `ready()`. The app configuration is not part of this model, and the settings list the app only as `"blog"`. The model assumes the receiver is connected. Without it, `add_post` and `update_post` send only their own broadcast, and the notification that `AddPostSuccess`, `UpdatePostSuccess`, `Site.AddPost` and `Site.UpdatePost` list first is not sent.
- Channels' own dispatch details are left out: the "." to "_" handler-name mapping, the inherited `websocket_*` handlers, and the closing of a connection whose handler raises. `Dispatch` knows only the five handler names, and a raising handler writes nothing.
- The byte output of `json.dumps` and `json.loads` is not modelled. Messages are maps, and field order does not matter.
- `strftime` is not modelled. Every timestamp is treated as an already formatted string.
- Database query order is not modelled. `GetComments` takes the rows the database returns for the post, already ordered newest first.
- Form validation is an input flag. A rendered page records only its template and error text, not the form in its context.
- `login_required` redirects to Django's default login URL. The `?next=` query it appends is not modelled.
- In add_comment, `post_id` is an integer or absent/null, and `content` is a string or absent/null. Other JSON types are left out, such as a numeric string id, which Django would also accept.
- The models module is not part of this model. Whether deleting a post also deletes its comments is therefore not modelled. The time a comment gets when saved is a parameter.
- An unreachable layer is one flag per request. The hook's send and the view's send fail together.
- The views `home`, `about`, `contact`, `dashboard`, `user_signup`, `user_login` and `user_logout` are left out. They are rendering and authentication glue.
- Logging is left out.
- The settings module is configuration only and is left out.
