/**
 * The post-save hook: whenever a post is saved it sends one notification whose text says
 * whether the post was created or updated and quotes the title, cut to 30 characters plus
 * "..." when longer.  A failing send is logged and swallowed.
 */
module Signals {
  import opened Wire
  import opened Events

  const SnippetLength := 30
  const CreatedPrefix := "New post created: "
  const UpdatedPrefix := "Post updated: "

  /** Python's `s[:n]`: a slice past the end stops at the end. */
  function Head(s: string, n: nat): (r: string)
    ensures |r| == (if |s| <= n then |s| else n)
    ensures r == s[..|r|]
  {
    if |s| <= n then s else s[..n]
  }

  /** The title as quoted in a notification. */
  function Snippet(title: string): (s: string)
    ensures |title| <= SnippetLength ==> s == title
    ensures |title| > SnippetLength ==> |s| == SnippetLength + 3 && s[..SnippetLength] == title[..SnippetLength] && s[SnippetLength..] == "..."
    ensures |s| <= SnippetLength + 3
    ensures var kept := if |title| > SnippetLength then SnippetLength else |title|;
      kept <= |s| && s[..kept] == title[..kept]
  {
    Head(title, SnippetLength) + (if |title| > SnippetLength then "..." else "")
  }

  /** The notification text: a prefix chosen by `created`, then the snippet of the title. */
  function NotificationText(title: string, created: bool): (m: string)
    ensures var prefix := if created then CreatedPrefix else UpdatedPrefix;
      |prefix| <= |m| && m[..|prefix|] == prefix && m[|prefix|..] == Snippet(title)
    ensures |m| <= |CreatedPrefix| + SnippetLength + 3
  {
    (if created then CreatedPrefix else UpdatedPrefix) + Snippet(title)
  }

  /** A reader of the text can tell a creation from an update, and recover the snippet. */
  lemma {:induction false} NotificationTextDeterminesKind(title1: string, created1: bool, title2: string, created2: bool)
    requires NotificationText(title1, created1) == NotificationText(title2, created2)
    ensures created1 == created2 && Snippet(title1) == Snippet(title2)
  {
    var m := NotificationText(title1, created1);
    assert m[0] == (if created1 then 'N' else 'P');
    assert m[0] == (if created2 then 'N' else 'P');
    var prefix := if created1 then CreatedPrefix else UpdatedPrefix;
    assert Snippet(title1) == m[|prefix|..] == Snippet(title2);
  }

  /** send_notification: every save sends exactly one notification to the blog group whose data
      is the text, unless the layer cannot be reached, when the error is swallowed and nothing
      is sent. */
  function SendNotification(post: Post, created: bool, layerUp: bool): (sent: seq<Broadcast>)
    ensures |sent| == (if layerUp then 1 else 0)
    ensures forall b :: b in sent ==>
      b.group == BlogGroup && b.message == map[Type := Str("notification"), Data := Str(NotificationText(post.title, created))]
  {
    Emit(Notice(NotificationText(post.title, created)), layerUp)
  }
}
