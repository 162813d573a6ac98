/**
 * An explicit abstraction of the channel layer the consumers and producers talk to: named
 * groups of channel names, and for each channel the group messages not yet handed to its
 * consumer.  Delivery, ordering and concurrency of the real backend are not modelled; each
 * call is one atomic step.
 */
module ChannelLayers {
  import opened Wire

  type Groups = map<string, set<string>>
  type Queues = map<string, seq<Dict>>

  /** The channels currently in `group`; a group nobody joined is empty. */
  function Members(groups: Groups, group: string): set<string> {
    if group in groups then groups[group] else {}
  }

  /** The messages waiting for `channel`; a channel never sent to has none. */
  function Queue(queues: Queues, channel: string): seq<Dict> {
    if channel in queues then queues[channel] else []
  }

  /** `group_add`: `channel` joins `group`; every other group is untouched. */
  function Join(groups: Groups, group: string, channel: string): (r: Groups)
    ensures Members(r, group) == Members(groups, group) + {channel}
    ensures forall g :: g != group ==> Members(r, g) == Members(groups, g)
  {
    groups[group := Members(groups, group) + {channel}]
  }

  /** `group_discard`: `channel` leaves `group`; discarding a non-member is not an error. */
  function Leave(groups: Groups, group: string, channel: string): (r: Groups)
    ensures Members(r, group) == Members(groups, group) - {channel}
    ensures forall g :: g != group ==> Members(r, g) == Members(groups, g)
  {
    groups[group := Members(groups, group) - {channel}]
  }

  /** `group_send`: `message` is appended to the queue of every member and of no one else. */
  function Publish(queues: Queues, members: set<string>, message: Dict): (r: Queues)
    ensures forall c :: c in members ==> Queue(r, c) == Queue(queues, c) + [message]
    ensures forall c :: c !in members ==> Queue(r, c) == Queue(queues, c)
  {
    map c | c in queues.Keys + members :: if c in members then Queue(queues, c) + [message] else queues[c]
  }

  /** One membership change, as a consumer makes it. */
  datatype Change = Add(group: string, channel: string) | Discard(group: string, channel: string)

  function Apply(groups: Groups, change: Change): Groups {
    match change
    case Add(g, c) => Join(groups, g, c)
    case Discard(g, c) => Leave(groups, g, c)
  }

  /** The membership after applying `changes` in order. */
  function ApplyAll(groups: Groups, changes: seq<Change>): Groups
    decreases |changes|
  {
    if changes == [] then groups
    else Apply(ApplyAll(groups, changes[..|changes| - 1]), changes[|changes| - 1])
  }

  /** Whether the last change in `changes` about (`group`, `channel`) was an Add, if any was made. */
  function LastChange(changes: seq<Change>, group: string, channel: string): Option<bool>
    decreases |changes|
  {
    if changes == [] then None
    else
      var last := changes[|changes| - 1];
      if last.group == group && last.channel == channel then Some(last.Add?)
      else LastChange(changes[..|changes| - 1], group, channel)
  }

  /** For every order of joins and leaves, a channel is a member exactly when its last change
      for that group joined it (or, with no change, when it was a member to begin with). */
  lemma {:induction false} MembershipFollowsLastChange(groups: Groups, changes: seq<Change>, group: string, channel: string)
    ensures channel in Members(ApplyAll(groups, changes), group) <==>
      match LastChange(changes, group, channel)
      case Some(joined) => joined
      case None => channel in Members(groups, group)
    decreases |changes|
  {
    if changes != [] {
      MembershipFollowsLastChange(groups, changes[..|changes| - 1], group, channel);
    }
  }

  /** Leaving twice is the same as leaving once, and so is joining twice. */
  lemma ChangesAreIdempotent(groups: Groups, group: string, channel: string)
    ensures Leave(Leave(groups, group, channel), group, channel) == Leave(groups, group, channel)
    ensures Join(Join(groups, group, channel), group, channel) == Join(groups, group, channel)
  {
    var once := Members(groups, group) - {channel};
    assert Members(Leave(groups, group, channel), group) == once;
    assert once - {channel} == once;
    var joined := Members(groups, group) + {channel};
    assert Members(Join(groups, group, channel), group) == joined;
    assert joined + {channel} == joined;
  }

  /** A channel that left a group before a send to that group gets nothing from it. */
  lemma DepartedChannelMissesSend(groups: Groups, queues: Queues, group: string, channel: string, message: Dict)
    ensures Queue(Publish(queues, Members(Leave(groups, group, channel), group), message), channel)
            == Queue(queues, channel)
  {
  }

  class ChannelLayer {
    var groups: Groups
    var queues: Queues

    constructor ()
      ensures groups == map[] && queues == map[]
    {
      groups := map[];
      queues := map[];
    }

    method GroupAdd(group: string, channel: string)
      modifies this
      ensures groups == Join(old(groups), group, channel)
      ensures queues == old(queues)
    {
      groups := Join(groups, group, channel);
    }

    method GroupDiscard(group: string, channel: string)
      modifies this
      ensures groups == Leave(old(groups), group, channel)
      ensures queues == old(queues)
    {
      groups := Leave(groups, group, channel);
    }

    method GroupSend(group: string, message: Dict)
      modifies this
      ensures queues == Publish(old(queues), Members(old(groups), group), message)
      ensures groups == old(groups)
    {
      queues := Publish(queues, Members(groups, group), message);
    }

    /** Hands the oldest message waiting for `channel` to its consumer, if there is one. */
    method Receive(channel: string) returns (m: Option<Dict>)
      modifies this
      ensures groups == old(groups)
      ensures Queue(old(queues), channel) == [] ==> m == None && queues == old(queues)
      ensures Queue(old(queues), channel) != [] ==>
        m == Some(old(queues)[channel][0]) && queues == old(queues)[channel := old(queues)[channel][1..]]
    {
      if Queue(queues, channel) == [] {
        m := None;
      } else {
        m := Some(queues[channel][0]);
        queues := queues[channel := queues[channel][1..]];
      }
    }
  }
}
