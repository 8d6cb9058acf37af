/** The group-chat hook: messages fetched in creation order and merged with
    their authors' profiles, a realtime insert appended at the end, a delete
    filtered out, and the guard and normalisation of `sendMessage`. */
module GroupChat {

  import opened Wrappers
  import opened Collections
  import opened JsText

  datatype MessageRow = MessageRow(
    id: string,
    groupId: string,
    userId: string,
    message: string,
    messageType: string,
    replyToId: Option<string>,
    createdAt: string)

  datatype Profile = Profile(userId: string, name: string)

  /** The profile a message is shown with: `{ name }` only. */
  datatype Author = Author(name: string)

  datatype ChatMessage = ChatMessage(row: MessageRow, author: Author)

  function ProfileUser(p: Profile): string { p.userId }
  function MessageId(m: ChatMessage): string { m.row.id }
  function RowUser(m: MessageRow): string { m.userId }

  const Fallback := Author("Usuario")

  /** `[...new Set(data?.map(msg => msg.user_id) || [])]`: each author once. */
  function AuthorIds(data: Option<seq<MessageRow>>): (r: seq<string>)
    ensures Distinct(r)
    ensures forall u :: u in r <==> exists i :: 0 <= i < |data.GetOr([])| && data.GetOr([])[i].userId == u
  {
    var rows := data.GetOr([]);
    var ids := seq(|rows|, i requires 0 <= i < |rows| => rows[i].userId);
    assert forall u :: u in ids <==> exists i :: 0 <= i < |rows| && rows[i].userId == u by {
      forall u ensures u in ids <==> exists i :: 0 <= i < |rows| && rows[i].userId == u {
        if u in ids {
          var i :| 0 <= i < |ids| && ids[i] == u;
        }
        if exists i :: 0 <= i < |rows| && rows[i].userId == u {
          var i :| 0 <= i < |rows| && rows[i].userId == u;
          assert ids[i] == u;
        }
      }
    }
    Dedup(ids)
  }

  /** `profiles?.find(p => p.user_id === row.user_id) || { name: 'Usuario' }`. */
  function WithAuthor(row: MessageRow, profiles: Option<seq<Profile>>): (m: ChatMessage)
    ensures m.row == row
    ensures profiles.Some? && FindKey(profiles.value, ProfileUser, row.userId).Some? ==>
              var p := FindKey(profiles.value, ProfileUser, row.userId).value;
              p.userId == row.userId && m.author == Author(p.name)
    ensures profiles.None? || FindKey(profiles.value, ProfileUser, row.userId).None? ==> m.author == Fallback
  {
    var found := if profiles.Some? then FindKey(profiles.value, ProfileUser, row.userId) else None;
    match found
    case Some(p) => ChatMessage(row, Author(p.name))
    case None => ChatMessage(row, Fallback)
  }

  /** `data?.map(...) || []`: the fetched rows in their `created_at` order, each
      with its author. */
  function Merge(data: Option<seq<MessageRow>>, profiles: Option<seq<Profile>>): (r: seq<ChatMessage>)
    ensures |r| == |data.GetOr([])|
    ensures forall i :: 0 <= i < |r| ==> r[i] == WithAuthor(data.GetOr([])[i], profiles)
  {
    var rows := data.GetOr([]);
    seq(|rows|, i requires 0 <= i < |rows| => WithAuthor(rows[i], profiles))
  }

  /** The realtime reducer: `[...prev, { ...newMessage, profiles: profile || { name: 'Usuario' } }]`. */
  function Appended(prev: seq<ChatMessage>, newMessage: MessageRow, profile: Option<Profile>): (r: seq<ChatMessage>)
    ensures |r| == |prev| + 1 && r[..|prev|] == prev
    ensures r[|prev|].row == newMessage
    ensures r[|prev|].author == if profile.Some? then Author(profile.value.name) else Fallback
  {
    prev + [ChatMessage(newMessage, if profile.Some? then Author(profile.value.name) else Fallback)]
  }

  /** The author of a message is its profile's name whenever its profile was
      fetched, whether it came with the fetch or with the realtime insert. */
  lemma AppendAgreesWithMerge(rows: seq<MessageRow>, newMessage: MessageRow, profiles: seq<Profile>)
    requires FindKey(profiles, ProfileUser, newMessage.userId).Some?
    ensures Appended(Merge(Some(rows), Some(profiles)), newMessage, FindKey(profiles, ProfileUser, newMessage.userId))
            == Merge(Some(rows + [newMessage]), Some(profiles))
  {
    var a := Appended(Merge(Some(rows), Some(profiles)), newMessage, FindKey(profiles, ProfileUser, newMessage.userId));
    var b := Merge(Some(rows + [newMessage]), Some(profiles));
    assert forall i :: 0 <= i < |rows| ==> (rows + [newMessage])[i] == rows[i];
    assert forall i :: 0 <= i < |a| ==> a[i] == b[i];
  }

  // ---------------------------------------------------------------------
  // Sending.

  datatype MessageInsert = MessageInsert(groupId: string, userId: string, message: string, replyToId: Option<string>)

  /** `replyToId || null`: an absent or empty id is null. */
  function ReplyTo(replyToId: Option<string>): (r: Option<string>)
    ensures r.Some? <==> replyToId.Some? && replyToId.value != ""
    ensures r.Some? ==> r == replyToId
  {
    if replyToId.Some? && replyToId.value != "" then replyToId else None
  }

  /** The insert of `sendMessage`, if any: none without a user or with a blank
      message; otherwise the trimmed, non-empty message. */
  function SendInsert(user: Option<string>, groupId: string, message: string, replyToId: Option<string>): (r: Option<MessageInsert>)
    ensures r.None? <==> user.None? || AllWhitespace(message)
    ensures r.Some? ==> && r.value.userId == user.value && r.value.groupId == groupId
                        && r.value.message != "" && IsTrimmed(r.value.message)
                        && r.value.replyToId == ReplyTo(replyToId)
  {
    TrimEmptyIff(message);
    if user.None? || Trim(message) == "" then None
    else Some(MessageInsert(groupId, user.value, Trim(message), ReplyTo(replyToId)))
  }

  /** Leading and trailing whitespace does not change what is sent. */
  lemma SendIgnoresPadding(user: string, groupId: string, p: string, text: string, q: string, replyToId: Option<string>)
    requires AllWhitespace(p) && AllWhitespace(q) && IsTrimmed(text) && text != ""
    ensures SendInsert(Some(user), groupId, p + text + q, replyToId) == Some(MessageInsert(groupId, user, text, ReplyTo(replyToId)))
  {
    TrimPadded(p, text, q);
  }

  // ---------------------------------------------------------------------
  // The hook state.

  class GroupChatHook {
    var messages: seq<ChatMessage>
    var loading: bool
    var sending: bool

    constructor()
      ensures messages == [] && loading && !sending
    {
      messages := [];
      loading := true;
      sending := false;
    }

    /** `fetchMessages`: on success the merged rows, which were fetched with the
        profiles of the distinct author ids; on error the list is unchanged. */
    method FetchMessages(q: Query<seq<MessageRow>>, profilesOf: seq<string> -> Option<seq<Profile>>)
      returns (authorIds: seq<string>)
      modifies this
      ensures q.QueryData? ==> authorIds == AuthorIds(q.data) && messages == Merge(q.data, profilesOf(authorIds))
      ensures q.QueryError? ==> messages == old(messages)
      ensures !loading && sending == old(sending)
    {
      authorIds := [];
      if q.QueryData? {
        authorIds := AuthorIds(q.data);
        messages := Merge(q.data, profilesOf(authorIds));
      }
      loading := false;
    }

    /** A realtime INSERT, with the author's profile lookup (`None` when none). */
    method OnInsert(newMessage: MessageRow, profile: Option<Profile>)
      modifies this
      ensures messages == Appended(old(messages), newMessage, profile)
      ensures loading == old(loading) && sending == old(sending)
    {
      messages := messages + [ChatMessage(newMessage, if profile.Some? then Author(profile.value.name) else Fallback)];
    }

    /** `sendMessage`: the list is not touched (the realtime insert adds the
        message); `sending` is false again whenever the insert was issued. */
    method SendMessage(user: Option<string>, groupId: string, message: string, replyToId: Option<string>)
      returns (insert: Option<MessageInsert>)
      modifies this
      ensures insert == SendInsert(user, groupId, message, replyToId)
      ensures sending == (if insert.Some? then false else old(sending))
      ensures messages == old(messages) && loading == old(loading)
    {
      if user.None? || Trim(message) == "" {
        return None;
      }
      sending := true;
      insert := Some(MessageInsert(groupId, user.value, Trim(message), if replyToId.Some? && replyToId.value != "" then replyToId else None));
      sending := false;
    }

    /** `deleteMessage`: on success the messages with the id are filtered out. */
    method DeleteMessage(messageId: string, ok: bool)
      modifies this
      ensures messages == (if ok then RemoveKey(old(messages), MessageId, messageId) else old(messages))
      ensures loading == old(loading) && sending == old(sending)
    {
      if ok {
        messages := RemoveKey(messages, MessageId, messageId);
      }
    }
  }

  /** Deleting removes only the messages with that id and keeps the order. */
  lemma DeletedMessage(prev: seq<ChatMessage>, id: string)
    ensures var r := RemoveKey(prev, MessageId, id);
            && (forall i :: 0 <= i < |r| ==> r[i].row.id != id)
            && (forall i :: 0 <= i < |prev| && prev[i].row.id != id ==> prev[i] in r)
            && IsSubsequence(r, prev)
  {
    var r := RemoveKey(prev, MessageId, id);
    RemoveKeyKeeps(prev, MessageId, id);
    forall i | 0 <= i < |prev| && prev[i].row.id != id ensures prev[i] in r {
      assert multiset(r)[prev[i]] == multiset(prev)[prev[i]];
    }
  }
}
