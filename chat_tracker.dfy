/** Which chats the bot is in: `context.bot_data` holds up to three sets of
    chat identifiers, created on first use and updated in place by the
    `my_chat_member` handler and by the first message of a private chat that
    none of the bot's command handlers takes. */
module ChatTracker {
  import opened Telegram
  import opened Membership

  /** The three keys of `bot_data` the handlers use. */
  datatype Key = UserIds | GroupIds | ChannelIds

  /** `bot_data`: a key is present once some handler has called `setdefault` on it. */
  type BotData = map<Key, set<int>>

  /** `bot_data.get(k, set())`: the tracked set, empty when the key is absent. */
  function Ids(bd: BotData, k: Key): set<int>
  {
    if k in bd then bd[k] else {}
  }

  /** Every key other than `k` is present in both or in neither, with the same set. */
  predicate SameExcept(a: BotData, b: BotData, k: Key)
  {
    forall j :: j != k ==> (j in a <==> j in b) && (j in a ==> a[j] == b[j])
  }

  /** The set a chat of the given type is recorded in: private chats in
      "user_ids", groups and supergroups in "group_ids", every other type in
      "channel_ids". */
  function KeyFor(kind: ChatType): (k: Key)
    ensures k == UserIds <==> kind == Private
    ensures k == GroupIds <==> kind == Group || kind == Supergroup
    ensures k == ChannelIds <==> kind == Channel || kind == Sender
  {
    match kind
    case Private => UserIds
    case Group | Supergroup => GroupIds
    case Channel | Sender => ChannelIds
  }

  /** `bot_data.setdefault(k, set()).add(id)`. */
  function WithAdded(bd: BotData, k: Key, id: int): (r: BotData)
    ensures k in r && SameExcept(bd, r, k)
    ensures Ids(r, k) == Ids(bd, k) + {id}
  {
    bd[k := Ids(bd, k) + {id}]
  }

  /** `bot_data.setdefault(k, set()).discard(id)`: never fails, and an absent
      identifier leaves the set as it was. */
  function WithDiscarded(bd: BotData, k: Key, id: int): (r: BotData)
    ensures k in r && SameExcept(bd, r, k)
    ensures Ids(r, k) == Ids(bd, k) - {id}
    ensures id !in Ids(bd, k) ==> Ids(r, k) == Ids(bd, k)
  {
    bd[k := Ids(bd, k) - {id}]
  }

  /** The state `track_chats` leaves behind. Only the set for the chat's type
      is touched: the chat is added on a join, removed on a leave, and no key
      is created when nothing changed. */
  function AfterTrackChats(bd: BotData, d: Difference, chat: Chat): (r: BotData)
    ensures ExtractStatusChange(d).None? ==> r == bd
    ensures ExtractStatusChange(d) == Some((true, true)) ==> r == bd
    ensures ExtractStatusChange(d) == Some((false, false)) ==> r == bd
    ensures ExtractStatusChange(d) == Some((false, true)) ==>
      SameExcept(bd, r, KeyFor(chat.kind)) &&
      Ids(r, KeyFor(chat.kind)) == Ids(bd, KeyFor(chat.kind)) + {chat.id}
    ensures ExtractStatusChange(d) == Some((true, false)) ==>
      SameExcept(bd, r, KeyFor(chat.kind)) &&
      Ids(r, KeyFor(chat.kind)) == Ids(bd, KeyFor(chat.kind)) - {chat.id}
  {
    match ExtractStatusChange(d)
    case None => bd
    case Some((wasMember, isMember)) =>
      if !wasMember && isMember then WithAdded(bd, KeyFor(chat.kind), chat.id)
      else if wasMember && !isMember then WithDiscarded(bd, KeyFor(chat.kind), chat.id)
      else bd
  }

  /** The state `start_private_chat` leaves behind: a private chat not yet in
      "user_ids" is added to it; anything else changes nothing. */
  function AfterStartPrivateChat(bd: BotData, chat: Chat): (r: BotData)
    ensures chat.kind != Private || chat.id in Ids(bd, UserIds) ==> r == bd
    ensures chat.kind == Private ==>
      SameExcept(bd, r, UserIds) && Ids(r, UserIds) == Ids(bd, UserIds) + {chat.id}
  {
    if chat.kind != Private || chat.id in Ids(bd, UserIds) then bd
    else WithAdded(bd, UserIds, chat.id)
  }

  /** The side effect of `show_chats`: every key is created, no set changes. */
  function WithAllKeys(bd: BotData): (r: BotData)
    ensures r.Keys == {UserIds, GroupIds, ChannelIds}
    ensures Ids(r, UserIds) == Ids(bd, UserIds)
    ensures Ids(r, GroupIds) == Ids(bd, GroupIds)
    ensures Ids(r, ChannelIds) == Ids(bd, ChannelIds)
  {
    map[UserIds := Ids(bd, UserIds), GroupIds := Ids(bd, GroupIds), ChannelIds := Ids(bd, ChannelIds)]
  }

  /** Recording the same update twice is the same as recording it once. */
  lemma TrackChatsIdempotent(bd: BotData, d: Difference, chat: Chat)
    ensures AfterTrackChats(AfterTrackChats(bd, d, chat), d, chat) == AfterTrackChats(bd, d, chat)
  {
  }

  /** A join followed by a leave of the same chat leaves the chat out of its
      set; if it was not tracked before, the set is back where it started. */
  lemma JoinThenLeave(bd: BotData, join: Difference, leave: Difference, chat: Chat)
    requires ExtractStatusChange(join) == Some((false, true))
    requires ExtractStatusChange(leave) == Some((true, false))
    ensures var r := AfterTrackChats(AfterTrackChats(bd, join, chat), leave, chat);
      chat.id !in Ids(r, KeyFor(chat.kind)) &&
      SameExcept(bd, r, KeyFor(chat.kind)) &&
      (chat.id !in Ids(bd, KeyFor(chat.kind)) ==> Ids(r, KeyFor(chat.kind)) == Ids(bd, KeyFor(chat.kind)))
  {
  }

  /** Starting a private chat twice is the same as starting it once. */
  lemma StartPrivateChatIdempotent(bd: BotData, chat: Chat)
    ensures AfterStartPrivateChat(AfterStartPrivateChat(bd, chat), chat) == AfterStartPrivateChat(bd, chat)
  {
  }

  /** After the bot was unblocked in a private chat, the chat's first message
      finds it already recorded: no welcome, no change. */
  lemma StartAfterPrivateJoin(bd: BotData, d: Difference, chat: Chat)
    requires chat.kind == Private && ExtractStatusChange(d) == Some((false, true))
    ensures var joined := AfterTrackChats(bd, d, chat);
      chat.id in Ids(joined, UserIds) && AfterStartPrivateChat(joined, chat) == joined
  {
  }

  /** `context.bot_data`, updated in place by the handlers, one at a time. */
  class Bot {
    var data: BotData

    constructor ()
      ensures data == map[]
    {
      data := map[];
    }

    method SetDefaultAdd(k: Key, id: int)
      modifies this
      ensures data == WithAdded(old(data), k, id)
    {
      if k !in data {
        data := data[k := {}];
      }
      data := data[k := data[k] + {id}];
    }

    method SetDefaultDiscard(k: Key, id: int)
      modifies this
      ensures data == WithDiscarded(old(data), k, id)
    {
      if k !in data {
        data := data[k := {}];
      }
      data := data[k := data[k] - {id}];
    }

    /** `track_chats`: the handler of the bot's own membership updates. */
    method TrackChats(d: Difference, chat: Chat)
      modifies this
      ensures data == AfterTrackChats(old(data), d, chat)
    {
      var result := ExtractStatusChange(d);
      if result.None? {
        return;
      }
      var (wasMember, isMember) := result.value;
      if chat.kind == Private {
        if !wasMember && isMember {
          SetDefaultAdd(UserIds, chat.id);
        } else if wasMember && !isMember {
          SetDefaultDiscard(UserIds, chat.id);
        }
      } else if chat.kind in [Group, Supergroup] {
        if !wasMember && isMember {
          SetDefaultAdd(GroupIds, chat.id);
        } else if wasMember && !isMember {
          SetDefaultDiscard(GroupIds, chat.id);
        }
      } else if !wasMember && isMember {
        SetDefaultAdd(ChannelIds, chat.id);
      } else if wasMember && !isMember {
        SetDefaultDiscard(ChannelIds, chat.id);
      }
    }

    /** `start_private_chat`: returns whether the welcome reply is sent. */
    method StartPrivateChat(chat: Chat) returns (welcomed: bool)
      modifies this
      ensures data == AfterStartPrivateChat(old(data), chat)
      ensures welcomed <==> chat.kind == Private && chat.id !in Ids(old(data), UserIds)
    {
      if chat.kind != Private || chat.id in Ids(data, UserIds) {
        return false;
      }
      SetDefaultAdd(UserIds, chat.id);
      welcomed := true;
    }

    /** The state change of `show_chats`; the reply text is not modelled. */
    method ShowChats()
      modifies this
      ensures data == WithAllKeys(old(data))
    {
      if UserIds !in data {
        data := data[UserIds := {}];
      }
      if GroupIds !in data {
        data := data[GroupIds := {}];
      }
      if ChannelIds !in data {
        data := data[ChannelIds := {}];
      }
      forall k | k in data
        ensures k in {UserIds, GroupIds, ChannelIds}
      {
        match k
        case UserIds =>
        case GroupIds =>
        case ChannelIds =>
      }
    }
  }
}
