/** How the bot reads a chat-member update: whether the member was in the
    chat before, whether it is in the chat now, and what the chat is told. */
module Membership {
  import opened Telegram

  /** The two entries of `ChatMemberUpdated.difference()` the bot looks at:
      "status" and "is_member", each an (old, new) pair, present only when
      that attribute differs between the old and the new chat member. */
  datatype Difference = Difference(
    status: Option<(Status, Status)>,
    isMember: Option<(Option<bool>, Option<bool>)>)

  /** The "is_member" pair, (None, None) when the difference has no such entry. */
  function MemberFlags(d: Difference): (Option<bool>, Option<bool>)
  {
    match d.isMember
    case Some(pair) => pair
    case None => (None, None)
  }

  /** The source's membership test: one of the member statuses, or restricted
      with an `is_member` flag that is exactly True. */
  predicate CountsAsMember(s: Status, flag: Option<bool>)
  {
    s in {Member, Owner, Administrator} || (s == Restricted && flag == Some(true))
  }

  /** The same rule as a table, status by status: `m` is the right answer
      for status `s` carrying flag `flag`. */
  predicate MembershipTable(s: Status, flag: Option<bool>, m: bool)
  {
    match s
    case Member | Owner | Administrator => m
    case Left | Banned => !m
    case Restricted => m == (flag == Some(true))
  }

  /** `extract_status_change`: None when the status did not change, otherwise
      (was_member, is_member), both judged by the same table. */
  function ExtractStatusChange(d: Difference): (r: Option<(bool, bool)>)
    ensures r.None? <==> d.status.None?
    ensures r.Some? ==> MembershipTable(d.status.value.0, MemberFlags(d).0, r.value.0)
    ensures r.Some? ==> MembershipTable(d.status.value.1, MemberFlags(d).1, r.value.1)
  {
    match d.status
    case None => None
    case Some((oldStatus, newStatus)) =>
      var (oldIsMember, newIsMember) := MemberFlags(d);
      Some((CountsAsMember(oldStatus, oldIsMember), CountsAsMember(newStatus, newIsMember)))
  }

  /** What `greet_chat_members` posts in the chat. */
  datatype Greeting = Welcome | Farewell | Silent

  /** `greet_chat_members`: a welcome when someone became a member, a farewell
      when a member left, nothing otherwise. */
  function GreetChatMembers(d: Difference): (g: Greeting)
    ensures g == Welcome <==> ExtractStatusChange(d) == Some((false, true))
    ensures g == Farewell <==> ExtractStatusChange(d) == Some((true, false))
    ensures d.status.None? ==> g == Silent
  {
    match ExtractStatusChange(d)
    case None => Silent
    case Some((wasMember, isMember)) =>
      if !wasMember && isMember then Welcome
      else if wasMember && !isMember then Farewell
      else Silent
  }

  /** A welcome is posted exactly when the old status is not membership and
      the new one is; flags matter only for restricted members. */
  lemma WelcomeIffJoined(d: Difference)
    ensures GreetChatMembers(d) == Welcome <==>
      d.status.Some? &&
      !CountsAsMember(d.status.value.0, MemberFlags(d).0) &&
      CountsAsMember(d.status.value.1, MemberFlags(d).1)
  {
  }
}
