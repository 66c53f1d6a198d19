/** The administrator list posted by `show_admins`: one HTML link per
    administrator, labelled with the custom title (if any) followed by an
    emoji picked from a fixed table by the administrator's identifier. */
module AdminList {
  import opened Telegram
  import Decimal

  /** `_members_emodzi_list`: one hundred emoji, each a short sequence of
      code points (many are joined by U+200D). */
  const Emojis: seq<string> := [
    "\U{1F46E}\U{200D}\U{2642}\U{FE0F}", "\U{1F477}\U{200D}\U{2640}\U{FE0F}", "\U{1F482}\U{200D}\U{2640}\U{FE0F}", "\U{1F575}\U{FE0F}\U{200D}\U{2640}\U{FE0F}", "\U{1F469}\U{200D}\U{2695}\U{FE0F}",
    "\U{1F468}\U{200D}\U{2695}\U{FE0F}", "\U{1F469}\U{200D}\U{1F33E}", "\U{1F469}\U{200D}\U{1F373}", "\U{1F469}\U{200D}\U{1F393}", "\U{1F469}\U{200D}\U{1F3A4}",
    "\U{1F9D1}\U{200D}\U{1F3A4}", "\U{1F468}\U{200D}\U{1F3A4}", "\U{1F469}\U{200D}\U{1F3EB}", "\U{1F9D1}\U{200D}\U{1F3EB}", "\U{1F469}\U{200D}\U{1F3ED}",
    "\U{1F469}\U{200D}\U{1F4BB}", "\U{1F469}\U{200D}\U{1F4BC}", "\U{1F468}\U{200D}\U{1F4BC}", "\U{1F469}\U{200D}\U{1F527}", "\U{1F469}\U{200D}\U{1F52C}",
    "\U{1F469}\U{200D}\U{1F3A8}", "\U{1F9D1}\U{200D}\U{1F52C}", "\U{1F468}\U{200D}\U{1F3A8}", "\U{1F469}\U{200D}\U{1F692}", "\U{1F469}\U{200D}\U{2708}\U{FE0F}",
    "\U{1F469}\U{200D}\U{1F680}", "\U{1F469}\U{200D}\U{2696}\U{FE0F}", "\U{1F468}\U{200D}\U{2696}\U{FE0F}", "\U{1F470}\U{200D}\U{2640}\U{FE0F}", "\U{1F935}\U{200D}\U{2640}\U{FE0F}",
    "\U{1F935}\U{200D}\U{2642}\U{FE0F}", "\U{1F478}", "\U{1F934}", "\U{1F977}", "\U{1F9B8}\U{200D}\U{2640}\U{FE0F}",
    "\U{1F9B8}\U{200D}\U{2642}\U{FE0F}", "\U{1F9B9}\U{200D}\U{2640}\U{FE0F}", "\U{1F936}", "\U{1F9D9}\U{200D}\U{2640}\U{FE0F}", "\U{1F9DD}\U{200D}\U{2640}\U{FE0F}",
    "\U{1F9DD}", "\U{1F9CC}", "\U{1F9DB}\U{200D}\U{2640}\U{FE0F}", "\U{1F9DB}\U{200D}\U{2642}\U{FE0F}", "\U{1F47C}",
    "\U{1F930}", "\U{1FAC3}", "\U{1F481}\U{200D}\U{2640}\U{FE0F}", "\U{1F481}\U{200D}\U{2642}\U{FE0F}", "\U{1F645}\U{200D}\U{2640}\U{FE0F}",
    "\U{1F646}\U{200D}\U{2640}\U{FE0F}", "\U{1F646}", "\U{1F64B}\U{200D}\U{2640}\U{FE0F}", "\U{1F64B}\U{200D}\U{2642}\U{FE0F}", "\U{1F9CF}\U{200D}\U{2640}\U{FE0F}",
    "\U{1F926}\U{200D}\U{2640}\U{FE0F}", "\U{1F926}", "\U{1F937}\U{200D}\U{2640}\U{FE0F}", "\U{1F64E}\U{200D}\U{2640}\U{FE0F}", "\U{1F64D}\U{200D}\U{2640}\U{FE0F}",
    "\U{1F64D}\U{200D}\U{2642}\U{FE0F}", "\U{1F487}\U{200D}\U{2640}\U{FE0F}", "\U{1F487}\U{200D}\U{2642}\U{FE0F}", "\U{1F486}\U{200D}\U{2640}\U{FE0F}", "\U{1F486}\U{200D}\U{2642}\U{FE0F}",
    "\U{1F485}", "\U{1F483}", "\U{1F57A}", "\U{1F9D1}\U{200D}\U{1F9BD}", "\U{1FAA2}",
    "\U{1F9F6}", "\U{1F9F5}", "\U{1FAA1}", "\U{1F9E5}", "\U{1F97C}",
    "\U{1F9BA}", "\U{1F45A}", "\U{1F455}", "\U{1F456}", "\U{1FA72}",
    "\U{1FA73}", "\U{1F454}", "\U{1F457}", "\U{1F459}", "\U{1FA71}",
    "\U{1F458}", "\U{1F97B}", "\U{1FA74}", "\U{1F97F}", "\U{1F460}",
    "\U{1F461}", "\U{1F462}", "\U{1F45E}", "\U{1F45F}", "\U{1F97E}",
    "\U{1F9E6}", "\U{1F9E4}", "\U{1F9E3}", "\U{1F3A9}", "\U{1F9E2}"
  ]

  /** An entry of `get_administrators()`: the user's identifier and the
      custom title, None when the administrator has none. */
  datatype Admin = Admin(id: int, customTitle: Option<string>)

  /** The table position `admin_id % 100`; with a positive divisor Python's
      `%` and Dafny's agree, negative identifiers included. */
  function EmojiIndex(id: int): (i: int)
    ensures 0 <= i < 100
    ensures (id - i) % 100 == 0
  {
    id % 100
  }

  /** `_members_emodzi_list[admin_id % 100]`, for an emoji table of at least
      one hundred entries (`Emojis` has exactly one hundred). */
  function EmojiFor(table: seq<string>, id: int): string
    requires |table| >= 100
  {
    table[EmojiIndex(id)]
  }

  lemma EmojisSize()
    ensures |Emojis| == 100
  {
  }

  /** Indexing a table by `id % 100` is in bounds for every identifier
      exactly when the table has at least one hundred entries, as the
      emoji table does. */
  lemma IndexInBoundsIff(table: seq<string>)
    ensures (forall id: int :: EmojiIndex(id) < |table|) <==> |table| >= 100
  {
    if forall id: int :: EmojiIndex(id) < |table| {
      assert EmojiIndex(99) == 99;
    }
  }

  /** Identifiers 100 apart get the same emoji. */
  lemma EmojiPeriodic(table: seq<string>, id: int)
    requires |table| >= 100
    ensures EmojiFor(table, id + 100) == EmojiFor(table, id)
  {
  }

  /** The text inside the link: the custom title followed by the emoji, or
      the emoji alone. */
  function Label(table: seq<string>, a: Admin): string
    requires |table| >= 100
  {
    match a.customTitle
    case Some(title) => title + EmojiFor(table, a.id)
    case None => EmojiFor(table, a.id)
  }

  const LinkOpen := "<a href=\"tg://user?id="

  /** One line of the message: a link to the administrator's profile. */
  function AdminLink(table: seq<string>, a: Admin): string
    requires |table| >= 100
  {
    LinkOpen + Decimal.IntToString(a.id) + "\">" + Label(table, a) + "</a>\n"
  }

  /** The message built up by the loop of `show_admins`, one link per
      administrator in the order they were listed. */
  function AdminLinks(table: seq<string>, admins: seq<Admin>): string
    requires |table| >= 100
  {
    if admins == [] then ""
    else AdminLinks(table, admins[..|admins| - 1]) + AdminLink(table, admins[|admins| - 1])
  }

  /** The characters before the first '"' (all of them if there is none). */
  function UpToQuote(s: string): string
  {
    if s == [] || s[0] == '"' then [] else [s[0]] + UpToQuote(s[1..])
  }

  /** The administrator a link points at: the number between `LinkOpen` and
      the closing quote of the href, None for text of any other shape. */
  function LinkTarget(line: string): Option<int>
  {
    if LinkOpen <= line then Decimal.ParseInt(UpToQuote(line[|LinkOpen|..])) else None
  }

  lemma {:induction false} UpToQuoteOf(x: string, y: string)
    requires '"' !in x && y != [] && y[0] == '"'
    ensures UpToQuote(x + y) == x
  {
    if x != [] {
      assert (x + y)[1..] == x[1..] + y;
      UpToQuoteOf(x[1..], y);
    }
  }

  /** Each link points at the administrator it was written for. */
  lemma AdminLinkTarget(table: seq<string>, a: Admin)
    requires |table| >= 100
    ensures LinkTarget(AdminLink(table, a)) == Some(a.id)
  {
    var digits := Decimal.IntToString(a.id);
    var rest := "\">" + Label(table, a) + "</a>\n";
    assert AdminLink(table, a) == LinkOpen + (digits + rest);
    assert AdminLink(table, a)[|LinkOpen|..] == digits + rest;
    assert '"' !in digits by {
      if a.id >= 0 {
        assert Decimal.AllDigits(digits);
      } else {
        assert digits[0] == '-' && Decimal.AllDigits(digits[1..]);
        assert digits == [digits[0]] + digits[1..];
      }
    }
    UpToQuoteOf(digits, rest);
    Decimal.IntToStringRoundTrip(a.id);
  }

  /** The links of a concatenated list are the concatenated links: the
      message keeps the administrators' order. */
  lemma {:induction false} AdminLinksAppend(table: seq<string>, xs: seq<Admin>, ys: seq<Admin>)
    requires |table| >= 100
    ensures AdminLinks(table, xs + ys) == AdminLinks(table, xs) + AdminLinks(table, ys)
    decreases |ys|
  {
    if ys != [] {
      var last := ys[|ys| - 1];
      var init := ys[..|ys| - 1];
      assert (xs + ys)[..|xs + ys| - 1] == xs + init;
      AdminLinksAppend(table, xs, init);
    } else {
      assert xs + ys == xs;
    }
  }

  /** An administrator's link comes right after the links of the
      administrators listed before it and right before those listed after. */
  lemma AdminLinksAround(table: seq<string>, before: seq<Admin>, a: Admin, after: seq<Admin>)
    requires |table| >= 100
    ensures AdminLinks(table, before + [a] + after) ==
      AdminLinks(table, before) + AdminLink(table, a) + AdminLinks(table, after)
  {
    AdminLinksAppend(table, before + [a], after);
    AdminLinksAppend(table, before, [a]);
    AdminLinksSingleton(table, a);
  }

  lemma AdminLinksSingleton(table: seq<string>, a: Admin)
    requires |table| >= 100
    ensures AdminLinks(table, [a]) == AdminLink(table, a)
  {
    assert [a][..0] == [];
  }

  /** `show_admins`: the text sent to the chat. */
  method ShowAdmins(admins: seq<Admin>) returns (userLinks: string)
    ensures userLinks == AdminLinks(Emojis, admins)
  {
    EmojisSize();
    userLinks := ShowAdminsWith(Emojis, admins);
  }

  /** The loop of `show_admins`, over any emoji table of at least one hundred entries. */
  method ShowAdminsWith(table: seq<string>, admins: seq<Admin>) returns (userLinks: string)
    requires |table| >= 100
    ensures userLinks == AdminLinks(table, admins)
  {
    userLinks := "";
    var i := 0;
    while i < |admins|
      invariant 0 <= i <= |admins|
      invariant userLinks == AdminLinks(table, admins[..i])
    {
      var admin := admins[i];
      var emoji := table[admin.id % 100];
      var caption;
      if admin.customTitle.Some? {
        caption := admin.customTitle.value + emoji;
      } else {
        caption := emoji;
      }
      userLinks := userLinks + (LinkOpen + Decimal.IntToString(admin.id) + "\">" + caption + "</a>\n");
      assert admins[..i + 1][..i] == admins[..i];
      i := i + 1;
    }
    assert admins[..i] == admins;
  }
}
