/** The two-question conversation of the second bot: `/start` asks a yes/no
    question, a yes asks for a link, and every other path ends the
    conversation. Each handler returns the next state; the table of which
    handler a state accepts is the `ConversationHandler` declaration. */
module Conversation {
  import opened Telegram

  /** `GENDER, ADRESS = range(2)`. */
  const GENDER: int := 0
  const ADRESS: int := 1

  /** `ConversationHandler.END`, the library's end marker. */
  const END: int := -1

  /** "Да" and "Нет". */
  const Yes: string := "\U{414}\U{430}"
  const No: string := "\U{41D}\U{435}\U{442}"

  /** A message as the filters see it: a command (its name, without the
      slash) or text that is not a command. */
  datatype Input = Command(name: string) | Text(text: string)

  /** The text of the message: a command is written with a leading slash. */
  function TextOf(input: Input): string
  {
    match input
    case Command(name) => "/" + name
    case Text(text) => text
  }

  /** The handlers the conversation registers. */
  datatype Handler = Start | Gender | Adress | SkipAdress | Cancel

  /** Python's `$` without MULTILINE: at the end of the text, or just before
      a newline that ends it. */
  predicate DollarAt(text: string, i: nat)
  {
    i == |text| || (i + 1 == |text| && text[i] == '\n')
  }

  /** `re.search("^(Да|Нет)$", text)`: `^` pins the match to the start, then
      either alternative followed by `$`. */
  predicate MatchesYesNo(text: string)
  {
    (Yes <= text && DollarAt(text, |Yes|)) || (No <= text && DollarAt(text, |No|))
  }

  /** The filter accepts exactly the two answers, each optionally followed by
      one newline. */
  lemma MatchesYesNoIff(text: string)
    ensures MatchesYesNo(text) <==> text in {Yes, No, Yes + "\n", No + "\n"}
  {
    if Yes <= text {
      assert text[..|Yes|] == Yes;
      if |text| == |Yes| {
        assert text == Yes;
      } else if |text| == |Yes| + 1 {
        assert text == Yes + [text[|Yes|]];
      }
    }
    if No <= text {
      assert text[..|No|] == No;
      if |text| == |No| {
        assert text == No;
      } else if |text| == |No| + 1 {
        assert text == No + [text[|No|]];
      }
    }
    if text == Yes + "\n" {
      assert Yes <= text && text[|Yes|] == '\n';
    }
    if text == No + "\n" {
      assert No <= text && text[|No|] == '\n';
    }
  }

  /** `entry_points`: only `/start` opens the conversation. */
  function EntryHandler(input: Input): (h: Option<Handler>)
    ensures h.Some? <==> input == Command("start")
    ensures h.Some? ==> h.value == Start
  {
    if input == Command("start") then Some(Start) else None
  }

  /** `states`: in GENDER only an answer the filter accepts reaches `gender`;
      in ADRESS text that is not a command reaches `adress` and `/skip`
      reaches `skip_adress`; no other state has handlers. */
  function StateHandler(state: int, input: Input): (h: Option<Handler>)
    ensures state != GENDER && state != ADRESS ==> h.None?
    ensures state == GENDER ==> (h.Some? <==> MatchesYesNo(TextOf(input)))
    ensures state == GENDER && h.Some? ==> h.value == Gender
    ensures state == ADRESS ==> (h == Some(Adress) <==> input.Text?)
    ensures state == ADRESS ==> (h == Some(SkipAdress) <==> input == Command("skip"))
    ensures state == ADRESS ==> (h.None? <==> input.Command? && input.name != "skip")
  {
    if state == GENDER then
      if MatchesYesNo(TextOf(input)) then Some(Gender) else None
    else if state == ADRESS then
      match input
      case Text(_) => Some(Adress)
      case Command(name) => if name == "skip" then Some(SkipAdress) else None
    else None
  }

  /** `fallbacks`: `/cancel`, in any state. */
  function FallbackHandler(input: Input): (h: Option<Handler>)
    ensures h.Some? <==> input == Command("cancel")
    ensures h.Some? ==> h.value == Cancel
  {
    if input == Command("cancel") then Some(Cancel) else None
  }

  /** The state a handler returns: `start` moves to GENDER, `gender` moves
      to ADRESS on exactly "Да", and everything else ends the conversation. */
  function Run(h: Handler, input: Input): (next: int)
    ensures next == GENDER <==> h == Start
    ensures next == ADRESS <==> h == Gender && TextOf(input) == Yes
    ensures next == END <==> h != Start && !(h == Gender && TextOf(input) == Yes)
  {
    match h
    case Start => GENDER
    case Gender => if TextOf(input) == Yes then ADRESS else END
    case Adress => END
    case SkipAdress => END
    case Cancel => END
  }

  /** From ADRESS every message a handler accepts, and `/cancel`, ends the
      conversation. */
  lemma AdressAlwaysEnds(input: Input)
    ensures StateHandler(ADRESS, input).Some? ==> Run(StateHandler(ADRESS, input).value, input) == END
    ensures FallbackHandler(input).Some? ==> Run(FallbackHandler(input).value, input) == END
  {
  }

  /** In GENDER, "Да" leads on to ADRESS; "Нет" and "Да" with a trailing
      newline are accepted by the filter too, and both end the conversation. */
  lemma GenderAnswers()
    ensures StateHandler(GENDER, Text(Yes)) == Some(Gender) && Run(Gender, Text(Yes)) == ADRESS
    ensures StateHandler(GENDER, Text(No)) == Some(Gender) && Run(Gender, Text(No)) == END
    ensures StateHandler(GENDER, Text(Yes + "\n")) == Some(Gender) && Run(Gender, Text(Yes + "\n")) == END
  {
  }

  /** No command is ever an answer in GENDER: `/cancel` and `/start` are not
      routed to `gender`. */
  lemma CommandsAreNotAnswers(name: string)
    ensures StateHandler(GENDER, Command(name)).None?
  {
  }
}
