/**
 * The bot's configuration and its `messageCreate` handler: command dispatch, the
 * immediate lookup, and the selection prompt with its resolution. What the handler
 * sends, reacts with and deletes is recorded, in order, as a sequence of actions.
 */
module Bot {
  import opened Wrappers
  import opened Text
  import opened Calendar
  import opened Embeds
  import opened Planning
  import opened Selection

  const WebcalScheme := "webcal://"
  const HttpsScheme := "https://"
  const UwuGif := "https://i.imgur.com/zlLz40v.mp4"
  const UwuTrigger := "uwu"
  const PlanningCommand := "!planning"
  const TodayCommand := "!planning today"
  const InvalidSelectionText := "Sélection de date invalide."
  const TimeoutText := "Aucune sélection de date n'a été faite dans le temps imparti."

  /** `ICAL_URL`: the configured feed address with its first `webcal://` turned into `https://`. */
  function IcalUrl(configured: string): (u: string)
    ensures (forall j :: !OccursAt(configured, WebcalScheme, j)) ==> u == configured
    ensures forall k :: OccursAt(configured, WebcalScheme, k) && (forall j :: 0 <= j < k ==> !OccursAt(configured, WebcalScheme, j)) ==>
              u == configured[..k] + HttpsScheme + configured[k + |WebcalScheme|..]
  {
    ReplaceFirst(configured, WebcalScheme, HttpsScheme)
  }

  /** A `webcal://` address becomes the `https://` address of the same resource, whatever follows. */
  lemma WebcalBecomesHttps(rest: string)
    ensures IcalUrl(WebcalScheme + rest) == HttpsScheme + rest
  {
    assert OccursAt(WebcalScheme + rest, WebcalScheme, 0);
  }

  /** An address without `webcal://` is used as configured. */
  lemma OtherUrlKept(configured: string)
    requires forall j :: !OccursAt(configured, WebcalScheme, j)
    ensures IcalUrl(configured) == configured
  {
  }

  /** Only the first occurrence is rewritten: a later `webcal://` stays where it was. */
  lemma LaterWebcalKept(rest: string, j: int)
    requires OccursAt(rest, WebcalScheme, j)
    ensures OccursAt(IcalUrl(WebcalScheme + rest), WebcalScheme, |HttpsScheme| + j)
  {
    WebcalBecomesHttps(rest);
    OccursAfterPrefix(HttpsScheme, rest, WebcalScheme, j);
  }

  /** An incoming chat message. */
  datatype Message = Message(content: string, authorId: string, authorIsBot: bool)

  /** What the handler decides to do with a message. */
  datatype Command = Ignored | Uwu | Today | Prompt

  /** Both planning commands start with `!planning`, and neither lower-cases to the trivial trigger. */
  lemma CommandTexts()
    ensures StartsWith(TodayCommand, PlanningCommand) && StartsWith(PlanningCommand, PlanningCommand)
    ensures |Lower(TodayCommand)| != |UwuTrigger| && |Lower(PlanningCommand)| != |UwuTrigger|
  {
    assert TodayCommand == PlanningCommand + " today";
    assert TodayCommand[..|PlanningCommand|] == PlanningCommand;
  }

  /** The handler's tests, in order; the first that matches decides. */
  function Classify(m: Message): (c: Command)
    ensures c == Uwu <==> !m.authorIsBot && Lower(m.content) == UwuTrigger
    ensures c == Today <==> !m.authorIsBot && m.content == TodayCommand
    ensures c == Prompt <==> !m.authorIsBot && m.content == PlanningCommand
  {
    CommandTexts();
    if m.authorIsBot then Ignored
    else if Lower(m.content) == UwuTrigger then Uwu
    else if !StartsWith(m.content, PlanningCommand) then Ignored
    else if m.content == TodayCommand then Today
    else if m.content == PlanningCommand then Prompt
    else Ignored
  }

  /** A bot's message is never acted on, whatever it says. */
  lemma BotMessagesIgnored(content: string, authorId: string)
    ensures Classify(Message(content, authorId, true)) == Ignored
  {
  }

  /** The trivial trigger is `uwu` in any mix of cases, and nothing else. */
  lemma {:induction false} UwuAnyCase(m: Message)
    requires !m.authorIsBot
    ensures Classify(m) == Uwu <==>
      |m.content| == 3 && m.content[0] in "uU" && m.content[1] in "wW" && m.content[2] in "uU"
  {
    if |m.content| == 3 {
      var l := Lower(m.content);
      assert l == [l[0], l[1], l[2]];
      assert l == UwuTrigger <==> l[0] == 'u' && l[1] == 'w' && l[2] == 'u';
    }
  }

  /** Every other text starting with `!planning` does nothing. */
  lemma OtherPlanningTextIgnored(m: Message)
    requires StartsWith(m.content, PlanningCommand)
    requires m.content != PlanningCommand && m.content != TodayCommand
    ensures Classify(m) == Ignored
  {
  }

  /** What the handler does, in the order it does it. */
  datatype Action =
    | SendText(text: string)
    | SendEmbed(embed: Embed)
    | React(emoji: string)
    | DeletePrompt

  /** The markers attached to the prompt, in the listed order. */
  function MarkerReactions(): (acts: seq<Action>)
    ensures |acts| == DayCount
    ensures forall i :: 0 <= i < DayCount ==> acts[i] == React(Emojis[i])
  {
    seq(DayCount, i requires 0 <= i < DayCount => React(Emojis[i]))
  }

  /** What follows the wait: the chosen day's planning then the deletion, or the deletion then the timeout notice. */
  function Resolution(now: int, loc: Locale, fetch: HttpOutcome, parse: Parser, chosen: Option<Reaction>): (acts: seq<Action>)
    ensures chosen.None? ==> acts == [DeletePrompt, SendText(TimeoutText)]
    ensures chosen.Some? && chosen.value.emoji !in Emojis ==> acts == [SendText(InvalidSelectionText), DeletePrompt]
    ensures forall k :: chosen.Some? && 0 <= k < DayCount && Emojis[k] == chosen.value.emoji ==>
              acts == [SendEmbed(PlanningEmbed(now + k * MsPerDay, now, loc, Feed(fetch, parse))), DeletePrompt]
  {
    EmojisDistinct();
    match chosen
    case None => [DeletePrompt, SendText(TimeoutText)]
    case Some(r) =>
      match SelectedDate(PromptDates(now), r.emoji)
      case Some(date) => [SendEmbed(PlanningEmbed(date, now, loc, Feed(fetch, parse))), DeletePrompt]
      case None => [SendText(InvalidSelectionText), DeletePrompt]
  }

  /** The actions of the selection flow, from the prompt to the end of the wait. */
  function PromptActions(now: int, loc: Locale, fetch: HttpOutcome, parse: Parser, chosen: Option<Reaction>): (acts: seq<Action>)
    ensures |acts| == 1 + DayCount + 2
    ensures acts[0] == SendEmbed(SelectionEmbed(now, loc))
    ensures forall i :: 0 <= i < DayCount ==> acts[1 + i] == React(Emojis[i])
    ensures acts[1 + DayCount..] == Resolution(now, loc, fetch, parse, chosen)
  {
    [SendEmbed(SelectionEmbed(now, loc))] + MarkerReactions() + Resolution(now, loc, fetch, parse, chosen)
  }

  /**
   * The `messageCreate` handler for one message. `now` is the clock, `fetch` what the
   * one feed request returns, `parse` the calendar parser, and `reactions` the reactions
   * added to the prompt within its 60-second wait, in arrival order.
   */
  method HandleMessage(m: Message, now: int, loc: Locale, fetch: HttpOutcome, parse: Parser, reactions: seq<Reaction>)
    returns (sent: seq<Action>)
    ensures Classify(m) == Ignored ==> sent == []
    ensures Classify(m) == Uwu ==> sent == [SendText(UwuGif)]
    ensures Classify(m) == Today ==> sent == [SendEmbed(PlanningEmbed(now, now, loc, Feed(fetch, parse)))]
    ensures Classify(m) == Prompt ==>
      sent == PromptActions(now, loc, fetch, parse, FirstQualifying(reactions, m.authorId))
  {
    var command := Classify(m);
    if command == Uwu {
      sent := [SendText(UwuGif)];
    } else if command == Today {
      var planning := PlanningEmbedForDate(now, now, loc, fetch, parse);
      sent := [SendEmbed(planning.Build())];
    } else if command == Prompt {
      sent := RunPrompt(m.authorId, now, loc, fetch, parse, reactions);
    } else {
      sent := [];
    }
  }

  /**
   * The `!planning` branch: send the prompt, attach the markers in order, wait for
   * the author's marker, then answer with that day's planning or with the timeout notice.
   */
  method RunPrompt(authorId: string, now: int, loc: Locale, fetch: HttpOutcome, parse: Parser, reactions: seq<Reaction>)
    returns (sent: seq<Action>)
    ensures sent == PromptActions(now, loc, fetch, parse, FirstQualifying(reactions, authorId))
  {
    var dates, options := CandidateDates(now, loc);
    var selection := new EmbedBuilder();
    selection.SetColor(PromptColor);
    selection.SetTitle(PromptTitle);
    selection.SetDescription(PromptText);
    selection.AddFields(options);
    selection.SetTimestamp(now);
    selection.SetFooter(PromptFooter);
    var prompt := selection.Build();
    assert prompt == SelectionEmbed(now, loc);
    var markers := AttachMarkers(|dates|);
    assert markers == MarkerReactions();

    var chosen := FirstQualifying(reactions, authorId);
    var outcome := ResolveSelection(dates, now, loc, fetch, parse, chosen);
    sent := [SendEmbed(prompt)] + markers + outcome;
  }

  /** `msg.react(EMOJIS[i])` for each of the `count` dates, in order. */
  method AttachMarkers(count: nat) returns (acts: seq<Action>)
    requires count <= DayCount
    ensures acts == MarkerReactions()[..count]
  {
    acts := [];
    for i := 0 to count
      invariant acts == MarkerReactions()[..i]
    {
      acts := acts + [React(Emojis[i])];
    }
  }

  /**
   * The collector's `then` and `catch`: map the chosen marker back to its date and
   * send that day's planning, or report the invalid selection, and delete the prompt;
   * on a timeout, delete the prompt and send the notice.
   */
  method ResolveSelection(dates: seq<int>, now: int, loc: Locale, fetch: HttpOutcome, parse: Parser, chosen: Option<Reaction>)
    returns (acts: seq<Action>)
    requires dates == PromptDates(now)
    ensures acts == Resolution(now, loc, fetch, parse, chosen)
  {
    if chosen.Some? {
      var selectedDate := SelectedDate(dates, chosen.value.emoji);
      if selectedDate.Some? {
        var planning := PlanningEmbedForDate(selectedDate.value, now, loc, fetch, parse);
        acts := [SendEmbed(planning.Build())];
      } else {
        acts := [SendText(InvalidSelectionText)];
      }
      acts := acts + [DeletePrompt];
    } else {
      acts := [DeletePrompt, SendText(TimeoutText)];
    }
  }

  /**
   * The prompt lists five dates, today first, each behind its own marker, and the
   * markers are attached in that order.
   */
  lemma PromptListing(now: int, loc: Locale, fetch: HttpOutcome, parse: Parser, chosen: Option<Reaction>)
    ensures var acts := PromptActions(now, loc, fetch, parse, chosen);
      && |acts| == 1 + DayCount + 2
      && acts[0].SendEmbed?
      && (forall i :: 0 <= i < DayCount ==>
            acts[0].embed.fields[i].name == Emojis[i] + " " + loc.dateLabel(now + i * MsPerDay))
      && (forall i :: 0 <= i < DayCount ==> acts[1 + i] == React(Emojis[i]))
  {
    var acts := PromptActions(now, loc, fetch, parse, chosen);
    var e := SelectionEmbed(now, loc);
    assert acts[0] == SendEmbed(e);
    forall i | 0 <= i < DayCount ensures acts[1 + i] == React(Emojis[i]) {
      assert acts[1 + i] == MarkerReactions()[i];
    }
  }

  /** The prompt is removed exactly once; the timeout notice is sent once on a timeout and never otherwise. */
  lemma PromptEndsOnce(now: int, loc: Locale, fetch: HttpOutcome, parse: Parser, chosen: Option<Reaction>)
    ensures var acts := PromptActions(now, loc, fetch, parse, chosen);
      && multiset(acts)[DeletePrompt] == 1
      && multiset(acts)[SendText(TimeoutText)] == (if chosen.None? then 1 else 0)
  {
    var head := [SendEmbed(SelectionEmbed(now, loc))] + MarkerReactions();
    var tail := Resolution(now, loc, fetch, parse, chosen);
    assert forall x :: x in head ==> x.SendEmbed? || x.React?;
    assert multiset(head)[DeletePrompt] == 0 && multiset(head)[SendText(TimeoutText)] == 0;
    assert multiset(head + tail) == multiset(head) + multiset(tail);
  }

  /** A prompt that only other users, or other emojis, react to runs into the timeout. */
  lemma ForeignReactionsTimeOut(now: int, loc: Locale, fetch: HttpOutcome, parse: Parser, reactions: seq<Reaction>, authorId: string)
    requires forall j :: 0 <= j < |reactions| ==> reactions[j].userId != authorId || reactions[j].emoji !in Emojis
    ensures Resolution(now, loc, fetch, parse, FirstQualifying(reactions, authorId)) == [DeletePrompt, SendText(TimeoutText)]
  {
  }

  /** Reacting with the marker at position 2 shows the planning of the day after tomorrow. */
  lemma ThirdMarkerExample(m: Message, now: int, loc: Locale, fetch: HttpOutcome, parse: Parser)
    ensures Resolution(now, loc, fetch, parse, FirstQualifying([Reaction(Emojis[2], m.authorId)], m.authorId))
         == [SendEmbed(PlanningEmbed(now + 2 * MsPerDay, now, loc, Feed(fetch, parse))), DeletePrompt]
  {
    assert Qualifies(Reaction(Emojis[2], m.authorId), m.authorId);
  }
}
