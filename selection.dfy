/**
 * The five-day selection prompt: the candidate dates and their option blocks,
 * the reaction filter, the first qualifying reaction, and the marker-to-date lookup.
 */
module Selection {
  import opened Wrappers
  import opened Text
  import opened Calendar
  import opened Embeds

  /** `EMOJIS`: the keycap markers 1 to 5, in order. */
  const Emojis: seq<string> := [
    "1\U{FE0F}\U{20E3}", "2\U{FE0F}\U{20E3}", "3\U{FE0F}\U{20E3}", "4\U{FE0F}\U{20E3}", "5\U{FE0F}\U{20E3}"
  ]
  /** The bound of the prompt loop. */
  const DayCount: nat := 5

  const PromptColor := "#f0b232"
  const PromptTitle := "\U{1F5D3}\U{FE0F} Choisissez une date pour votre emploi du temps"
  const PromptText := "Réagissez avec l'emoji correspondant au jour désiré.\n*(Sélection valide pour 60 secondes)*"
  const PromptFooter := "Répondez avec une réaction !"
  const ZeroWidthSpace := "\U{200B}"

  /** The markers are pairwise distinct, so a marker names one position. */
  lemma EmojisDistinct()
    ensures |Emojis| == DayCount
    ensures forall i, j :: 0 <= i < j < |Emojis| ==> Emojis[i] != Emojis[j]
  {
    assert forall i :: 0 <= i < |Emojis| ==> Emojis[i][0] == "12345"[i];
  }

  /** The option block for the `i`-th candidate date. */
  function OptionField(i: nat, dateText: string): (f: Field)
    requires i < |Emojis|
    ensures StartsWith(f.name, Emojis[i]) && f.name[|Emojis[i]|..] == " " + dateText
    ensures f.value == ZeroWidthSpace && !f.inline
  {
    Field(Emojis[i] + " " + dateText, ZeroWidthSpace, false)
  }

  /** Today and the four following days, same time of day. */
  function PromptDates(now: int): (ds: seq<int>)
    ensures |ds| == DayCount
    ensures forall i :: 0 <= i < DayCount ==> ds[i] == now + i * MsPerDay
  {
    seq(DayCount, i => now + i * MsPerDay)
  }

  /** The prompt embed: the fixed texts and one option block per candidate date. */
  function SelectionEmbed(now: int, loc: Locale): (e: Embed)
    ensures e.color == Some(PromptColor) && e.timestamp == Some(now)
    ensures |e.fields| == DayCount
    ensures forall i :: 0 <= i < DayCount ==> e.fields[i] == OptionField(i, loc.dateLabel(now + i * MsPerDay))
  {
    Blank.(color := Some(PromptColor), title := Some(PromptTitle), description := Some(PromptText),
           fields := seq(DayCount, i requires 0 <= i < DayCount => OptionField(i, loc.dateLabel(now + i * MsPerDay))),
           timestamp := Some(now), footer := Some(PromptFooter))
  }

  /** The prompt loop: pushes the `i`-th date and its option block, for `i` from 0 to 4. */
  method CandidateDates(now: int, loc: Locale) returns (dates: seq<int>, options: seq<Field>)
    ensures dates == PromptDates(now)
    ensures options == SelectionEmbed(now, loc).fields
  {
    dates, options := [], [];
    for i := 0 to DayCount
      invariant |dates| == i && |options| == i
      invariant forall j :: 0 <= j < i ==> dates[j] == now + j * MsPerDay
      invariant forall j :: 0 <= j < i ==> options[j] == OptionField(j, loc.dateLabel(dates[j]))
    {
      var date := now + i * MsPerDay;
      dates := dates + [date];
      options := options + [OptionField(i, loc.dateLabel(date))];
    }
  }

  /** One reaction added to the prompt: its emoji and the reacting user's id. */
  datatype Reaction = Reaction(emoji: string, userId: string)

  /** The collector's filter: one of the markers, added by the command's author. */
  predicate Qualifies(r: Reaction, authorId: string)
  {
    r.emoji in Emojis && r.userId == authorId
  }

  /** `xs.indexOf(x)`. */
  function IndexOf(xs: seq<string>, x: string): (k: int)
    ensures -1 <= k < |xs|
    ensures k == -1 <==> x !in xs
    ensures k != -1 ==> xs[k] == x && x !in xs[..k]
  {
    if xs == [] then -1
    else if xs[0] == x then 0
    else
      var k := IndexOf(xs[1..], x);
      assert xs[1..][..if k == -1 then 0 else k] == xs[1..if k == -1 then 1 else k + 1];
      if k == -1 then -1 else k + 1
  }

  /** `dates[EMOJIS.indexOf(emoji)]`, or nothing (`undefined`) when that is out of range. */
  function SelectedDate(dates: seq<int>, emoji: string): (d: Option<int>)
    ensures emoji !in Emojis ==> d == None
    ensures forall k :: 0 <= k < |Emojis| && Emojis[k] == emoji ==>
              d == if k < |dates| then Some(dates[k]) else None
  {
    EmojisDistinct();
    var k := IndexOf(Emojis, emoji);
    if 0 <= k < |dates| then Some(dates[k]) else None
  }

  /** `EMOJIS.includes(name)` in the filter agrees with the `indexOf` lookup made afterwards. */
  lemma QualifiesByIndex(r: Reaction, authorId: string)
    ensures Qualifies(r, authorId) <==> r.userId == authorId && IndexOf(Emojis, r.emoji) != -1
  {
  }

  /** The position of the first reaction in `rs` that passes the filter, or -1. */
  function FirstQualifyingIndex(rs: seq<Reaction>, authorId: string): (k: int)
    ensures -1 <= k < |rs|
    ensures k == -1 <==> forall j :: 0 <= j < |rs| ==> !Qualifies(rs[j], authorId)
    ensures k != -1 ==> Qualifies(rs[k], authorId) && forall j :: 0 <= j < k ==> !Qualifies(rs[j], authorId)
  {
    if rs == [] then -1
    else if Qualifies(rs[0], authorId) then 0
    else
      var k := FirstQualifyingIndex(rs[1..], authorId);
      assert forall j :: 1 <= j < |rs| ==> rs[j] == rs[1..][j - 1];
      if k == -1 then -1 else k + 1
  }

  /**
   * `awaitReactions({ filter, max: 1 })` over the reactions added within the wait:
   * the first that passes the filter, or nothing (the time limit is reached).
   */
  function FirstQualifying(rs: seq<Reaction>, authorId: string): (r: Option<Reaction>)
    ensures r.None? <==> forall j :: 0 <= j < |rs| ==> !Qualifies(rs[j], authorId)
    ensures r.Some? ==> Qualifies(r.value, authorId)
    ensures r.Some? ==> exists i :: 0 <= i < |rs| && rs[i] == r.value &&
                          forall j :: 0 <= j < i ==> !Qualifies(rs[j], authorId)
  {
    var k := FirstQualifyingIndex(rs, authorId);
    if k == -1 then None else Some(rs[k])
  }

  /** Reactions that do not pass the filter change nothing: they do not consume the wait. */
  lemma {:induction false} IgnoredReactions(junk: seq<Reaction>, rs: seq<Reaction>, authorId: string)
    requires forall j :: 0 <= j < |junk| ==> !Qualifies(junk[j], authorId)
    ensures var k := FirstQualifyingIndex(rs, authorId);
      FirstQualifyingIndex(junk + rs, authorId) == if k == -1 then -1 else |junk| + k
    ensures FirstQualifying(junk + rs, authorId) == FirstQualifying(rs, authorId)
  {
    if junk == [] {
      assert junk + rs == rs;
    } else {
      assert (junk + rs)[1..] == junk[1..] + rs;
      IgnoredReactions(junk[1..], rs, authorId);
    }
  }

  /** Marker `k` selects the date `k` days from now, whose window is the `k`-th day after today's. */
  lemma MarkerSelectsDay(now: int, offset: int, k: nat)
    requires k < DayCount
    ensures SelectedDate(PromptDates(now), Emojis[k]) == Some(now + k * MsPerDay)
    ensures DayWindow(now + k * MsPerDay, offset).first == DayWindow(now, offset).first + k * MsPerDay
  {
    WindowAfterDays(now, offset, k);
  }

  /** A qualifying reaction always maps to a candidate date: the invalid-selection branch is unreachable. */
  lemma QualifyingAlwaysResolves(now: int, r: Reaction, authorId: string)
    requires Qualifies(r, authorId)
    ensures SelectedDate(PromptDates(now), r.emoji).Some?
  {
    var k :| 0 <= k < |Emojis| && Emojis[k] == r.emoji;
  }
}
