/**
 * `getPlanningEmbedForDate`: fetch the feed, keep the events that start on the
 * requested local day, and compose the embed that lists them, says that nothing
 * is scheduled, or reports the error.
 */
module Planning {
  import opened Wrappers
  import opened Text
  import opened Calendar
  import opened Embeds

  const DefaultColor := "#0099ff"
  const ErrorColor := "#ff0000"
  const Footer := "MyEfrei Planning Bot"
  const Untitled := "Sans titre"
  const NoEventsText := "Aucun événement prévu pour cette journée. Profitez-en !"
  const ErrorPreamble := "Désolé, une erreur est survenue lors de la récupération de l'emploi du temps : "
  const HttpErrorPrefix := "Erreur HTTP: "
  /** The two characters backslash and `n` (not a line break). */
  const EscapedNewline := "\\n"
  /** The message of the TypeError raised by `getFirstProperty('dtstart').getFirstValue()` when the property is absent. */
  const NullPropertyMessage := "Cannot read properties of null (reading 'getFirstValue')"

  function PlanningTitle(dateText: string): string
  {
    "\U{1F5D3}\U{FE0F} Emploi du temps pour le " + dateText
  }

  /** What `fetch(ICAL_URL)` and `response.text()` came back with. */
  datatype HttpOutcome =
    | NoResponse(message: string)
    | Response(status: nat, statusText: string, body: string)

  /** `response.ok`: a status in the 2xx range. */
  predicate StatusOk(status: nat)
  {
    200 <= status <= 299
  }

  /**
   * The message of the error thrown for a non-OK response: the prefix, the status
   * code in decimal, a space and the status text; the code can be read back from it.
   */
  function HttpErrorMessage(status: nat, statusText: string): (r: string)
    ensures |r| == |HttpErrorPrefix| + |Decimal(status)| + 1 + |statusText|
    ensures StartsWith(r, HttpErrorPrefix) && OccursAt(r, Decimal(status), |HttpErrorPrefix|)
    ensures var digits := r[|HttpErrorPrefix|..|HttpErrorPrefix| + |Decimal(status)|];
      && (forall i :: 0 <= i < |digits| ==> IsDigit(digits[i]))
      && ParseDecimal(digits) == status
    ensures r[|HttpErrorPrefix| + |Decimal(status)|..] == " " + statusText
  {
    var r := HttpErrorPrefix + Decimal(status) + " " + statusText;
    assert r[|HttpErrorPrefix|..|HttpErrorPrefix| + |Decimal(status)|] == Decimal(status);
    DecimalRoundTrip(status);
    r
  }

  /** `ICAL.parse` followed by `getAllSubcomponents('vevent')`: the events, or the parser's error message. */
  type Parser = string -> Result<seq<Event>, string>

  /** The feed as the `try` block sees it before the scan. */
  function Feed(fetch: HttpOutcome, parse: Parser): (r: Result<seq<Event>, string>)
    ensures r.Success? <==> fetch.Response? && StatusOk(fetch.status) && parse(fetch.body).Success?
    ensures fetch.Response? && StatusOk(fetch.status) ==> r == parse(fetch.body)
    ensures fetch.NoResponse? ==> r == Failure(fetch.message)
    ensures fetch.Response? && !StatusOk(fetch.status) ==> r == Failure(HttpErrorMessage(fetch.status, fetch.statusText))
  {
    match fetch
    case NoResponse(m) => Failure(m)
    case Response(status, text, body) =>
      if StatusOk(status) then parse(body) else Failure(HttpErrorMessage(status, text))
  }

  /** A property value JavaScript treats as true: present and not the empty string. */
  predicate Truthy(o: Option<string>)
  {
    o.Some? && o.value != ""
  }

  /** `d.split('\\n')[0]`: the text before the first escaped newline, or all of `d`. */
  function FirstLine(d: string): (r: string)
    ensures |r| <= |d| && r == d[..|r|]
    ensures forall j :: 0 <= j < |r| ==> !OccursAt(d, EscapedNewline, j)
    ensures |r| < |d| ==> OccursAt(d, EscapedNewline, |r|)
    ensures r == d <==> forall j :: !OccursAt(d, EscapedNewline, j)
  {
    var k := Find(d, EscapedNewline);
    if k == -1 then d else d[..k]
  }

  /** The bold block title: the summary when it is non-empty, the placeholder otherwise. */
  function FieldName(e: Event): string
  {
    "**" + (if Truthy(e.summary) then e.summary.value else Untitled) + "**"
  }

  /** `Heure: <start> - <end>`, both instants rendered by the locale. */
  function TimeLine(e: Event, loc: Locale): string
    requires Timed(e)
  {
    "Heure: " + loc.timeLabel(e.start.value) + " - " + loc.timeLabel(e.end.value)
  }

  /** The `Lieu` line: present exactly when the location is non-empty. */
  function LocationLine(e: Event): string
  {
    if Truthy(e.location) then "\nLieu: " + e.location.value else ""
  }

  /** The `Prof` line: present exactly when the description is non-empty, showing a prefix of it. */
  function TeacherLine(e: Event): string
  {
    if Truthy(e.description) then "\nProf: " + FirstLine(e.description.value) else ""
  }

  /** The block one kept event becomes. */
  function EventField(e: Event, loc: Locale): Field
    requires Timed(e)
  {
    Field(FieldName(e), TimeLine(e, loc) + LocationLine(e) + TeacherLine(e), false)
  }

  /** One block per event, in the same order. */
  function Fields(es: seq<Event>, loc: Locale): (fs: seq<Field>)
    requires AllTimed(es)
    ensures |fs| == |es|
    ensures forall i :: 0 <= i < |es| ==> fs[i] == EventField(es[i], loc)
  {
    if es == [] then [] else [EventField(es[0], loc)] + Fields(es[1..], loc)
  }

  lemma FieldsAppend(a: seq<Event>, b: seq<Event>, loc: Locale)
    requires AllTimed(a) && AllTimed(b)
    ensures AllTimed(a + b)
    ensures Fields(a + b, loc) == Fields(a, loc) + Fields(b, loc)
  {
    assert forall i :: |a| <= i < |a + b| ==> (a + b)[i] == b[i - |a|];
  }

  /** The embed as it stands before the `try` block: colour, title, timestamp and footer. */
  function Heading(target: int, now: int, loc: Locale): (e: Embed)
    ensures e.color == Some(DefaultColor) && e.title == Some(PlanningTitle(loc.dateLabel(target)))
    ensures e.timestamp == Some(now) && e.footer == Some(Footer)
    ensures e.description.None? && e.fields == []
  {
    Blank.(color := Some(DefaultColor), title := Some(PlanningTitle(loc.dateLabel(target))),
           timestamp := Some(now), footer := Some(Footer))
  }

  /** The `catch` block: the error text as description, and the colour turned red. */
  function Errored(base: Embed, message: string): (r: Embed)
    ensures r.color == Some(ErrorColor) && r.description == Some(ErrorPreamble + message)
    ensures r.(color := base.color, description := base.description) == base
  {
    base.(description := Some(ErrorPreamble + message), color := Some(ErrorColor))
  }

  /** The embed `getPlanningEmbedForDate(target)` resolves to, for the feed it obtained. */
  function PlanningEmbed(target: int, now: int, loc: Locale, feed: Result<seq<Event>, string>): (r: Embed)
    ensures r.title == Some(PlanningTitle(loc.dateLabel(target)))
    ensures r.timestamp == Some(now) && r.footer == Some(Footer)
    ensures r.color == Some(ErrorColor) <==> feed.Failure? || !AllTimed(feed.value)
    ensures r.color == Some(ErrorColor) || r.color == Some(DefaultColor)
    ensures r.description.None? <==> r.fields != []
  {
    var base := Heading(target, now, loc);
    match feed
    case Failure(m) => Errored(base, m)
    case Success(es) =>
      if !AllTimed(es) then Errored(base, NullPropertyMessage)
      else
        var kept := Filter(es, DayWindow(target, loc.offset));
        FilterKept(es, DayWindow(target, loc.offset));
        if kept == [] then base.(description := Some(NoEventsText))
        else base.(fields := Fields(kept, loc))
  }

  /** One step of the scan: the kept event, if any, adds exactly its own block at the end. */
  lemma ScanStep(kept: seq<Event>, e: Event, w: Window, loc: Locale)
    requires AllTimed(kept) && Timed(e)
    ensures AllTimed(kept + Filter([e], w))
    ensures Fields(kept + Filter([e], w), loc)
         == Fields(kept, loc) + (if InWindow(w, e) then [EventField(e, loc)] else [])
  {
    assert Filter([e], w) == if InWindow(w, e) then [e] else [];
    FieldsAppend(kept, Filter([e], w), loc);
  }

  /**
   * The `forEach` over the events: raises the `foundEvents` flag and pushes a block
   * for each event starting in `w`; stops with `failed` at the first event whose
   * start or end is absent.
   */
  method ScanEvents(events: seq<Event>, w: Window, loc: Locale)
    returns (found: bool, fields: seq<Field>, failed: bool)
    ensures failed <==> !AllTimed(events)
    ensures !failed ==> AllTimed(Filter(events, w)) && fields == Fields(Filter(events, w), loc)
    ensures !failed ==> (found <==> Filter(events, w) != [])
  {
    found, fields, failed := false, [], false;
    var i := 0;
    while i < |events|
      invariant 0 <= i <= |events|
      invariant AllTimed(events[..i])
      invariant AllTimed(Filter(events[..i], w))
      invariant fields == Fields(Filter(events[..i], w), loc)
      invariant found <==> fields != []
    {
      var e := events[i];
      if e.start.None? || e.end.None? {
        failed := true;
        return;
      }
      assert events[..i + 1] == events[..i] + [e];
      FilterAppend(events[..i], [e], w);
      ScanStep(Filter(events[..i], w), e, w, loc);
      if InWindow(w, e) {
        found := true;
        fields := fields + [EventField(e, loc)];
      }
      i := i + 1;
    }
    assert events[..i] == events;
  }

  /** `getPlanningEmbedForDate(target)`, with the fetch outcome and the parser given. */
  method PlanningEmbedForDate(target: int, now: int, loc: Locale, fetch: HttpOutcome, parse: Parser)
    returns (embed: EmbedBuilder)
    ensures fresh(embed)
    ensures embed.Build() == PlanningEmbed(target, now, loc, Feed(fetch, parse))
  {
    embed := new EmbedBuilder();
    embed.SetColor(DefaultColor);
    embed.SetTitle(PlanningTitle(loc.dateLabel(target)));
    embed.SetTimestamp(now);
    embed.SetFooter(Footer);

    var thrown: Option<string> := None;
    if fetch.NoResponse? {
      thrown := Some(fetch.message);
    } else {
      if !StatusOk(fetch.status) {
        thrown := Some(HttpErrorMessage(fetch.status, fetch.statusText));
      } else {
        var parsed := parse(fetch.body);
        if parsed.Failure? {
          thrown := Some(parsed.error);
        } else {
          var w := DayWindow(target, loc.offset);
          var foundEvents, eventFields, failed := ScanEvents(parsed.value, w, loc);
          FilterKept(parsed.value, w);
          if failed {
            thrown := Some(NullPropertyMessage);
          } else if !foundEvents {
            embed.SetDescription(NoEventsText);
          } else {
            embed.AddFields(eventFields);
          }
        }
      }
    }
    if thrown.Some? {
      embed.SetDescription(ErrorPreamble + thrown.value);
      embed.SetColor(ErrorColor);
    }
  }

  // Properties of the composed embed.

  /** With no event on the day, the embed is the heading plus the fixed text, and conversely. */
  lemma NothingScheduled(target: int, now: int, loc: Locale, es: seq<Event>)
    requires AllTimed(es)
    ensures var w := DayWindow(target, loc.offset);
      PlanningEmbed(target, now, loc, Success(es)) == Heading(target, now, loc).(description := Some(NoEventsText))
      <==> forall i :: 0 <= i < |es| ==> !InWindow(w, es[i])
  {
    var w := DayWindow(target, loc.offset);
    FilterEmpty(es, w);
    FilterKept(es, w);
  }

  /**
   * When some event starts on the day, the embed holds exactly one block per such
   * event, in feed order, no description, and the default colour.
   */
  lemma OneFieldPerEvent(target: int, now: int, loc: Locale, es: seq<Event>)
    requires AllTimed(es)
    requires Filter(es, DayWindow(target, loc.offset)) != []
    ensures var kept := Filter(es, DayWindow(target, loc.offset));
      var r := PlanningEmbed(target, now, loc, Success(es));
      && AllTimed(kept)
      && |r.fields| == |kept|
      && (forall i :: 0 <= i < |kept| ==> r.fields[i] == EventField(kept[i], loc))
      && r.description.None?
      && r.color == Some(DefaultColor)
  {
    FilterKept(es, DayWindow(target, loc.offset));
  }

  /** The blocks of a feed are the blocks of its parts, in order: nothing is re-sorted. */
  lemma FieldsFollowFeedOrder(target: int, now: int, loc: Locale, a: seq<Event>, b: seq<Event>)
    requires AllTimed(a) && AllTimed(b)
    ensures AllTimed(a + b)
    ensures PlanningEmbed(target, now, loc, Success(a + b)).fields
         == PlanningEmbed(target, now, loc, Success(a)).fields + PlanningEmbed(target, now, loc, Success(b)).fields
  {
    var w := DayWindow(target, loc.offset);
    assert AllTimed(a + b) by {
      assert forall i :: |a| <= i < |a + b| ==> (a + b)[i] == b[i - |a|];
    }
    FilterAppend(a, b, w);
    FilterKept(a, w);
    FilterKept(b, w);
    FieldsAppend(Filter(a, w), Filter(b, w), loc);
  }

  /** A failed fetch or parse gives the red embed whose description carries the message. */
  lemma FailureIsReported(target: int, now: int, loc: Locale, m: string)
    ensures PlanningEmbed(target, now, loc, Failure(m))
         == Heading(target, now, loc).(description := Some(ErrorPreamble + m), color := Some(ErrorColor))
  {
  }

  /** A non-OK HTTP status is reported in red with its code and its status text. */
  lemma HttpFailureIsReported(target: int, now: int, loc: Locale, status: nat, statusText: string, body: string, parse: Parser)
    requires !StatusOk(status)
    ensures var r := PlanningEmbed(target, now, loc, Feed(Response(status, statusText, body), parse));
      && r.color == Some(ErrorColor)
      && r.fields == []
      && r.description == Some(ErrorPreamble + HttpErrorMessage(status, statusText))
      && OccursAt(r.description.value, Decimal(status), |ErrorPreamble + HttpErrorPrefix|)
  {
    var message := HttpErrorMessage(status, statusText);
    assert Feed(Response(status, statusText, body), parse) == Failure(message);
    FailureIsReported(target, now, loc, message);
    OccursAfterPrefix(ErrorPreamble, message, Decimal(status), |HttpErrorPrefix|);
  }

  /** An event without start or end makes the whole lookup fail, wherever it starts. */
  lemma MissingTimeFails(target: int, now: int, loc: Locale, es: seq<Event>, i: nat)
    requires i < |es| && !Timed(es[i])
    ensures PlanningEmbed(target, now, loc, Success(es)) == Errored(Heading(target, now, loc), NullPropertyMessage)
  {
  }

  /**
   * The layout of a block: `**title**` with the placeholder for a missing or empty
   * summary; the value opens with the time line, then a `Lieu` line exactly when the
   * location is non-empty, then a `Prof` line exactly when the description is non-empty.
   */
  lemma FieldLayout(e: Event, loc: Locale)
    requires Timed(e)
    ensures var f := EventField(e, loc); var t := TimeLine(e, loc);
      && f.name == "**" + (if Truthy(e.summary) then e.summary.value else Untitled) + "**"
      && !f.inline
      && |t| <= |f.value| && f.value[..|t|] == t
      && (!Truthy(e.location) && !Truthy(e.description) ==> f.value == t)
      && (Truthy(e.location) ==> OccursAt(f.value, "\nLieu: " + e.location.value, |t|))
      && (Truthy(e.description) ==> f.value == t + LocationLine(e) + "\nProf: " + FirstLine(e.description.value))
      && (!Truthy(e.description) ==> f.value == t + LocationLine(e))
  {
    var f := EventField(e, loc);
    var t := TimeLine(e, loc);
    assert f.value == t + (LocationLine(e) + TeacherLine(e));
    if Truthy(e.location) {
      var l := "\nLieu: " + e.location.value;
      assert f.value == t + l + TeacherLine(e);
      assert f.value[|t|..|t| + |l|] == l;
    }
  }

  /** A text without any backslash holds no escaped newline. */
  lemma NoBackslashNoEscape(d: string)
    requires '\\' !in d
    ensures forall j :: !OccursAt(d, EscapedNewline, j)
  {
    forall j | 0 <= j && j + 2 <= |d| ensures !OccursAt(d, EscapedNewline, j) {
      assert d[j..j + 2][0] == d[j] && d[j] in d;
    }
  }

  /** A description without any backslash, real line breaks included, is shown whole. */
  lemma NoBackslashShownWhole(d: string)
    requires '\\' !in d
    ensures FirstLine(d) == d
  {
    NoBackslashNoEscape(d);
  }

  /** The teacher text stops right before the first escaped newline. */
  lemma CutAtFirstEscape(a: string, b: string)
    requires forall j :: !OccursAt(a, EscapedNewline, j)
    ensures FirstLine(a + EscapedNewline + b) == a
  {
    var d := a + EscapedNewline + b;
    assert OccursAt(d, EscapedNewline, |a|);
    forall j | 0 <= j < |a| ensures !OccursAt(d, EscapedNewline, j) {
      if j + 2 <= |a| {
        assert d[j..j + 2] == a[j..j + 2];
        assert !OccursAt(a, EscapedNewline, j);
      } else {
        assert d[j + 1] == '\\';
      }
    }
  }

  /** The escaped newline cuts the teacher text. */
  lemma EscapeCutsExample()
    ensures FirstLine("Dr. Martin" + EscapedNewline + "Salle 204") == "Dr. Martin"
  {
    var a := "Dr. Martin";
    forall j ensures !OccursAt(a, EscapedNewline, j) {
      if 0 <= j && j + 2 <= |a| {
        assert a[j] != '\\';
      }
    }
    CutAtFirstEscape(a, "Salle 204");
  }

  /** A real line break does not cut the teacher text. */
  lemma LineBreakKeptExample()
    ensures FirstLine("Dr. Martin\nSalle 204") == "Dr. Martin\nSalle 204"
  {
    NoBackslashShownWhole("Dr. Martin\nSalle 204");
  }

  /** A backslash that does not start an escaped newline does not cut the text. */
  lemma PathCutExample()
    ensures FirstLine("C:\\x\\nB") == "C:\\x"
  {
    var a := "C:\\x";
    forall j ensures !OccursAt(a, EscapedNewline, j) {
      if 0 <= j && j + 2 <= |a| {
        assert a[j + 1] != 'n';
      }
    }
    CutAtFirstEscape(a, "B");
    assert a + EscapedNewline + "B" == "C:\\x\\nB";
  }
}
