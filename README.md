# EfreiCalendar planning bot — a verified model of its core

The bot answers chat commands with a day's timetable taken from an iCalendar feed.
This project models, in Dafny, the sequential logic inside `index.js`:

* **the day lookup** (`getPlanningEmbedForDate`): the outcome of the feed request, the
  closed window `[00:00:00.000, 23:59:59.999]` of the requested local day, the scan that
  keeps, in feed order, the events whose *start* falls in that window, the rendering of
  each kept event as a block (`**title**`, an `Heure:` line, optional `Lieu:` and `Prof:`
  lines, the latter cut at the first escaped newline `\n`), and the three possible embeds:
  the blocks, the fixed "nothing scheduled" text, or the red error embed;
* **the command dispatch** of `messageCreate`: bot messages ignored, `uwu` in any case,
  exact `!planning today`, exact `!planning`, every other `!planning…` ignored;
* **the selection prompt**: five candidate dates (today and the next four days), one
  keycap marker each, the markers attached in order, the reaction filter (a marker, from
  the command's author), the first qualifying reaction or the timeout, and the mapping of
  the marker back to its date;
* **the feed address rewrite**: the first `webcal://` of the configured address becomes `https://`.

Files, one module each: `wrappers.dfy` (Option, Result), `text.dfy` (the JavaScript string
operations used: `indexOf`, `replace`, `toLowerCase`, number rendering), `calendar.dfy`
(events, day windows, the filter), `embeds.dfy` (the embed value and its builder class),
`planning.dfy` (the day lookup), `selection.dfy` (the prompt and the reactions), `bot.dfy`
(address rewrite, dispatch, the message handler).

Timestamps are integer milliseconds; local time is a fixed offset from UTC. The locale
renderers (`toLocaleTimeString`, `toLocaleDateString`), the feed parser and the outcome of the
HTTP request are inputs. What the handler sends, reacts with and deletes is recorded in order
as a sequence of `Bot.Action` values.

## Model

| member | source | states |
|---|---|---|
| `Text.Find` | index.js:18 | the result is -1 exactly when the pattern does not occur, otherwise the least index where it occurs |
| `Text.ReplaceFirst` | index.js:18 | with no occurrence the text is unchanged; otherwise exactly the first occurrence is replaced and the rest is kept |
| `Bot.IcalUrl` | index.js:18 | an address without `webcal://` is kept; otherwise exactly its first `webcal://` becomes `https://` and everything around it is kept |
| `Bot.WebcalBecomesHttps` | index.js:18 | a `webcal://` address becomes `https://` followed by the same remainder, whatever that remainder holds |
| `Bot.LaterWebcalKept` | index.js:18 | a second `webcal://` later in the address survives the rewrite, shifted by the shorter scheme |
| `Bot.OtherUrlKept` | index.js:18 | an address without `webcal://` is used as configured |
| `Selection.EmojisDistinct` | index.js:20 | there are five markers and they are pairwise distinct |
| `Planning.Heading` | index.js:25-29 | before the `try`: blue, the dated title, the timestamp and the footer, with no description and no blocks |
| `Embeds.EmbedBuilder.constructor` | index.js:25 | a new builder describes the blank embed |
| `Embeds.EmbedBuilder.SetColor` | index.js:26 | sets the colour and changes nothing else |
| `Embeds.EmbedBuilder.SetTitle` | index.js:27 | sets the title and changes nothing else |
| `Embeds.EmbedBuilder.SetTimestamp` | index.js:28 | sets the timestamp and changes nothing else |
| `Embeds.EmbedBuilder.SetFooter` | index.js:29 | sets the footer and changes nothing else |
| `Embeds.EmbedBuilder.SetDescription` | index.js:75 | sets the description and changes nothing else |
| `Embeds.EmbedBuilder.AddFields` | index.js:77 | appends the blocks after those already present and changes nothing else |
| `Planning.StatusOk` | index.js:35 | `response.ok`: the status lies between 200 and 299 (a definition; its consequences are stated by `Planning.Feed`) |
| `Planning.HttpErrorMessage` | index.js:36 | the message starts with `Erreur HTTP: `, is followed by the status code in digits that read back as that code, then a space and the status text |
| `Planning.Feed` | index.js:34-42 | the events are obtained exactly when a response came back with an OK status and its body parsed; a missing response, a non-OK status and a parse error each yield their own error message |
| `Text.Decimal` | index.js:36 | the status code renders as a non-empty string of digits with no leading zero |
| `Text.DecimalRoundTrip` | index.js:36 | the rendered status code reads back as the same number |
| `Calendar.LocalMidnight` | index.js:44-45 | the result is a local midnight, at most one day minus 1 ms before the given instant |
| `Calendar.MidnightUnique` | index.js:44-45 | that midnight is the only local midnight in the day before the instant |
| `Calendar.DayWindow` | index.js:44-47 | the window starts at local midnight, ends 86 399 999 ms later, and contains the target instant |
| `Calendar.WindowIsClosed` | index.js:44-59 | starts at 00:00:00.000 and at 23:59:59.999 are kept, one millisecond outside either end is not, and the end time never matters |
| `Calendar.InWindow` | index.js:59 | an event is in the window when its start lies between both ends inclusive; the end instant is not consulted (a definition; see `Calendar.WindowIsClosed`) |
| `Calendar.Filter` | index.js:59 | the kept events are never more than the feed's |
| `Calendar.FilterMembers` | index.js:59 | an event is kept if and only if it is in the feed and its start lies in the window |
| `Calendar.FilterEmpty` | index.js:59 | nothing is kept if and only if no event of the feed starts in the window |
| `Calendar.FilterKept` | index.js:59 | every kept event starts in the window, and has both timestamps when the feed's events do |
| `Calendar.FilterAppend` | index.js:51-72 | filtering a concatenation filters each part and keeps their order: the scan never re-sorts |
| `Planning.FirstLine` | index.js:64 | the result is the prefix of the description before the first escaped newline, or the whole description when there is none |
| `Planning.NoBackslashShownWhole` | index.js:64 | a description without a backslash, real line breaks included, is shown whole |
| `Planning.NoBackslashNoEscape` | index.js:64 | a text without a backslash holds no escaped newline |
| `Planning.CutAtFirstEscape` | index.js:64 | text without an escaped newline (other backslashes allowed), escaped newline, more text: only the first text is shown |
| `Planning.EscapeCutsExample` | index.js:64 | `Dr. Martin`, escaped newline, `Salle 204` shows `Dr. Martin` |
| `Planning.LineBreakKeptExample` | index.js:64 | `Dr. Martin`, real line break, `Salle 204` is shown whole |
| `Planning.PathCutExample` | index.js:64 | `C:\x\nB` (`C:`, a backslash, `x`, an escaped newline, `B`) shows `C:\x`: a backslash not followed by `n` does not cut |
| `Planning.EventField` | index.js:61-70 | the block of one kept event: the field name, then the time line, the optional location line and the optional teacher line, not inline (a definition; its layout is stated by `Planning.FieldLayout`) |
| `Planning.FieldLayout` | index.js:61-70 | a block is `**summary**` or `**Sans titre**`, not inline, opens with the time line, has a `Lieu:` line exactly when the location is non-empty and a `Prof:` line exactly when the description is non-empty |
| `Planning.Fields` | index.js:66-70 | one block per event, the i-th block rendering the i-th event |
| `Planning.FieldsAppend` | index.js:66-70 | the blocks of a concatenation are the blocks of its parts, in order |
| `Planning.ScanEvents` | index.js:49-72 | the loop fails exactly when some event lacks its start or end; otherwise its blocks are those of the kept events in feed order and its flag is raised exactly when some event was kept |
| `Planning.PlanningEmbed` | index.js:24-85 | title, timestamp and footer are always set; the colour is red exactly on a failure, blue otherwise; a description is set exactly when there are no blocks |
| `Planning.PlanningEmbedForDate` | index.js:24-86 | the builder, driven call by call, ends in the embed `PlanningEmbed` describes for the obtained feed |
| `Planning.NothingScheduled` | index.js:74-75 | the embed is the heading plus the fixed "Aucun événement prévu…" text, with no blocks and the blue colour, if and only if no event starts on the day |
| `Planning.OneFieldPerEvent` | index.js:59-77 | when some event starts on the day the embed holds exactly one block per such event, in feed order, with no description and the blue colour |
| `Planning.FieldsFollowFeedOrder` | index.js:51-77 | the blocks for a feed are the blocks for its first part followed by those for the rest |
| `Planning.Errored` | index.js:82-83 | the `catch` block: the description becomes the preamble plus the message and the colour red; everything else is kept |
| `Planning.FailureIsReported` | index.js:80-83 | a fetch or parse failure gives the heading, in red, with the error text embedding the message |
| `Planning.HttpFailureIsReported` | index.js:35-36 | a non-OK status gives the red embed whose description holds `Erreur HTTP:`, the status code and the status text |
| `Planning.MissingTimeFails` | index.js:52-53 | an event without start or end makes the lookup fail, even if it lies outside the day |
| `Selection.PromptDates` | index.js:109-112 | five dates, the i-th exactly i days after now |
| `Selection.SelectionEmbed` | index.js:113-126 | the prompt is orange, carries the timestamp, and its i-th block is marker i followed by the i-th date |
| `Selection.OptionField` | index.js:113-117 | the option block's name is marker i, a space and the date text; its value is a zero-width space; not inline |
| `Selection.CandidateDates` | index.js:106-118 | the loop yields exactly the five prompt dates and the prompt's five option blocks |
| `Selection.IndexOf` | index.js:141 | -1 exactly when the marker is absent, otherwise its first position |
| `Selection.SelectedDate` | index.js:141-144 | a non-marker selects nothing; marker k selects the k-th date when there is one |
| `Selection.Qualifies` | index.js:134-136 | the collector's filter: the emoji is one of the five markers and the reacting user is the command's author (a definition) |
| `Selection.QualifiesByIndex` | index.js:134-141 | the filter's `includes` test agrees with the `indexOf` lookup made on the collected reaction |
| `Selection.FirstQualifyingIndex` | index.js:134-138 | the position of the first reaction that is a marker from the author, or -1 exactly when none is |
| `Selection.FirstQualifying` | index.js:134-138 | the collected reaction passes the filter and every earlier one fails it; nothing is collected exactly when none passes |
| `Selection.IgnoredReactions` | index.js:134-138 | reactions that fail the filter change which reaction is collected in no way |
| `Selection.MarkerSelectsDay` | index.js:140-145 | marker k selects now plus k days, whose window is today's moved by k days |
| `Calendar.WindowAfterDays` | index.js:109-111 | the window of the day k days later is today's window moved by k days |
| `Selection.QualifyingAlwaysResolves` | index.js:141-148 | a reaction that passes the filter always maps to a date, so the invalid-selection reply is unreachable from the prompt |
| `Text.Lower` | index.js:95 | same length, each character folded |
| `Bot.CommandTexts` | index.js:100-105 | both planning commands start with `!planning` and neither can lower-case to `uwu` |
| `Bot.Classify` | index.js:93-105 | `uwu` (after lower-casing), exact `!planning today` and exact `!planning` from a non-bot are each recognised if and only if the text is exactly that |
| `Bot.BotMessagesIgnored` | index.js:93 | a bot's message is ignored whatever it says |
| `Bot.UwuAnyCase` | index.js:95 | the trivial trigger is exactly `u`/`U`, `w`/`W`, `u`/`U` |
| `Bot.OtherPlanningTextIgnored` | index.js:100-105 | any other text starting with `!planning` does nothing |
| `Bot.MarkerReactions` | index.js:130-132 | five reactions, the i-th with marker i |
| `Bot.AttachMarkers` | index.js:130-132 | the loop attaches the first `count` markers, in order |
| `Bot.Resolution` | index.js:139-155 | timeout: delete then the timeout notice; marker k: the planning of now plus k days, then delete; a non-marker: the invalid-selection text, then delete |
| `Bot.ResolveSelection` | index.js:139-155 | the collector's continuation performs exactly what `Resolution` describes |
| `Bot.PromptActions` | index.js:128-155 | the prompt flow issues eight actions: the prompt, the five markers in order, then the two actions of `Bot.Resolution` |
| `Bot.RunPrompt` | index.js:105-156 | the prompt branch sends the prompt, its five markers in order, then the resolution of the first qualifying reaction |
| `Bot.HandleMessage` | index.js:92-157 | ignored messages send nothing, `uwu` sends the link, `!planning today` sends today's planning, `!planning` runs the prompt |
| `Bot.PromptListing` | index.js:109-132 | the prompt lists five dates starting today, each behind its own marker, and the markers follow in that order |
| `Bot.PromptEndsOnce` | index.js:139-155 | the prompt is deleted exactly once; the timeout notice is sent once on a timeout and never otherwise |
| `Bot.ForeignReactionsTimeOut` | index.js:134-155 | if only other users react, or only with other emojis, the prompt times out |
| `Bot.ThirdMarkerExample` | index.js:140-146 | marker 3 from the author resolves to today plus two days |

## Left out

- Discord client set-up, login, the `ready` log and the gateway itself (index.js:8-15, 88-90, 159): network side effects. Sending, reacting and deleting are recorded as `Bot.Action` values in issue order; their failures (`.catch(console.error)`) are not modelled, nor is a `send` failure inside the collector's `then` falling through to its `catch`.
- `fetch` and `response.text()` (index.js:34-38): network I/O. Their outcome is the input `Planning.HttpOutcome`; `response.ok` is a status from 200 to 299.
- `ICAL.parse`, `ICAL.Component` and `getAllSubcomponents` (index.js:40-42): a foreign parser whose grammar is not part of this model. It is the parameter `Planning.Parser`, returning the events or the parser's error message. The conversion of property values to dates is taken as given: an unparseable date (`Invalid Date`, compared as NaN) is not modelled.
- Locale formatting (`toLocaleTimeString`, `toLocaleDateString`): the function fields of `Calendar.Locale`.
- Time zones: local time is a fixed offset, so every day lasts 86 400 000 ms and `setDate(getDate() + i)` adds exactly i days. Daylight-saving days are not modelled.
- The clock: one instant `now` per handled message. The source reads the clock separately for every `new Date()` and `setTimestamp()`, including the later timestamp of the planning sent after a reaction.
- The 60-second wait of `awaitReactions` (index.js:138): its outcome is the input sequence of reactions added within the wait, and the collector takes the first one that passes the filter. Timing itself is not modelled.
- Validation inside the embed builder library (at most 25 blocks, length limits), at either place where it could fail. A failure of `embed.addFields(eventFields)` (index.js:77) would be thrown inside the `try` and reported as an error embed. A failure of `embed.setDescription(...)` in the `catch` block (index.js:82), for instance with a too-long error message, is outside the `try`: `getPlanningEmbedForDate` would reject, `!planning today` would then send nothing, and in the prompt flow the collector's `.catch` (index.js:152-155) would send the timeout notice. The model raises neither error, so it promises nothing about these two cases.
- The TypeError text for a missing `dtstart`/`dtend` is the wording of current Node.js (V8) releases, `Cannot read properties of null (reading 'getFirstValue')`. Older releases word it `Cannot read property 'getFirstValue' of null`; the runtime version is not fixed by the source, so only the current wording is modelled.
- `dotenv`, the environment and `console` logging (index.js:1-2, 17, 81, 89): a missing `ICAL_URL` would stop the program at start-up; not modelled.
- Text.Lower: folds ASCII letters only, where `toLowerCase` folds all of Unicode. For the one comparison the bot makes, with `uwu`, the outcome is the same, since only `U` and `W` lower-case to `u` and `w`.
- Text.ReplaceFirst: `$` patterns in the replacement string are not interpreted; the bot's replacement, `https://`, has none.

## Notes

The truncation of the teacher line follows the code: the description is cut at the
two-character sequence backslash-`n`, not at a line break character (index.js:64). A
description whose line break reaches the bot as a real newline, for instance
`Dr. Martin` + line break + `Salle 204`, is therefore shown whole (`Planning.EscapeCutsExample`, `Planning.LineBreakKeptExample`,
`Planning.NoBackslashShownWhole`). Whether the feed parser leaves escaped newlines in place is
a property of that library, which is not part of this model.

An event whose `dtstart` or `dtend` is absent is read without optional chaining
(index.js:52-53). The resulting TypeError is caught by the surrounding `try`, so one such
event anywhere in the feed turns the whole lookup into the red error embed
(`Planning.MissingTimeFails`).
