/**
 * Calendar events and the closed day window used to select them.
 * Times are integer milliseconds since the epoch; local time is the epoch
 * time shifted by a fixed offset (daylight-saving changes are not modelled).
 */
module Calendar {
  import opened Wrappers

  const MsPerDay: int := 86_400_000
  /** 23:59:59.999 after local midnight. */
  const LastMsOfDay: int := 86_399_999

  /** The locale the bot formats with: its UTC offset and the `fr-FR` renderers. */
  datatype Locale = Locale(offset: int, timeLabel: int -> string, dateLabel: int -> string)

  /** A closed interval of instants, both ends included. */
  datatype Window = Window(first: int, last: int)

  /** One `vevent` as the feed parser yields it; every property may be absent. */
  datatype Event = Event(
    start: Option<int>,
    end: Option<int>,
    summary: Option<string>,
    location: Option<string>,
    description: Option<string>)

  /** Local midnight of the day holding `t`: `setHours(0, 0, 0, 0)` on a copy of `t`. */
  function LocalMidnight(t: int, offset: int): (m: int)
    ensures m <= t < m + MsPerDay
    ensures (m + offset) % MsPerDay == 0
  {
    t - (t + offset) % MsPerDay
  }

  /** The window `[00:00:00.000, 23:59:59.999]` of the local day holding `t`. */
  function DayWindow(t: int, offset: int): (w: Window)
    ensures w.first <= t <= w.last
    ensures w.last == w.first + LastMsOfDay
    ensures (w.first + offset) % MsPerDay == 0
  {
    var m := LocalMidnight(t, offset);
    Window(m, m + LastMsOfDay)
  }

  /** Local midnight is the only midnight at most a day before `t`. */
  lemma MidnightUnique(t: int, offset: int, m: int)
    requires m <= t < m + MsPerDay
    requires (m + offset) % MsPerDay == 0
    ensures m == LocalMidnight(t, offset)
  {
    var m0 := LocalMidnight(t, offset);
    var q, q0 := (m + offset) / MsPerDay, (m0 + offset) / MsPerDay;
    assert m + offset == MsPerDay * q;
    assert m0 + offset == MsPerDay * q0;
    assert -MsPerDay < MsPerDay * (q - q0) < MsPerDay;
  }

  /** The window of the day `k` days after `t` is the window of `t`'s day moved by `k` days. */
  lemma WindowAfterDays(t: int, offset: int, k: nat)
    ensures DayWindow(t + k * MsPerDay, offset).first == DayWindow(t, offset).first + k * MsPerDay
    ensures DayWindow(t + k * MsPerDay, offset).last == DayWindow(t, offset).last + k * MsPerDay
  {
    var m := LocalMidnight(t, offset);
    var q := (m + offset) / MsPerDay;
    assert m + offset == MsPerDay * q;
    assert m + k * MsPerDay + offset == MsPerDay * (q + k);
    MidnightUnique(t + k * MsPerDay, offset, m + k * MsPerDay);
  }

  /** Both timestamps were present: reading them does not throw. */
  predicate Timed(e: Event)
  {
    e.start.Some? && e.end.Some?
  }

  predicate AllTimed(es: seq<Event>)
  {
    forall i :: 0 <= i < |es| ==> Timed(es[i])
  }

  /** `startDate >= start && startDate <= end`: only the start instant is tested. */
  predicate InWindow(w: Window, e: Event)
  {
    e.start.Some? && w.first <= e.start.value && e.start.value <= w.last
  }

  /** The events whose start lies in `w`, in feed order. */
  function Filter(es: seq<Event>, w: Window): (r: seq<Event>)
    ensures |r| <= |es|
  {
    if es == [] then []
    else (if InWindow(w, es[0]) then [es[0]] else []) + Filter(es[1..], w)
  }

  /** Filtering a concatenation filters each part and keeps them in order. */
  lemma {:induction false} FilterAppend(a: seq<Event>, b: seq<Event>, w: Window)
    ensures Filter(a + b, w) == Filter(a, w) + Filter(b, w)
  {
    if a == [] {
      assert a + b == b;
    } else {
      assert (a + b)[1..] == a[1..] + b;
      FilterAppend(a[1..], b, w);
    }
  }

  /** An event is kept exactly when it is in the feed and starts inside the window. */
  lemma {:induction false} FilterMembers(es: seq<Event>, w: Window, e: Event)
    ensures e in Filter(es, w) <==> e in es && InWindow(w, e)
  {
    if es != [] {
      FilterMembers(es[1..], w, e);
      assert es == [es[0]] + es[1..];
    }
  }

  /** Nothing is kept exactly when no event of the feed starts inside the window. */
  lemma {:induction false} FilterEmpty(es: seq<Event>, w: Window)
    ensures Filter(es, w) == [] <==> forall i :: 0 <= i < |es| ==> !InWindow(w, es[i])
  {
    if es != [] {
      FilterEmpty(es[1..], w);
      assert forall i :: 1 <= i < |es| ==> es[i] == es[1..][i - 1];
    }
  }

  /** Every kept event starts in the window and has its timestamps when the feed has them. */
  lemma {:induction false} FilterKept(es: seq<Event>, w: Window)
    ensures forall i :: 0 <= i < |Filter(es, w)| ==> InWindow(w, Filter(es, w)[i])
    ensures AllTimed(es) ==> AllTimed(Filter(es, w))
  {
    if es != [] {
      FilterKept(es[1..], w);
    }
  }

  /**
   * The window is closed at both ends: an event starting at 00:00:00.000 or at
   * 23:59:59.999 of the day is kept, one a millisecond outside either end is not,
   * and the event's end time plays no part.
   */
  lemma WindowIsClosed(t: int, offset: int, e: Event)
    ensures var w := DayWindow(t, offset); var m := LocalMidnight(t, offset);
      && InWindow(w, e.(start := Some(m)))
      && InWindow(w, e.(start := Some(m + LastMsOfDay)))
      && !InWindow(w, e.(start := Some(m - 1)))
      && !InWindow(w, e.(start := Some(m + MsPerDay)))
    ensures InWindow(DayWindow(t, offset), e) == InWindow(DayWindow(t, offset), e.(end := None))
  {
  }
}
