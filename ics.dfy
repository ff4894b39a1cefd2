/** `generate_ics`: one all-day, transparent calendar event per pickup, each with
    an optional reminder one day ahead. Events are records here; their iCalendar
    text (`to_ical`) is not modelled. */
module Ics {
  import opened Text
  import opened Dates
  import opened Schedule

  /** TRANSP value for time that does not block (section 3.8.2.7 of RFC 5545). */
  const TRANSPARENT := "TRANSPARENT"

  /** Alarm TRIGGER duration: one day before the start (section 3.8.6.3 of RFC 5545). */
  const ONE_DAY_BEFORE := "-P1DT0H0M0S"

  datatype Alarm = Alarm(summary: string, trigger: string)

  /** A VEVENT whose DTSTART and DTEND are DATE values. */
  datatype Event = Event(dtstart: Date, dtend: Date, summary: string, transp: string, alarm: Option<Alarm>)

  /** `notifications == 'true' or notifications == '1'`; an unset (`nil`) flag is neither. */
  predicate NotificationsOn(notifications: Option<string>)
  {
    notifications == Some("true") || notifications == Some("1")
  }

  predicate AllParse(pickups: seq<Pickup>)
  {
    forall i :: 0 <= i < |pickups| ==> ParseIsoDate(pickups[i].timestamp).Some?
  }

  /** The event one loop iteration builds. */
  function EventFor(p: Pickup, notifications: Option<string>): Event
    requires ParseIsoDate(p.timestamp).Some?
  {
    var dt := ParseIsoDate(p.timestamp).value;
    var alarm := if NotificationsOn(notifications) then Some(Alarm(p.fraction, ONE_DAY_BEFORE)) else None;
    Event(dt, NextDay(dt), p.fraction, TRANSPARENT, alarm)
  }

  /** The events the loop adds, in the order it adds them. */
  function EventsFor(pickups: seq<Pickup>, notifications: Option<string>): seq<Event>
    requires AllParse(pickups)
  {
    if pickups == [] then []
    else EventsFor(pickups[..|pickups| - 1], notifications) + [EventFor(pickups[|pickups| - 1], notifications)]
  }

  /** An `Icalendar::Calendar`: its timezone components and its events. */
  class Calendar {
    var timezones: seq<string>
    var events: seq<Event>

    constructor ()
      ensures timezones == [] && events == []
    {
      timezones := [];
      events := [];
    }

    /** `cal.timezone { |t| t.tzid = ... }`. */
    method AddTimezone(tzid: string)
      modifies this
      ensures timezones == old(timezones) + [tzid] && events == old(events)
    {
      timezones := timezones + [tzid];
    }

    /** `cal.add_event`. */
    method AddEvent(e: Event)
      modifies this
      ensures events == old(events) + [e] && timezones == old(timezones)
    {
      events := events + [e];
    }
  }

  /** Builds the calendar: the configured timezone, then one event per pickup. */
  method GenerateIcs(pickups: seq<Pickup>, timezone: string, notifications: Option<string>) returns (cal: Calendar)
    requires AllParse(pickups)
    ensures fresh(cal)
    ensures cal.timezones == [timezone]
    ensures cal.events == EventsFor(pickups, notifications)
  {
    cal := new Calendar();
    cal.AddTimezone(timezone);
    var i := 0;
    while i < |pickups|
      invariant 0 <= i <= |pickups|
      invariant cal.timezones == [timezone]
      invariant cal.events == EventsFor(pickups[..i], notifications)
    {
      var pickup := pickups[i];
      var dt := ParseIsoDate(pickup.timestamp).value;
      var alarm := None;
      if notifications == Some("true") || notifications == Some("1") {
        alarm := Some(Alarm(pickup.fraction, ONE_DAY_BEFORE));
      }
      var event := Event(dt, NextDay(dt), pickup.fraction, TRANSPARENT, alarm);
      assert pickups[..i + 1][..i] == pickups[..i];
      cal.AddEvent(event);
      i := i + 1;
    }
    assert pickups[..i] == pickups;
  }

  /** The events are the loop's per-pickup events, one per pickup, in order. */
  lemma {:induction false} EventsForIndex(pickups: seq<Pickup>, notifications: Option<string>)
    requires AllParse(pickups)
    ensures |EventsFor(pickups, notifications)| == |pickups|
    ensures forall i :: 0 <= i < |pickups| ==> EventsFor(pickups, notifications)[i] == EventFor(pickups[i], notifications)
  {
    if pickups != [] {
      var n := |pickups| - 1;
      var prefix := pickups[..n];
      EventsForIndex(prefix, notifications);
      var front := EventsFor(prefix, notifications);
      assert EventsFor(pickups, notifications) == front + [EventFor(pickups[n], notifications)];
      forall i | 0 <= i < n
        ensures EventsFor(pickups, notifications)[i] == EventFor(pickups[i], notifications)
      {
        assert EventsFor(pickups, notifications)[i] == front[i];
        assert prefix[i] == pickups[i];
      }
    }
  }

  /** An event starts on its pickup's date (printed back with `%F` it is the
      timestamp's date part), ends the next day, is summarised by the fraction,
      is transparent, and carries a reminder one day ahead exactly when
      notifications are on. */
  lemma EventForSpec(p: Pickup, notifications: Option<string>)
    requires ParseIsoDate(p.timestamp).Some?
    ensures var e := EventFor(p, notifications);
            && Some(e.dtstart) == ParseIsoDate(p.timestamp)
            && FormatIso(e.dtstart) == p.timestamp[..10]
            && e.dtend == NextDay(e.dtstart)
            && Valid(e.dtstart) && Valid(e.dtend)
            && DayNumber(e.dtend) == DayNumber(e.dtstart) + 1
            && e.summary == p.fraction
            && e.transp == TRANSPARENT
            && (e.alarm.Some? <==> NotificationsOn(notifications))
            && (e.alarm.Some? ==> e.alarm.value == Alarm(p.fraction, ONE_DAY_BEFORE))
  {
    FormatParsedIso(p.timestamp);
    NextDayNumber(ParseIsoDate(p.timestamp).value);
  }

  /** Both together, for the whole calendar. */
  lemma EventsForSpec(pickups: seq<Pickup>, notifications: Option<string>)
    requires AllParse(pickups)
    ensures |EventsFor(pickups, notifications)| == |pickups|
    ensures forall i :: 0 <= i < |pickups| ==>
              var e := EventsFor(pickups, notifications)[i];
              && FormatIso(e.dtstart) == pickups[i].timestamp[..10]
              && Valid(e.dtstart) && Valid(e.dtend)
              && DayNumber(e.dtend) == DayNumber(e.dtstart) + 1
              && e.summary == pickups[i].fraction
              && e.transp == TRANSPARENT
              && (e.alarm.Some? <==> NotificationsOn(notifications))
              && (e.alarm.Some? ==> e.alarm.value == Alarm(pickups[i].fraction, ONE_DAY_BEFORE))
  {
    EventsForIndex(pickups, notifications);
    forall i | 0 <= i < |pickups|
      ensures var e := EventsFor(pickups, notifications)[i];
              && FormatIso(e.dtstart) == pickups[i].timestamp[..10]
              && Valid(e.dtstart) && Valid(e.dtend)
              && DayNumber(e.dtend) == DayNumber(e.dtstart) + 1
              && e.summary == pickups[i].fraction
              && e.transp == TRANSPARENT
              && (e.alarm.Some? <==> NotificationsOn(notifications))
              && (e.alarm.Some? ==> e.alarm.value == Alarm(pickups[i].fraction, ONE_DAY_BEFORE))
    {
      EventForSpec(pickups[i], notifications);
    }
  }

  /** The pickups the filter produces can always be rendered, and every rendered
      event reads back as its pickup's date and fraction. */
  lemma NormalizedRenders(items: seq<Item>, notifications: Option<string>)
    requires Normalize(items).Some?
    ensures AllParse(Normalize(items).value)
    ensures var ps := Normalize(items).value;
            var es := EventsFor(ps, notifications);
            |es| == |ps| && forall i :: 0 <= i < |ps| ==>
              (FormatIso(es[i].dtstart), es[i].summary) == (ps[i].timestamp[..10], ps[i].fraction)
  {
    var ps := Normalize(items).value;
    NormalizedTimestampsParse(items);
    assert forall i :: 0 <= i < |ps| ==> ps[i] in ps;
    EventsForSpec(ps, notifications);
  }
}
