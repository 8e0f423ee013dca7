/** Reading an iCalendar feed: unfolding content lines, undoing text escapes and collecting
    VEVENTs. */
module Ics {
  import opened Clock
  import opened Options
  import opened Text

  // ----- unfolding -------------------------------------------------------------------------

  function NormaliseBreaks(raw: string): string {
    ReplaceAll(ReplaceAll(raw, "\r\n", "\n"), "\r", "\n")
  }

  /** The content lines that physical lines stand for: blank ones vanish, and one that starts
      with a space or tab continues the line before it, if there is one. */
  function Glue(physical: seq<string>): (lines: seq<string>)
    ensures |lines| <= |physical|
  {
    if physical == [] then []
    else
      var out, line := Glue(physical[..|physical| - 1]), physical[|physical| - 1];
      if line == "" then out
      else if (line[0] == ' ' || line[0] == '\t') && |out| > 0
      then out[|out| - 1 := out[|out| - 1] + line[1..]]
      else out + [line]
  }

  function Unfold(raw: string): seq<string> {
    Glue(Split(NormaliseBreaks(raw), '\n'))
  }

  method UnfoldICS(raw: string) returns (out: seq<string>)
    ensures out == Unfold(raw)
  {
    var text := ReplaceAll(raw, "\r\n", "\n");
    text := ReplaceAll(text, "\r", "\n");
    var physical := Split(text, '\n');
    out := [];
    var i := 0;
    while i < |physical|
      invariant 0 <= i <= |physical|
      invariant out == Glue(physical[..i])
    {
      var line := physical[i];
      assert physical[..i + 1][..i] == physical[..i];
      i := i + 1;
      if line == "" {
        continue;
      }
      if (line[0] == ' ' || line[0] == '\t') && |out| > 0 {
        out := out[|out| - 1 := out[|out| - 1] + line[1..]];
        continue;
      }
      out := out + [line];
    }
    assert physical[..i] == physical;
  }

  // ----- properties ------------------------------------------------------------------------

  /** Splits a content line at its first colon. */
  function SplitProp(line: string): (string, string) {
    var i := IndexOf(line, ':');
    if i < 0 then (line, "") else (line[..i], line[i + 1..])
  }

  /** One left-to-right pass undoing the escapes of a TEXT value; an escaped newline reads as a
      space. */
  function Unescape(s: string): string
    decreases |s|
  {
    if |s| >= 2 && s[0] == '\\' && (s[1] == 'n' || s[1] == 'N') then " " + Unescape(s[2..])
    else if |s| >= 2 && s[0] == '\\' && (s[1] == ',' || s[1] == ';' || s[1] == '\\') then [s[1]] + Unescape(s[2..])
    else if s == "" then ""
    else [s[0]] + Unescape(s[1..])
  }

  function UnescapeText(s: string): string {
    TrimSpace(Unescape(s))
  }

  /** Reading and showing times is left to the platform; only which reader is tried is ours. */
  datatype Codec = Codec(utc: string -> Option<Time>,
                         local: (string, string) -> Option<Time>,
                         date: string -> Option<Time>,
                         knownZone: string -> bool,
                         clock: Time -> string)

  const LONDON := "Europe/London"

  /** The last TZID parameter naming a zone the platform knows; London otherwise. */
  function ZoneOf(c: Codec, params: seq<string>): string {
    if params == [] then LONDON
    else
      var p := params[|params| - 1];
      var named := Trim(if |p| >= 5 then p[5..] else "", "\"");
      if "TZID=" <= ToUpper(p) && c.knownZone(named) then named else ZoneOf(c, params[..|params| - 1])
  }

  datatype Moment = Moment(at: Time, allDay: bool)

  /** The three DTSTART shapes: UTC, local in some zone, and date only. */
  function ParseTime(c: Codec, name: string, raw: string): Option<Moment> {
    var value := TrimSpace(raw);
    if HasSuffix(value, "Z") && c.utc(value).Some? then Some(Moment(c.utc(value).value, false))
    else if |value| == 15 && c.local(value, ZoneOf(c, Split(name, ';')[1..])).Some?
    then Some(Moment(c.local(value, ZoneOf(c, Split(name, ';')[1..])).value, false))
    else if |value| == 8 && c.date(value).Some? then Some(Moment(c.date(value).value, true))
    else None
  }

  // ----- events ----------------------------------------------------------------------------

  /** The zero instant, which an event with no usable DTSTART is left with. */
  const ZERO_TIME: Time := 0

  datatype CalendarEvent = CalendarEvent(summary: string, start: Time, whenText: string, allDay: bool)

  const BLANK := CalendarEvent("", ZERO_TIME, "", false)

  function FormatWhen(c: Codec, e: CalendarEvent): string {
    if e.allDay then "all day" else c.clock(e.start)
  }

  datatype Reader = Reader(out: seq<CalendarEvent>, cur: Option<CalendarEvent>)

  /** What one content line does to the events read so far and the one being read. */
  function ReadLine(c: Codec, r: Reader, line: string): Reader {
    var upper := ToUpper(line);
    if upper == "BEGIN:VEVENT" then r.(cur := Some(BLANK))
    else if upper == "END:VEVENT" then
      if r.cur.Some? && r.cur.value.start != ZERO_TIME
      then Reader(r.out + [r.cur.value.(whenText := FormatWhen(c, r.cur.value))], None)
      else r.(cur := None)
    else if r.cur.None? then r
    else if "SUMMARY" <= upper then r.(cur := Some(r.cur.value.(summary := UnescapeText(SplitProp(line).1))))
    else if "DTSTART" <= upper then
      var t := ParseTime(c, SplitProp(line).0, SplitProp(line).1);
      if t.Some? then r.(cur := Some(r.cur.value.(start := t.value.at, allDay := t.value.allDay))) else r
    else r
  }

  function ReadLines(c: Codec, r: Reader, lines: seq<string>): Reader
    decreases |lines|
  {
    if lines == [] then r else ReadLines(c, ReadLine(c, r, lines[0]), lines[1..])
  }

  function Parse(c: Codec, raw: string): seq<CalendarEvent> {
    ReadLines(c, Reader([], None), Unfold(raw)).out
  }

  lemma {:induction false} ReadLinesConcat(c: Codec, r: Reader, a: seq<string>, b: seq<string>)
    ensures ReadLines(c, r, a + b) == ReadLines(c, ReadLines(c, r, a), b)
    decreases |a|
  {
    if a == [] {
      assert a + b == b;
    } else {
      assert (a + b)[1..] == a[1..] + b;
      ReadLinesConcat(c, ReadLine(c, r, a[0]), a[1..], b);
    }
  }

  method ParseICS(c: Codec, raw: string) returns (out: seq<CalendarEvent>)
    ensures out == Parse(c, raw)
  {
    out := [];
    var cur: Option<CalendarEvent> := None;
    var lines := UnfoldICS(raw);
    for i := 0 to |lines|
      invariant Reader(out, cur) == ReadLines(c, Reader([], None), lines[..i])
    {
      var line := lines[i];
      assert lines[..i + 1] == lines[..i] + [line];
      ReadLinesConcat(c, Reader([], None), lines[..i], [line]);
      var upper := ToUpper(line);
      if upper == "BEGIN:VEVENT" {
        cur := Some(BLANK);
      } else if upper == "END:VEVENT" {
        if cur.Some? && cur.value.start != ZERO_TIME {
          out := out + [cur.value.(whenText := FormatWhen(c, cur.value))];
        }
        cur := None;
      } else if cur.None? {
        continue;
      } else if "SUMMARY" <= upper {
        cur := Some(cur.value.(summary := UnescapeText(SplitProp(line).1)));
      } else if "DTSTART" <= upper {
        var (name, value) := SplitProp(line);
        var t := ParseTime(c, name, value);
        if t.Some? {
          cur := Some(cur.value.(start := t.value.at, allDay := t.value.allDay));
        }
      }
    }
    assert lines[..|lines|] == lines;
  }
}
