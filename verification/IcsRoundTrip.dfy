/** A printer for calendars, written from RFC 5545, and the proof that parsing undoes it:
    folding of content lines (section 3.1), TEXT escapes (section 3.3.11) and VEVENT blocks. */
module IcsRoundTrip {
  import opened Options
  import opened Text
  import opened Ics

  // ----- line breaks -------------------------------------------------------------------------

  predicate IsBreak(c: char) { c == '\r' || c == '\n' }

  predicate NoBreaks(s: string) {
    forall i :: 0 <= i < |s| ==> !IsBreak(s[i])
  }

  predicate AllBreaks(s: string) {
    forall i :: 0 <= i < |s| ==> IsBreak(s[i])
  }

  /** Physical lines, each followed by a run of line-break characters: one or more CRLF, LF or CR
      in any mixture, so blank lines are allowed everywhere.  The last run may be empty. */
  function Render(lead: string, lines: seq<string>, breaks: seq<string>): string
    requires |lines| == |breaks|
    decreases |lines|
  {
    if lines == [] then lead else lead + lines[0] + Render(breaks[0], lines[1..], breaks[1..])
  }

  predicate ValidBreaks(lead: string, breaks: seq<string>) {
    && AllBreaks(lead)
    && (forall i :: 0 <= i < |breaks| ==> AllBreaks(breaks[i]))
    && (forall i :: 0 <= i < |breaks| - 1 ==> breaks[i] != "")
  }

  function NonEmpty(lines: seq<string>): seq<string> {
    if lines == [] then []
    else (if lines[0] == "" then [] else [lines[0]]) + NonEmpty(lines[1..])
  }

  /** The non-blank physical lines the parser sees. */
  function Seen(raw: string): seq<string> {
    NonEmpty(Split(NormaliseBreaks(raw), '\n'))
  }

  lemma NormalisePlain(c: char, s: string)
    requires !IsBreak(c)
    ensures NormaliseBreaks([c] + s) == [c] + NormaliseBreaks(s)
  {
    assert ([c] + s)[1..] == s;
    var t := ReplaceAll(s, "\r\n", "\n");
    assert ([c] + s)[0] == c && "\r\n"[0] == '\r';
    assert ReplaceAll([c] + s, "\r\n", "\n") == [c] + t;
    assert ([c] + t)[1..] == t;
  }

  lemma SplitBreak(s: string)
    ensures NonEmpty(Split("\n" + s, '\n')) == NonEmpty(Split(s, '\n'))
  {
    assert ("\n" + s)[1..] == s;
    assert ([""] + Split(s, '\n'))[1..] == Split(s, '\n');
  }

  lemma NormaliseLf(s: string)
    ensures NormaliseBreaks("\n" + s) == "\n" + NormaliseBreaks(s)
  {
    assert ("\n" + s)[1..] == s;
    var t := ReplaceAll(s, "\r\n", "\n");
    assert ("\n" + s)[0] == '\n' && "\r\n"[0] == '\r';
    assert ReplaceAll("\n" + s, "\r\n", "\n") == "\n" + t;
    assert ("\n" + t)[1..] == t;
  }

  lemma NormaliseCrLf(s: string)
    ensures NormaliseBreaks("\r\n" + s) == "\n" + NormaliseBreaks(s)
  {
    assert ("\r\n" + s)[2..] == s;
    var t := ReplaceAll(s, "\r\n", "\n");
    assert ("\n" + t)[1..] == t;
  }

  lemma NormaliseCr(s: string)
    requires s == "" || s[0] != '\n'
    ensures NormaliseBreaks("\r" + s) == "\n" + NormaliseBreaks(s)
  {
    assert ("\r" + s)[1..] == s;
    var t := ReplaceAll(s, "\r\n", "\n");
    assert ReplaceAll("\r" + s, "\r\n", "\n") == "\r" + t;
    assert ("\r" + t)[1..] == t;
  }

  /** A line break, however it is written, leaves no line of its own behind. */
  lemma {:induction false} SkipBreaks(b: string, s: string)
    requires AllBreaks(b) && (s == "" || !IsBreak(s[0]))
    ensures Seen(b + s) == Seen(s)
    decreases |b|
  {
    if b == "" {
      assert b + s == s;
    } else if b[0] == '\n' {
      assert b + s == "\n" + (b[1..] + s);
      NormaliseLf(b[1..] + s);
      SplitBreak(NormaliseBreaks(b[1..] + s));
      SkipBreaks(b[1..], s);
    } else if |b| > 1 && b[1] == '\n' {
      assert b + s == "\r\n" + (b[2..] + s);
      NormaliseCrLf(b[2..] + s);
      SplitBreak(NormaliseBreaks(b[2..] + s));
      SkipBreaks(b[2..], s);
    } else {
      assert b + s == "\r" + (b[1..] + s);
      NormaliseCr(b[1..] + s);
      SplitBreak(NormaliseBreaks(b[1..] + s));
      SkipBreaks(b[1..], s);
    }
  }

  lemma {:induction false} NormalisePlainRun(p: string, s: string)
    requires NoBreaks(p)
    ensures NormaliseBreaks(p + s) == p + NormaliseBreaks(s)
  {
    if p == "" {
      assert p + s == s;
    } else {
      assert p + s == [p[0]] + (p[1..] + s);
      NormalisePlain(p[0], p[1..] + s);
      NormalisePlainRun(p[1..], s);
      assert p == [p[0]] + p[1..];
    }
  }

  lemma {:induction false} SplitPlainRun(p: string, s: string)
    requires NoBreaks(p)
    ensures Split(p + s, '\n')[0] == p + Split(s, '\n')[0]
    ensures Split(p + s, '\n')[1..] == Split(s, '\n')[1..]
  {
    if p == "" {
      assert p + s == s;
    } else {
      assert (p + s)[1..] == p[1..] + s;
      SplitPlainRun(p[1..], s);
      assert p == [p[0]] + p[1..];
    }
  }

  /** A break after a physical line normalises to a newline. */
  lemma BreakStartsWithNewline(b: string, s: string)
    requires AllBreaks(b) && b != ""
    ensures NormaliseBreaks(b + s) != "" && NormaliseBreaks(b + s)[0] == '\n'
  {
    if b[0] == '\n' {
      assert b + s == "\n" + (b[1..] + s);
      NormaliseLf(b[1..] + s);
    } else if |b + s| > 1 && (b + s)[1] == '\n' {
      assert b + s == "\r\n" + (b + s)[2..];
      NormaliseCrLf((b + s)[2..]);
    } else {
      assert b + s == "\r" + (b + s)[1..];
      NormaliseCr((b + s)[1..]);
    }
  }

  lemma SeenLineThenBreak(p: string, rest: string)
    requires p != "" && NoBreaks(p)
    requires NormaliseBreaks(rest) == "" || NormaliseBreaks(rest)[0] == '\n'
    ensures Seen(p + rest) == [p] + Seen(rest)
  {
    var t := NormaliseBreaks(rest);
    NormalisePlainRun(p, rest);
    SplitPlainRun(p, t);
    assert Split(t, '\n')[0] == "";
    var parts := Split(p + t, '\n');
    assert parts[0] == p;
    assert NonEmpty(parts) == [p] + NonEmpty(parts[1..]);
    assert NonEmpty(Split(t, '\n')) == [] + NonEmpty(Split(t, '\n')[1..]);
  }

  /** However lines are broken, the parser sees exactly the physical lines. */
  lemma {:induction false} SeesThePhysicalLines(lead: string, lines: seq<string>, breaks: seq<string>)
    requires |lines| == |breaks| && ValidBreaks(lead, breaks)
    requires forall i :: 0 <= i < |lines| ==> lines[i] != "" && NoBreaks(lines[i])
    ensures Seen(Render(lead, lines, breaks)) == lines
    decreases |lines|
  {
    if lines == [] {
      SkipBreaks(lead, "");
      assert lead + "" == lead;
    } else {
      var rest := Render(breaks[0], lines[1..], breaks[1..]);
      assert lead + lines[0] + rest == lead + (lines[0] + rest);
      SkipBreaks(lead, lines[0] + rest);
      SeesThePhysicalLines(breaks[0], lines[1..], breaks[1..]);
      if breaks[0] != "" {
        if lines[1..] == [] {
          assert breaks[0] + "" == breaks[0];
          BreakStartsWithNewline(breaks[0], "");
        } else {
          var after := lines[1..][0] + Render(breaks[1..][0], lines[1..][1..], breaks[1..][1..]);
          assert rest == breaks[0] + after;
          BreakStartsWithNewline(breaks[0], after);
        }
      }
      SeenLineThenBreak(lines[0], rest);
      assert [lines[0]] + lines[1..] == lines;
    }
  }

  // ----- folding -------------------------------------------------------------------------------

  /** One content line and where it is folded: a first piece and the continuations, each with the
      space or tab that marks it. */
  datatype Folded = Folded(first: string, more: seq<Piece>)
  datatype Piece = Piece(mark: char, text: string)

  function Joined(f: Folded): string {
    f.first + Texts(f.more)
  }

  function Texts(more: seq<Piece>): string {
    if more == [] then "" else Texts(more[..|more| - 1]) + more[|more| - 1].text
  }

  predicate ValidFold(f: Folded) {
    && f.first != "" && f.first[0] != ' ' && f.first[0] != '\t' && NoBreaks(f.first)
    && forall i :: 0 <= i < |f.more| ==>
         (f.more[i].mark == ' ' || f.more[i].mark == '\t') && NoBreaks(f.more[i].text)
  }

  predicate ContentLine(line: string) {
    line != "" && line[0] != ' ' && line[0] != '\t' && NoBreaks(line)
  }

  lemma FoldSnoc(f: Folded, piece: Piece)
    requires ValidFold(f) && (piece.mark == ' ' || piece.mark == '\t') && NoBreaks(piece.text)
    ensures var g := Folded(f.first, f.more + [piece]);
      ValidFold(g) && Joined(g) == Joined(f) + piece.text
  {
    var g := Folded(f.first, f.more + [piece]);
    assert g.more[..|f.more|] == f.more;
    assert f.first + (Texts(f.more) + piece.text) == (f.first + Texts(f.more)) + piece.text;
  }

  /** Folds a content line at any points after its first character. */
  function FoldAt(line: string, cuts: seq<nat>, mark: char): (f: Folded)
    requires ContentLine(line) && (mark == ' ' || mark == '\t')
    requires forall i :: 0 <= i < |cuts| ==> 1 <= cuts[i] <= |line|
    requires forall i, j :: 0 <= i < j < |cuts| ==> cuts[i] <= cuts[j]
    ensures ValidFold(f) && Joined(f) == line && |f.more| == |cuts|
    decreases |cuts|
  {
    if cuts == [] then Folded(line, [])
    else
      var cut := cuts[|cuts| - 1];
      var f := FoldAt(line[..cut], cuts[..|cuts| - 1], mark);
      FoldSnoc(f, Piece(mark, line[cut..]));
      assert line[..cut] + line[cut..] == line;
      Folded(f.first, f.more + [Piece(mark, line[cut..])])
  }

  function Physical(f: Folded): (lines: seq<string>)
    ensures |lines| == |f.more| + 1
    ensures lines[0] == f.first
    ensures forall i :: 0 <= i < |f.more| ==> lines[i + 1] == [f.more[i].mark] + f.more[i].text
  {
    [f.first] + seq(|f.more|, i requires 0 <= i < |f.more| => [f.more[i].mark] + f.more[i].text)
  }

  function PhysicalAll(fs: seq<Folded>): seq<string> {
    if fs == [] then [] else PhysicalAll(fs[..|fs| - 1]) + Physical(fs[|fs| - 1])
  }

  function JoinedAll(fs: seq<Folded>): (lines: seq<string>)
    ensures |lines| == |fs|
    ensures forall i :: 0 <= i < |fs| ==> lines[i] == Joined(fs[i])
  {
    seq(|fs|, i requires 0 <= i < |fs| => Joined(fs[i]))
  }

  lemma GlueContinuation(front: seq<string>, out: seq<string>, last: string, mark: char, text: string)
    requires Glue(front) == out + [last] && (mark == ' ' || mark == '\t')
    ensures Glue(front + [[mark] + text]) == out + [last + text]
  {
    var line := [mark] + text;
    assert (front + [line])[..|front|] == front;
    assert line[1..] == text;
  }

  lemma GlueFirst(front: seq<string>, line: string)
    requires line != "" && line[0] != ' ' && line[0] != '\t'
    ensures Glue(front + [line]) == Glue(front) + [line]
  {
    assert (front + [line])[..|front|] == front;
  }

  lemma TextsSnoc(first: string, more: seq<Piece>, n: nat)
    requires 0 < n <= |more|
    ensures first + Texts(more[..n]) == (first + Texts(more[..n - 1])) + more[n - 1].text
  {
    assert more[..n][..n - 1] == more[..n - 1];
  }

  lemma {:induction false} GlueFolded(before: seq<string>, f: Folded, n: nat)
    requires ValidFold(f) && n <= |f.more|
    ensures Glue(before + Physical(f)[..n + 1]) == Glue(before) + [f.first + Texts(f.more[..n])]
  {
    var lines := Physical(f);
    if n == 0 {
      assert lines[..1] == [f.first];
      GlueFirst(before, f.first);
      assert f.first + "" == f.first;
    } else {
      GlueFolded(before, f, n - 1);
      assert lines[..n + 1] == lines[..n] + [lines[n]];
      assert before + lines[..n + 1] == (before + lines[..n]) + [lines[n]];
      GlueContinuation(before + lines[..n], Glue(before), f.first + Texts(f.more[..n - 1]), f.more[n - 1].mark, f.more[n - 1].text);
      TextsSnoc(f.first, f.more, n);
    }
  }

  lemma {:induction false} GlueUndoesFolding(fs: seq<Folded>)
    requires forall i :: 0 <= i < |fs| ==> ValidFold(fs[i])
    ensures Glue(PhysicalAll(fs)) == JoinedAll(fs)
  {
    if fs != [] {
      var front, f := fs[..|fs| - 1], fs[|fs| - 1];
      GlueUndoesFolding(front);
      GlueWhole(PhysicalAll(front), f);
      assert JoinedAll(fs) == JoinedAll(front) + [Joined(f)];
    }
  }

  lemma GlueWhole(before: seq<string>, f: Folded)
    requires ValidFold(f)
    ensures Glue(before + Physical(f)) == Glue(before) + [Joined(f)]
  {
    GlueFolded(before, f, |f.more|);
    assert Physical(f)[..|f.more| + 1] == Physical(f) && f.more[..|f.more|] == f.more;
  }

  lemma NonEmptyCons(b: seq<string>)
    requires b != []
    ensures NonEmpty(b) == (if b[0] == "" then [] else [b[0]]) + NonEmpty(b[1..])
  {
  }

  lemma {:induction false} GlueSkipsBlanks(a: seq<string>, b: seq<string>)
    ensures Glue(a + b) == Glue(a + NonEmpty(b))
    decreases |b|
  {
    if b != [] {
      var first, rest := b[0], b[1..];
      NonEmptyCons(b);
      if first == "" {
        GlueBlank(a, rest);
        assert a + b == a + [""] + rest;
        GlueSkipsBlanks(a, rest);
        assert NonEmpty(b) == NonEmpty(rest);
      } else {
        GlueSkipsBlanks(a + [first], rest);
        assert a + b == a + [first] + rest;
        assert a + NonEmpty(b) == a + [first] + NonEmpty(rest);
      }
    }
  }

  lemma {:induction false} GlueBlank(a: seq<string>, b: seq<string>)
    ensures Glue(a + [""] + b) == Glue(a + b)
  {
    if b == [] {
      assert (a + [""] + b)[..|a|] == a && a + b == a;
    } else {
      var front := b[..|b| - 1];
      GlueBlank(a, front);
      assert (a + [""] + b)[..|a + [""] + b| - 1] == a + [""] + front;
      assert (a + b)[..|a + b| - 1] == a + front;
    }
  }

  lemma {:induction false} PhysicalLinesArePlain(fs: seq<Folded>)
    requires forall i :: 0 <= i < |fs| ==> ValidFold(fs[i])
    ensures forall i :: 0 <= i < |PhysicalAll(fs)| ==> PhysicalAll(fs)[i] != "" && NoBreaks(PhysicalAll(fs)[i])
  {
    if fs != [] {
      PhysicalLinesArePlain(fs[..|fs| - 1]);
    }
  }

  /** Unfolding inverts folding: whatever the fold points, marks, line endings and blank lines,
      the content lines come back as they were. */
  lemma UnfoldInvertsFolding(fs: seq<Folded>, lead: string, breaks: seq<string>)
    requires forall i :: 0 <= i < |fs| ==> ValidFold(fs[i])
    requires |breaks| == |PhysicalAll(fs)| && ValidBreaks(lead, breaks)
    ensures Unfold(Render(lead, PhysicalAll(fs), breaks)) == JoinedAll(fs)
  {
    PhysicalLinesArePlain(fs);
    SeesThePhysicalLines(lead, PhysicalAll(fs), breaks);
    var parts := Split(NormaliseBreaks(Render(lead, PhysicalAll(fs), breaks)), '\n');
    GlueSkipsBlanks([], parts);
    assert [] + parts == parts && [] + NonEmpty(parts) == NonEmpty(parts);
    GlueUndoesFolding(fs);
  }

  predicate CanCut(line: string, cuts: seq<nat>) {
    && ContentLine(line)
    && (forall i :: 0 <= i < |cuts| ==> 1 <= cuts[i] <= |line|)
    && (forall i, j :: 0 <= i < j < |cuts| ==> cuts[i] <= cuts[j])
  }

  predicate CanCutAll(lines: seq<string>, cuts: seq<seq<nat>>, mark: char) {
    && |cuts| == |lines| && (mark == ' ' || mark == '\t')
    && forall i :: 0 <= i < |lines| ==> CanCut(lines[i], cuts[i])
  }

  /** Folds every line at the places chosen for it. */
  function FoldEach(lines: seq<string>, cuts: seq<seq<nat>>, mark: char): (fs: seq<Folded>)
    requires CanCutAll(lines, cuts, mark)
    ensures |fs| == |lines| && JoinedAll(fs) == lines
    ensures forall i :: 0 <= i < |fs| ==> ValidFold(fs[i]) && |fs[i].more| == |cuts[i]|
  {
    seq(|lines|, i requires 0 <= i < |lines| && CanCut(lines[i], cuts[i]) => FoldAt(lines[i], cuts[i], mark))
  }

  // ----- text values ---------------------------------------------------------------------------

  /** Escaping a TEXT value; a newline may be written with either letter. */
  function Escape(s: string, letter: char): string {
    if s == "" then ""
    else EscapeChar(s[0], letter) + Escape(s[1..], letter)
  }

  function EscapeChar(c: char, letter: char): string {
    if c == '\n' then ['\\', letter]
    else if c == '\\' || c == ',' || c == ';' then ['\\', c]
    else [c]
  }

  function NewlinesAsSpaces(s: string): string {
    if s == "" then "" else [if s[0] == '\n' then ' ' else s[0]] + NewlinesAsSpaces(s[1..])
  }

  /** Unescaping inverts escaping, but for newlines, which read as spaces. */
  lemma {:induction false} UnescapeInvertsEscape(s: string, letter: char)
    requires letter == 'n' || letter == 'N'
    ensures Unescape(Escape(s, letter)) == NewlinesAsSpaces(s)
  {
    if s != "" {
      UnescapeInvertsEscape(s[1..], letter);
      var e, rest := EscapeChar(s[0], letter), Escape(s[1..], letter);
      assert (e + rest)[|e|..] == rest;
      assert (e + rest)[0] == e[0];
      if |e| == 2 {
        assert (e + rest)[1] == e[1];
      }
    }
  }

  lemma {:induction false} EscapeHasNoBreaks(s: string, letter: char)
    requires letter == 'n' || letter == 'N'
    requires '\r' !in s
    ensures NoBreaks(Escape(s, letter))
  {
    if s != "" {
      assert s == [s[0]] + s[1..];
      EscapeHasNoBreaks(s[1..], letter);
    }
  }

  // ----- events --------------------------------------------------------------------------------

  datatype Start = Start(params: string, value: string)

  /** An event to print: its DTSTART if it has one, its SUMMARY, which comes first, and any other
      property lines around them. */
  datatype VEvent = VEvent(start: Option<Start>, summaryParams: string, summary: string, letter: char,
                           summaryFirst: bool, head: seq<string>, middle: seq<string>, tail: seq<string>)

  function StartLines(ev: VEvent): seq<string> {
    if ev.start.Some? then ["DTSTART" + ev.start.value.params + ":" + ev.start.value.value] else []
  }

  function SummaryLine(ev: VEvent): string {
    "SUMMARY" + ev.summaryParams + ":" + Escape(ev.summary, ev.letter)
  }

  function Body(ev: VEvent): seq<string> {
    ev.head
    + (if ev.summaryFirst then [SummaryLine(ev)] else StartLines(ev))
    + ev.middle
    + (if ev.summaryFirst then StartLines(ev) else [SummaryLine(ev)])
    + ev.tail
  }

  function EventLines(ev: VEvent): seq<string> {
    ["BEGIN:VEVENT"] + Body(ev) + ["END:VEVENT"]
  }

  /** A line that says nothing about what an event is or when: some other property. */
  predicate OtherProperty(line: string) {
    var upper := ToUpper(line);
    upper != "BEGIN:VEVENT" && upper != "END:VEVENT" && !("SUMMARY" <= upper) && !("DTSTART" <= upper)
  }

  predicate AllOther(lines: seq<string>) {
    forall i :: 0 <= i < |lines| ==> OtherProperty(lines[i])
  }

  predicate ValidEvent(ev: VEvent) {
    && (ev.letter == 'n' || ev.letter == 'N')
    && ':' !in ev.summaryParams
    && (ev.start.Some? ==> ':' !in ev.start.value.params)
    && AllOther(ev.head) && AllOther(ev.middle) && AllOther(ev.tail)
  }

  /** What a reader should make of a printed event; nothing when it has no usable DTSTART. */
  function Meaning(c: Codec, ev: VEvent): Option<CalendarEvent> {
    if ev.start.None? then None
    else
      var t := ParseTime(c, "DTSTART" + ev.start.value.params, ev.start.value.value);
      if t.None? || t.value.at == ZERO_TIME then None
      else
        var e := CalendarEvent(TrimSpace(NewlinesAsSpaces(ev.summary)), t.value.at, "", t.value.allDay);
        Some(e.(whenText := FormatWhen(c, e)))
  }

  lemma SplitsAtColon(name: string, value: string)
    requires ':' !in name
    ensures SplitProp(name + ":" + value) == (name, value)
  {
    var line := name + ":" + value;
    assert line[|name|] == ':';
    assert line[..|name|] == name;
    var i := IndexOf(line, ':');
    assert ':' in line;
    assert i == |name|;
    assert line[|name| + 1..] == value;
  }

  lemma UpperKeepsFront(line: string, name: string)
    requires name <= line && forall i :: 0 <= i < |name| ==> !('a' <= name[i] <= 'z')
    ensures name <= ToUpper(line)
  {
    forall i | 0 <= i < |name| ensures ToUpper(line)[i] == name[i] {
      assert line[i] == name[i];
    }
  }

  lemma IsSummary(line: string)
    requires "SUMMARY" <= line
    ensures var upper := ToUpper(line);
      upper != "BEGIN:VEVENT" && upper != "END:VEVENT" && "SUMMARY" <= upper
  {
    UpperKeepsFront(line, "SUMMARY");
    assert ToUpper(line)[0] == 'S' && "BEGIN:VEVENT"[0] == 'B' && "END:VEVENT"[0] == 'E';
  }

  lemma IsDtstart(line: string)
    requires "DTSTART" <= line
    ensures var upper := ToUpper(line);
      upper != "BEGIN:VEVENT" && upper != "END:VEVENT" && !("SUMMARY" <= upper) && "DTSTART" <= upper
  {
    UpperKeepsFront(line, "DTSTART");
    assert ToUpper(line)[0] == 'D' && "BEGIN:VEVENT"[0] == 'B' && "END:VEVENT"[0] == 'E' && "SUMMARY"[0] == 'S';
  }

  lemma ReadSummary(c: Codec, r: Reader, ev: VEvent)
    requires ValidEvent(ev) && r.cur.Some?
    ensures ReadLine(c, r, SummaryLine(ev))
         == r.(cur := Some(r.cur.value.(summary := TrimSpace(NewlinesAsSpaces(ev.summary)))))
  {
    SplitsAtColon("SUMMARY" + ev.summaryParams, Escape(ev.summary, ev.letter));
    UnescapeInvertsEscape(ev.summary, ev.letter);
    IsSummary(SummaryLine(ev));
  }

  lemma ReadStart(c: Codec, r: Reader, start: Start)
    requires ':' !in start.params && r.cur.Some?
    ensures ReadLine(c, r, "DTSTART" + start.params + ":" + start.value)
         == match ParseTime(c, "DTSTART" + start.params, start.value) {
              case Some(t) => r.(cur := Some(r.cur.value.(start := t.at, allDay := t.allDay)))
              case None => r
            }
  {
    SplitsAtColon("DTSTART" + start.params, start.value);
    IsDtstart("DTSTART" + start.params + ":" + start.value);
  }

  lemma {:induction false} ReadOther(c: Codec, r: Reader, lines: seq<string>)
    requires AllOther(lines)
    ensures ReadLines(c, r, lines) == r
    decreases |lines|
  {
    if lines != [] {
      ReadOther(c, r, lines[1..]);
    }
  }

  function WithStart(c: Codec, e: CalendarEvent, ev: VEvent): CalendarEvent {
    if ev.start.None? then e
    else
      var t := ParseTime(c, "DTSTART" + ev.start.value.params, ev.start.value.value);
      if t.None? then e else e.(start := t.value.at, allDay := t.value.allDay)
  }

  lemma ReadStartLines(c: Codec, r: Reader, ev: VEvent)
    requires ValidEvent(ev) && r.cur.Some?
    ensures ReadLines(c, r, StartLines(ev)) == r.(cur := Some(WithStart(c, r.cur.value, ev)))
  {
    if ev.start.Some? {
      ReadStart(c, r, ev.start.value);
      assert StartLines(ev)[1..] == [];
    }
  }

  lemma Read1(c: Codec, r: Reader, line: string)
    ensures ReadLines(c, r, [line]) == ReadLine(c, r, line)
  {
  }

  /** Between its BEGIN and END, in either order, an event picks up its start and its summary. */
  lemma ReadBody(c: Codec, r: Reader, ev: VEvent)
    requires ValidEvent(ev) && r.cur.Some?
    ensures ReadLines(c, r, Body(ev)) == r.(cur := Some(
      WithStart(c, r.cur.value, ev).(summary := TrimSpace(NewlinesAsSpaces(ev.summary)))))
  {
    var a := if ev.summaryFirst then [SummaryLine(ev)] else StartLines(ev);
    var b := if ev.summaryFirst then StartLines(ev) else [SummaryLine(ev)];
    ReadLinesConcat(c, r, ev.head + a + ev.middle + b, ev.tail);
    ReadLinesConcat(c, r, ev.head + a + ev.middle, b);
    ReadLinesConcat(c, r, ev.head + a, ev.middle);
    ReadLinesConcat(c, r, ev.head, a);
    ReadOther(c, r, ev.head);
    Read1(c, r, SummaryLine(ev));
    ReadSummary(c, r, ev);
    ReadStartLines(c, r, ev);
    var mid := ReadLines(c, r, a);
    ReadOther(c, mid, ev.middle);
    Read1(c, mid, SummaryLine(ev));
    ReadSummary(c, mid, ev);
    ReadStartLines(c, mid, ev);
    ReadOther(c, ReadLines(c, mid, b), ev.tail);
  }

  function Collected(e: Option<CalendarEvent>): seq<CalendarEvent> {
    if e.Some? then [e.value] else []
  }

  /** Lines read as an event says between BEGIN and END bring in that event. */
  lemma ReadWhole(c: Codec, r: Reader, body: seq<string>, ev: VEvent)
    requires ReadLines(c, r.(cur := Some(BLANK)), body)
          == r.(cur := Some(WithStart(c, BLANK, ev).(summary := TrimSpace(NewlinesAsSpaces(ev.summary)))))
    ensures ReadLines(c, r, ["BEGIN:VEVENT"] + body + ["END:VEVENT"]) == Reader(r.out + Collected(Meaning(c, ev)), None)
  {
    ReadBetween(c, r, body, WithStart(c, BLANK, ev).(summary := TrimSpace(NewlinesAsSpaces(ev.summary))));
    FullEvent(c, ev);
  }

  lemma ReadBetween(c: Codec, r: Reader, body: seq<string>, full: CalendarEvent)
    requires ReadLines(c, r.(cur := Some(BLANK)), body) == r.(cur := Some(full))
    ensures ReadLines(c, r, ["BEGIN:VEVENT"] + body + ["END:VEVENT"]) == Reader(
      if full.start == ZERO_TIME then r.out else r.out + [full.(whenText := FormatWhen(c, full))], None)
  {
    ReadBegin(c, r);
    ReadAround(c, r, "BEGIN:VEVENT", body, "END:VEVENT", r.(cur := Some(BLANK)), r.(cur := Some(full)));
    ReadEnd(c, r.(cur := Some(full)));
  }

  lemma ReadEvent(c: Codec, r: Reader, ev: VEvent)
    requires ValidEvent(ev)
    ensures ReadLines(c, r, EventLines(ev)) == Reader(r.out + Collected(Meaning(c, ev)), None)
  {
    ReadBody(c, r.(cur := Some(BLANK)), ev);
    ReadWhole(c, r, Body(ev), ev);
  }

  lemma ReadAround(c: Codec, r: Reader, first: string, body: seq<string>, last: string, begun: Reader, full: Reader)
    requires ReadLines(c, r, [first]) == begun && ReadLines(c, begun, body) == full
    ensures ReadLines(c, r, [first] + body + [last]) == ReadLines(c, full, [last])
  {
    ReadLinesConcat(c, r, [first] + body, [last]);
    ReadLinesConcat(c, r, [first], body);
  }

  lemma FullEvent(c: Codec, ev: VEvent)
    ensures var full := WithStart(c, BLANK, ev).(summary := TrimSpace(NewlinesAsSpaces(ev.summary)));
      Collected(Meaning(c, ev)) == if full.start == ZERO_TIME then [] else [full.(whenText := FormatWhen(c, full))]
  {
  }

  lemma {:induction false} UpperStaysUpper(s: string)
    requires forall i :: 0 <= i < |s| ==> !('a' <= s[i] <= 'z')
    ensures ToUpper(s) == s
  {
  }

  lemma ReadBegin(c: Codec, r: Reader)
    ensures ReadLines(c, r, ["BEGIN:VEVENT"]) == r.(cur := Some(BLANK))
  {
    UpperStaysUpper("BEGIN:VEVENT");
    Read1(c, r, "BEGIN:VEVENT");
  }

  lemma ReadEnd(c: Codec, r: Reader)
    requires r.cur.Some?
    ensures ReadLines(c, r, ["END:VEVENT"]) == Reader(
      if r.cur.value.start == ZERO_TIME then r.out
      else r.out + [r.cur.value.(whenText := FormatWhen(c, r.cur.value))], None)
  {
    UpperStaysUpper("END:VEVENT");
    assert "BEGIN:VEVENT"[0] != "END:VEVENT"[0];
    Read1(c, r, "END:VEVENT");
  }

  // ----- when an event starts ----------------------------------------------------------------------

  lemma {:induction false} SplitNone(s: string, sep: char)
    requires sep !in s
    ensures Split(s, sep) == [s]
  {
    if s != "" {
      SplitNone(s[1..], sep);
      assert [s[0]] + s[1..] == s;
    }
  }

  lemma {:induction false} SplitFirst(a: string, b: string, sep: char)
    requires sep !in a
    ensures Split(a + ([sep] + b), sep) == [a] + Split(b, sep)
  {
    var s := a + ([sep] + b);
    if a == "" {
      assert s == [sep] + b && s[1..] == b;
    } else {
      SplitFirst(a[1..], b, sep);
      assert s[1..] == a[1..] + ([sep] + b) && s[0] == a[0];
      assert [a[0]] + a[1..] == a;
    }
  }

  /** A parameter that names a zone the platform knows, in whatever case and with or without quotes. */
  predicate NamesZone(c: Codec, param: string, zone: string) {
    |param| >= 5 && ToUpper(param[..5]) == "TZID=" && Trim(param[5..], "\"") == zone && c.knownZone(zone)
  }

  ghost predicate NamesNoZone(c: Codec, param: string) {
    forall zone :: !NamesZone(c, param, zone)
  }

  lemma UpperFront(param: string)
    requires |param| >= 5
    ensures ToUpper(param[..5]) == ToUpper(param)[..5]
  {
    assert forall i :: 0 <= i < 5 ==> ToUpper(param[..5])[i] == UpperChar(param[i]) == ToUpper(param)[i];
  }

  lemma OneParam(c: Codec, params: seq<string>, param: string)
    ensures forall zone :: NamesZone(c, param, zone) ==> ZoneOf(c, params + [param]) == zone
    ensures NamesNoZone(c, param) ==> ZoneOf(c, params + [param]) == ZoneOf(c, params)
  {
    assert (params + [param])[..|params|] == params;
    if |param| >= 5 {
      UpperFront(param);
      if NamesNoZone(c, param) {
        assert !NamesZone(c, param, Trim(param[5..], "\""));
      }
    } else {
      assert |ToUpper(param)| == |param|;
    }
  }

  /** The last parameter that names a known zone decides, and London when none does. */
  lemma {:induction false} LastNamedZoneDecides(c: Codec, before: seq<string>, param: string, zone: string, after: seq<string>)
    requires NamesZone(c, param, zone) && forall i :: 0 <= i < |after| ==> NamesNoZone(c, after[i])
    ensures ZoneOf(c, before + [param] + after) == zone
    decreases |after|
  {
    if after == [] {
      assert before + [param] + after == before + [param];
      OneParam(c, before, param);
    } else {
      var front, last := after[..|after| - 1], after[|after| - 1];
      LastNamedZoneDecides(c, before, param, zone, front);
      assert before + [param] + after == (before + [param] + front) + [last];
      OneParam(c, before + [param] + front, last);
    }
  }

  lemma {:induction false} LondonWhenNoneIsNamed(c: Codec, params: seq<string>)
    requires forall i :: 0 <= i < |params| ==> NamesNoZone(c, params[i])
    ensures ZoneOf(c, params) == "Europe/London"
  {
    if params != [] {
      LondonWhenNoneIsNamed(c, params[..|params| - 1]);
      OneParam(c, params[..|params| - 1], params[|params| - 1]);
      assert params == params[..|params| - 1] + [params[|params| - 1]];
    }
  }

  lemma ParamsOf(params: string)
    ensures Split("DTSTART" + ([';'] + params), ';')[1..] == Split(params, ';')
    ensures Split("DTSTART", ';')[1..] == []
  {
    SplitFirst("DTSTART", params, ';');
    SplitNone("DTSTART", ';');
  }

  /** Fifteen characters, such as 20250102T090000, in the zone the parameters name. */
  lemma LocalStartIsReadInItsZone(c: Codec, params: string, value: string, zone: string)
    requires |value| == 15 && TrimSpace(value) == value && !HasSuffix(value, "Z")
    requires Split(params, ';') == [params] && NamesZone(c, params, zone) && c.local(value, zone).Some?
    ensures ParseTime(c, "DTSTART" + ([';'] + params), value) == Some(Moment(c.local(value, zone).value, false))
  {
    ZoneOfOne(c, params, zone);
    LocalIn(c, "DTSTART" + ([';'] + params), value, zone);
  }

  lemma ZoneOfOne(c: Codec, params: string, zone: string)
    requires Split(params, ';') == [params] && NamesZone(c, params, zone)
    ensures ZoneOf(c, Split("DTSTART" + ([';'] + params), ';')[1..]) == zone
  {
    ParamsOf(params);
    LastNamedZoneDecides(c, [], params, zone, []);
    assert [] + [params] + [] == [params];
  }

  lemma LocalIn(c: Codec, name: string, value: string, zone: string)
    requires |value| == 15 && TrimSpace(value) == value && !HasSuffix(value, "Z")
    requires ZoneOf(c, Split(name, ';')[1..]) == zone && c.local(value, zone).Some?
    ensures ParseTime(c, name, value) == Some(Moment(c.local(value, zone).value, false))
  {
  }

  lemma PlainStartIsReadInLondon(c: Codec, value: string)
    requires |value| == 15 && TrimSpace(value) == value && !HasSuffix(value, "Z") && c.local(value, "Europe/London").Some?
    ensures ParseTime(c, "DTSTART", value) == Some(Moment(c.local(value, "Europe/London").value, false))
  {
    ParamsOf("");
    LondonWhenNoneIsNamed(c, []);
    LocalIn(c, "DTSTART", value, "Europe/London");
  }

  /** An event starts when its DTSTART says: a value ending in Z is UTC whatever the parameters; one of
      fifteen characters is local to the zone named, or to London; one of eight is a whole day. */
  lemma EventStartsWhenItSays(c: Codec, ev: VEvent, zone: string)
    requires ev.start.Some? && TrimSpace(ev.start.value.value) == ev.start.value.value
    ensures var value, params, m := ev.start.value.value, ev.start.value.params, Meaning(c, ev);
      && (HasSuffix(value, "Z") && c.utc(value).Some? && c.utc(value).value != ZERO_TIME ==>
            m.Some? && m.value.start == c.utc(value).value && !m.value.allDay)
      && (|value| == 15 && !HasSuffix(value, "Z") && params == "" && c.local(value, "Europe/London").Some?
          && c.local(value, "Europe/London").value != ZERO_TIME ==>
            m.Some? && m.value.start == c.local(value, "Europe/London").value && !m.value.allDay)
      && (|value| == 15 && !HasSuffix(value, "Z") && OneZone(c, params, zone) && c.local(value, zone).Some?
          && c.local(value, zone).value != ZERO_TIME ==>
            m.Some? && m.value.start == c.local(value, zone).value && !m.value.allDay)
      && (|value| == 8 && !HasSuffix(value, "Z") && c.date(value).Some? && c.date(value).value != ZERO_TIME ==>
            m.Some? && m.value.start == c.date(value).value && m.value.allDay)
      && (m.Some? ==> m.value.whenText == if m.value.allDay then "all day" else c.clock(m.value.start))
  {
    var value, params := ev.start.value.value, ev.start.value.params;
    if |value| == 15 && !HasSuffix(value, "Z") {
      if params == "" && c.local(value, "Europe/London").Some? {
        PlainStartIsReadInLondon(c, value);
        assert "DTSTART" + "" == "DTSTART";
      }
      if OneZone(c, params, zone) && c.local(value, zone).Some? {
        SplitNone(params[1..], ';');
        LocalStartIsReadInItsZone(c, params[1..], value, zone);
        assert "DTSTART" + params == "DTSTART" + ([';'] + params[1..]);
      }
    }
  }

  /** The parameters are just the one that names the zone. */
  predicate OneZone(c: Codec, params: string, zone: string) {
    params != "" && params[0] == ';' && ';' !in params[1..] && NamesZone(c, params[1..], zone)
  }

  // ----- a nested component with a summary of its own ----------------------------------------------

  /** Lines such as those of an alarm: a SUMMARY among other properties. */
  function AlarmLines(before: seq<string>, params: string, text: string, letter: char, after: seq<string>): seq<string> {
    before + ["SUMMARY" + params + ":" + Escape(text, letter)] + after
  }

  /** What stands inside a VEVENT is all read as the event's own: a later SUMMARY takes the place of
      an earlier one. */
  lemma LaterSummaryWins(c: Codec, r: Reader, before: seq<string>, params: string, text: string, letter: char, after: seq<string>)
    requires r.cur.Some? && AllOther(before) && AllOther(after) && ':' !in params && (letter == 'n' || letter == 'N')
    ensures ReadLines(c, r, AlarmLines(before, params, text, letter, after))
         == r.(cur := Some(r.cur.value.(summary := TrimSpace(NewlinesAsSpaces(text)))))
  {
    var ev := VEvent(None, params, text, letter, true, [], [], []);
    assert SummaryLine(ev) == "SUMMARY" + params + ":" + Escape(text, letter);
    ReadLinesConcat(c, r, before + [SummaryLine(ev)], after);
    ReadLinesConcat(c, r, before, [SummaryLine(ev)]);
    ReadOther(c, r, before);
    Read1(c, r, SummaryLine(ev));
    ReadSummary(c, r, ev);
    ReadOther(c, ReadLine(c, r, SummaryLine(ev)), after);
  }

  lemma BodyThenAlarm(
    c: Codec, r: Reader, ev: VEvent, before: seq<string>, params: string, text: string, letter: char, after: seq<string>)
    requires ValidEvent(ev) && r.cur.Some?
    requires AllOther(before) && AllOther(after) && ':' !in params && (letter == 'n' || letter == 'N')
    ensures ReadLines(c, r, Body(ev) + AlarmLines(before, params, text, letter, after))
         == r.(cur := Some(WithStart(c, r.cur.value, ev).(summary := TrimSpace(NewlinesAsSpaces(text)))))
  {
    ReadBody(c, r, ev);
    LaterSummaryWins(c, ReadLines(c, r, Body(ev)), before, params, text, letter, after);
    ReadLinesConcat(c, r, Body(ev), AlarmLines(before, params, text, letter, after));
  }

  /** So an event with an alarm that has its own summary is read as if that were its summary. */
  lemma AlarmSummaryReplacesTheEvents(
    c: Codec, r: Reader, ev: VEvent, before: seq<string>, params: string, text: string, letter: char, after: seq<string>)
    requires ValidEvent(ev)
    requires AllOther(before) && AllOther(after) && ':' !in params && (letter == 'n' || letter == 'N')
    ensures ReadLines(c, r, ["BEGIN:VEVENT"] + (Body(ev) + AlarmLines(before, params, text, letter, after)) + ["END:VEVENT"])
         == Reader(r.out + Collected(Meaning(c, ev.(summary := text))), None)
  {
    BodyThenAlarm(c, r.(cur := Some(BLANK)), ev, before, params, text, letter, after);
    ReadWhole(c, r, Body(ev) + AlarmLines(before, params, text, letter, after), ev.(summary := text));
  }

  // ----- calendars -----------------------------------------------------------------------------

  /** Events, each with whatever stands between it and the next one. */
  datatype Block = Block(event: VEvent, gap: seq<string>)

  /** Outside an event any line may stand that does not begin one. */
  predicate Outside(lines: seq<string>) {
    forall i :: 0 <= i < |lines| ==> ToUpper(lines[i]) != "BEGIN:VEVENT"
  }

  predicate ValidCalendar(prologue: seq<string>, blocks: seq<Block>) {
    Outside(prologue) && forall i :: 0 <= i < |blocks| ==> ValidEvent(blocks[i].event) && Outside(blocks[i].gap)
  }

  function CalendarLines(prologue: seq<string>, blocks: seq<Block>): seq<string> {
    if blocks == [] then prologue
    else
      var last := blocks[|blocks| - 1];
      CalendarLines(prologue, blocks[..|blocks| - 1]) + EventLines(last.event) + last.gap
  }

  function Meanings(c: Codec, blocks: seq<Block>): seq<CalendarEvent> {
    if blocks == [] then []
    else Meanings(c, blocks[..|blocks| - 1]) + Collected(Meaning(c, blocks[|blocks| - 1].event))
  }

  /** Lines outside an event have no effect. */
  lemma {:induction false} ReadOutside(c: Codec, out: seq<CalendarEvent>, lines: seq<string>)
    requires Outside(lines)
    ensures ReadLines(c, Reader(out, None), lines) == Reader(out, None)
    decreases |lines|
  {
    if lines != [] {
      ReadOutside(c, out, lines[1..]);
    }
  }

  lemma {:induction false} ReadCalendar(c: Codec, prologue: seq<string>, blocks: seq<Block>)
    requires ValidCalendar(prologue, blocks)
    ensures ReadLines(c, Reader([], None), CalendarLines(prologue, blocks)) == Reader(Meanings(c, blocks), None)
  {
    if blocks == [] {
      ReadOutside(c, [], prologue);
    } else {
      var front, last := blocks[..|blocks| - 1], blocks[|blocks| - 1];
      ReadCalendar(c, prologue, front);
      ReadLinesConcat(c, Reader([], None), CalendarLines(prologue, front) + EventLines(last.event), last.gap);
      ReadLinesConcat(c, Reader([], None), CalendarLines(prologue, front), EventLines(last.event));
      ReadEvent(c, Reader(Meanings(c, front), None), last.event);
      ReadOutside(c, Meanings(c, blocks), last.gap);
    }
  }

  /** Parsing inverts printing: for any events, escaped, folded and broken into lines in any way
      the standard allows, parsing gives back exactly the events with a usable start, in order,
      their summaries trimmed and with newlines as spaces. */
  lemma ParseInvertsPrint(c: Codec, prologue: seq<string>, blocks: seq<Block>,
                          fs: seq<Folded>, lead: string, breaks: seq<string>)
    requires ValidCalendar(prologue, blocks)
    requires JoinedAll(fs) == CalendarLines(prologue, blocks)
    requires forall i :: 0 <= i < |fs| ==> ValidFold(fs[i])
    requires |breaks| == |PhysicalAll(fs)| && ValidBreaks(lead, breaks)
    ensures Parse(c, Render(lead, PhysicalAll(fs), breaks)) == Meanings(c, blocks)
  {
    UnfoldInvertsFolding(fs, lead, breaks);
    ReadCalendar(c, prologue, blocks);
  }

  /** So parsing inverts printing wherever the printer chooses to cut its lines. */
  lemma ParseInvertsPrintCutAnywhere(c: Codec, prologue: seq<string>, blocks: seq<Block>, cuts: seq<seq<nat>>,
                                     mark: char, fs: seq<Folded>, lead: string, breaks: seq<string>)
    requires ValidCalendar(prologue, blocks) && CanCutAll(CalendarLines(prologue, blocks), cuts, mark)
    requires fs == FoldEach(CalendarLines(prologue, blocks), cuts, mark)
    requires |breaks| == |PhysicalAll(fs)| && ValidBreaks(lead, breaks)
    ensures Parse(c, Render(lead, PhysicalAll(fs), breaks)) == Meanings(c, blocks)
  {
    ParseInvertsPrint(c, prologue, blocks, fs, lead, breaks);
  }

  /** Every printed event line is a content line, so it can be folded anywhere. */
  lemma EventLinesCanBeFolded(ev: VEvent)
    requires ValidEvent(ev) && '\r' !in ev.summary
    requires NoBreaks(ev.summaryParams)
    requires ev.start.Some? ==> NoBreaks(ev.start.value.params) && NoBreaks(ev.start.value.value)
    requires forall l :: l in ev.head || l in ev.middle || l in ev.tail ==> ContentLine(l)
    ensures forall i :: 0 <= i < |EventLines(ev)| ==> ContentLine(EventLines(ev)[i])
  {
    EscapeHasNoBreaks(ev.summary, ev.letter);
    var s := SummaryLine(ev);
    assert s[0] == 'S';
    assert ContentLine(s);
    if ev.start.Some? {
      var d := StartLines(ev)[0];
      assert d[0] == 'D';
      assert ContentLine(d);
    }
    assert ContentLine("BEGIN:VEVENT") && ContentLine("END:VEVENT");
    forall i | 0 <= i < |EventLines(ev)| ensures ContentLine(EventLines(ev)[i]) {
      var l := EventLines(ev)[i];
      assert l in EventLines(ev);
      assert l == "BEGIN:VEVENT" || l == "END:VEVENT" || l == s || l in StartLines(ev)
          || l in ev.head || l in ev.middle || l in ev.tail;
    }
  }
}
