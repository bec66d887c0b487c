/** The hash-chained event journal of one execution, down to the lines of its file. */
module JournalModel {
  import opened Common

  /** SHA-256 over an event's canonical JSON without its own hash, as an injective function of that JSON. */
  datatype Hash = FirstHash | HashOf(id: string, execution: string, sequence: nat, previous: Hash, text: string)

  /** `text` is the rest of the event's canonical JSON, in which every control character is escaped. */
  datatype Event = Event(id: string, execution: string, sequence: nat, previous: Hash, current: Hash, text: string)

  datatype Record = Record(execution: string, workflow: string, identity: string, revision: nat, updated: int)

  /** A character of a file, with the identifying fields of a JSON object kept as one symbol. */
  datatype Symbol = Head(id: string, execution: string, sequence: nat, previous: Hash, current: Hash)
                  | Body(record: Record)
                  | Ch(c: char)

  type Text = seq<Symbol>

  const LF := Ch('\n')

  function Chars(s: string): (t: Text)
    ensures |t| == |s| && forall i :: 0 <= i < |s| ==> t[i] == Ch(s[i])
  {
    seq(|s|, i requires 0 <= i < |s| => Ch(s[i]))
  }

  /** The canonical line of an event. */
  function Line(e: Event): (t: Text)
    ensures |t| == |e.text| + 2 && t[|t| - 1] == LF
  {
    [Head(e.id, e.execution, e.sequence, e.previous, e.current)] + Chars(e.text) + [LF]
  }

  function Render(events: seq<Event>): Text {
    if events == [] then [] else Render(events[..|events| - 1]) + Line(events[|events| - 1])
  }

  /** The hash the chain expects of an event. */
  function EventHash(e: Event): Hash { HashOf(e.id, e.execution, e.sequence, e.previous, e.text) }

  /** JSON leaves no control character unescaped. */
  predicate Escaped(s: string) { forall c :: c in s ==> c >= ' ' }

  /** The characters at which Python's splitlines breaks a line. */
  predicate IsBreak(s: Symbol) {
    s.Ch? && (s.c == '\n' || s.c == '\r' || s.c == '\U{000B}' || s.c == '\U{000C}' || s.c == '\U{001C}' ||
              s.c == '\U{001D}' || s.c == '\U{001E}' || s.c == '\U{0085}' || s.c == '\U{2028}' || s.c == '\U{2029}')
  }

  /** The line breaks that JSON leaves unescaped. */
  predicate HasSeparator(s: string) { '\U{0085}' in s || '\U{2028}' in s || '\U{2029}' in s }

  // ---------- what a valid journal is ----------

  /** The event at each position continues the chain, carries its position, and repeats no id. */
  predicate Linked(execution: string, events: seq<Event>, i: nat)
    requires i < |events|
  {
    var e := events[i];
    && e.execution == execution && e.sequence == i + 1 && Escaped(e.text)
    && e.previous == (if i == 0 then FirstHash else events[i - 1].current)
    && e.current == EventHash(e)
    && (forall j :: 0 <= j < i ==> events[j].id != e.id)
  }

  predicate Chained(execution: string, events: seq<Event>) {
    forall i :: 0 <= i < |events| ==> Linked(execution, events, i)
  }

  predicate Readable(events: seq<Event>) { forall e :: e in events ==> !HasSeparator(e.text) }

  /** The file holds exactly these events, as lines that can be told apart again. */
  ghost predicate Holds(execution: string, file: Text, events: seq<Event>) {
    file == Render(events) && Chained(execution, events) && Readable(events)
  }

  // ---------- lines ----------

  function FirstBreak(file: Text): (k: nat)
    ensures k <= |file| && (k < |file| ==> IsBreak(file[k]))
    ensures forall i :: 0 <= i < k ==> !IsBreak(file[i])
  {
    if file == [] || IsBreak(file[0]) then 0 else 1 + FirstBreak(file[1..])
  }

  /** Python's splitlines with line ends kept. */
  function SplitLines(file: Text): seq<Text>
    decreases |file|
  {
    if file == [] then []
    else
      var k := FirstBreak(file);
      if k == |file| then [file] else [file[..k + 1]] + SplitLines(file[k + 1..])
  }

  /** The event whose canonical line this is, if it is one. */
  function ParseLine(line: Text): (r: Option<Event>)
    ensures r.Some? ==> Line(r.value) == line && Escaped(r.value.text)
  {
    if |line| < 2 || !line[0].Head? || line[|line| - 1] != LF then None
    else
      var middle := line[1..|line| - 1];
      if exists i :: 0 <= i < |middle| && (!middle[i].Ch? || middle[i].c < ' ') then None
      else
        var text := seq(|middle|, i requires 0 <= i < |middle| && middle[i].Ch? => middle[i].c);
        var h := line[0];
        assert line == [h] + middle + [LF] && Chars(text) == middle;
        Some(Event(h.id, h.execution, h.sequence, h.previous, h.current, text))
  }

  lemma EscapedAt(s: string, i: nat)
    requires Escaped(s) && i < |s|
    ensures s[i] >= ' '
  {
    assert s[i] in s;
  }

  lemma ParseOfLine(e: Event)
    requires Escaped(e.text)
    ensures ParseLine(Line(e)) == Some(e)
  {
    var line := Line(e);
    var middle := line[1..|line| - 1];
    assert middle == Chars(e.text);
    forall i | 0 <= i < |middle| ensures middle[i].Ch? && middle[i].c >= ' ' { EscapedAt(e.text, i); }
    var text := seq(|middle|, i requires 0 <= i < |middle| && middle[i].Ch? => middle[i].c);
    assert text == e.text;
  }

  // ---------- splitting a rendered journal ----------

  lemma FirstBreakAt(file: Text, k: nat)
    requires k < |file| && IsBreak(file[k]) && forall i :: 0 <= i < k ==> !IsBreak(file[i])
    ensures FirstBreak(file) == k
  {
  }

  lemma LineBreaksOnce(e: Event)
    requires Escaped(e.text) && !HasSeparator(e.text)
    ensures forall i :: 0 <= i < |Line(e)| - 1 ==> !IsBreak(Line(e)[i])
  {
    var line := Line(e);
    forall i | 0 <= i < |line| - 1 ensures !IsBreak(line[i]) {
      if i > 0 {
        assert line[i] == Ch(e.text[i - 1]) && e.text[i - 1] in e.text;
      }
    }
  }

  function Lines(events: seq<Event>): seq<Text> {
    if events == [] then [] else [Line(events[0])] + Lines(events[1..])
  }

  lemma {:induction false} RenderFront(events: seq<Event>)
    requires events != []
    ensures Render(events) == Line(events[0]) + Render(events[1..])
  {
    hide Line;
    if |events| == 1 {
      assert events[..0] == [] && events[1..] == [];
    } else {
      var init := events[..|events| - 1];
      RenderFront(init);
      assert init[1..] == events[1..][..|events| - 2];
    }
  }

  lemma SplitOne(line: Text, tail: Text)
    requires line != [] && IsBreak(line[|line| - 1]) && forall i :: 0 <= i < |line| - 1 ==> !IsBreak(line[i])
    ensures SplitLines(line + tail) == [line] + SplitLines(tail)
  {
    var file := line + tail;
    FirstBreakAt(file, |line| - 1);
    assert file[..|line|] == line && file[|line|..] == tail;
  }

  /** A readable journal splits into exactly its lines. */
  lemma {:induction false} SplitRendered(events: seq<Event>)
    requires forall e :: e in events ==> Escaped(e.text) && !HasSeparator(e.text)
    ensures SplitLines(Render(events)) == Lines(events)
    decreases |events|
  {
    hide Escaped, HasSeparator, FirstBreak, IsBreak;
    if events != [] {
      RenderFront(events);
      assert events[0] in events && forall e :: e in events[1..] ==> e in events;
      LineBreaksOnce(events[0]);
      LineEndBreaks(events[0]);
      hide Line, Render, SplitLines;
      SplitOne(Line(events[0]), Render(events[1..]));
      SplitRendered(events[1..]);
    }
  }

  lemma LineEndBreaks(e: Event)
    ensures IsBreak(Line(e)[|Line(e)| - 1])
  {
  }
}
