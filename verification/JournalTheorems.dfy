/** Loading is the inverse of appending, exactly; and the chain's last hash determines the whole journal. */
module JournalTheorems {
  import opened Common
  import opened JournalModel

  // ---------- the loader ----------

  lemma {:induction false} LinesAt(events: seq<Event>, i: nat)
    requires i < |events|
    ensures |Lines(events)| == |events| && Lines(events)[i] == Line(events[i])
  {
    if |events| > 1 { LinesAt(events[1..], if i > 0 then i - 1 else 0); }
    hide Line;
  }

  lemma {:induction false} LinesLength(events: seq<Event>)
    ensures |Lines(events)| == |events|
  {
    if events != [] { LinesLength(events[1..]); }
  }

  lemma {:induction false} LinesExtend(events: seq<Event>, e: Event)
    ensures Lines(events + [e]) == Lines(events) + [Line(e)]
  {
    hide Line;
    if events != [] {
      assert (events + [e])[1..] == events[1..] + [e];
      LinesExtend(events[1..], e);
    } else {
      assert [e][1..] == [];
    }
  }

  /** Every held event is readable by its line. */
  lemma HeldEvent(execution: string, file: Text, events: seq<Event>, i: nat)
    requires Holds(execution, file, events) && i < |events|
    ensures |SplitLines(file)| == |events| && SplitLines(file)[i] == Line(events[i])
    ensures Linked(execution, events, i) && ParseLine(Line(events[i])) == Some(events[i])
  {
    AllEscaped(execution, events);
    SplitRendered(events);
    LinesAt(events, i);
    assert Linked(execution, events, i);
    ParseOfLine(events[i]);
  }

  lemma AllEscaped(execution: string, events: seq<Event>)
    requires Chained(execution, events) && Readable(events)
    ensures forall e :: e in events ==> Escaped(e.text) && !HasSeparator(e.text)
  {
    forall e | e in events ensures Escaped(e.text) {
      var i :| 0 <= i < |events| && events[i] == e;
      assert Linked(execution, events, i);
    }
  }

  lemma HeldLength(execution: string, file: Text, events: seq<Event>)
    requires Holds(execution, file, events)
    ensures |SplitLines(file)| == |events|
  {
    AllEscaped(execution, events);
    SplitRendered(events);
    LinesLength(events);
  }

  /** Two readings of one file agree as far as both go. */
  lemma SameReading(execution: string, file: Text, events: seq<Event>, read: seq<Event>)
    requires Holds(execution, file, events) && |read| <= |SplitLines(file)|
    requires forall i :: 0 <= i < |read| ==> ParseLine(SplitLines(file)[i]) == Some(read[i])
    ensures |read| <= |events| && events[..|read|] == read
  {
    HeldLength(execution, file, events);
    hide Holds, SplitLines, ParseLine, Line;
    forall i | 0 <= i < |read| ensures events[i] == read[i] { HeldEvent(execution, file, events, i); }
  }

  lemma {:induction false} RenderEnds(events: seq<Event>)
    requires events != [] && forall e :: e in events ==> Escaped(e.text)
    ensures Render(events) != [] && Render(events)[|Render(events)| - 1] == LF
    ensures Ch('\r') !in Render(events)
  {
    var init, e := events[..|events| - 1], events[|events| - 1];
    assert forall x :: x in init ==> x in events;
    assert e in events;
    forall i | 0 <= i < |Line(e)| ensures Line(e)[i] != Ch('\r') {
      if 0 < i < |Line(e)| - 1 { EscapedAt(e.text, i - 1); }
    }
    if init != [] { RenderEnds(init); }
  }

  /** Splitting loses nothing, and breaks a line only at its end. */
  lemma {:induction false} SplitJoins(file: Text, i: nat)
    requires i < |SplitLines(file)|
    ensures SplitLines(file)[i] != []
    ensures forall k :: 0 <= k < |SplitLines(file)[i]| - 1 ==> !IsBreak(SplitLines(file)[i][k])
    decreases |file|
  {
    var k := FirstBreak(file);
    hide IsBreak;
    if k < |file| && i > 0 { SplitJoins(file[k + 1..], i - 1); }
  }

  function Join(lines: seq<Text>): Text {
    if lines == [] then [] else lines[0] + Join(lines[1..])
  }

  lemma {:induction false} JoinSplit(file: Text)
    ensures Join(SplitLines(file)) == file
    decreases |file|
  {
    hide IsBreak;
    if file != [] {
      var k := FirstBreak(file);
      if k == |file| {
        assert [file][1..] == [];
      } else {
        JoinSplit(file[k + 1..]);
        assert SplitLines(file)[1..] == SplitLines(file[k + 1..]);
      }
    }
  }

  lemma {:induction false} JoinLines(events: seq<Event>)
    ensures Join(Lines(events)) == Render(events)
  {
    hide Line;
    if events != [] {
      JoinLines(events[1..]);
      RenderFront(events);
      assert Lines(events)[1..] == Lines(events[1..]);
    }
  }

  /** A line with no break inside has no separator in its event's text. */
  lemma LineIsReadable(e: Event)
    requires forall k :: 0 <= k < |Line(e)| - 1 ==> !IsBreak(Line(e)[k])
    ensures !HasSeparator(e.text)
  {
    forall c | c in e.text ensures !IsBreak(Ch(c)) {
      var i :| 0 <= i < |e.text| && e.text[i] == c;
      assert Line(e)[i + 1] == Ch(c);
    }
    assert IsBreak(Ch('\U{0085}')) && IsBreak(Ch('\U{2028}')) && IsBreak(Ch('\U{2029}'));
  }

  /** The loader's loop: the events of the file, or nothing when no events render to it. */
  method LoadJournal(execution: string, file: Text) returns (r: Option<seq<Event>>)
    ensures r.Some? ==> Holds(execution, file, r.value)
    ensures r.None? ==> forall events :: !Holds(execution, file, events)
  {
    hide Holds, SplitLines, ParseLine, Line, Linked, IsBreak;
    if file == [] {
      EmptyHolds(execution);
      return Some([]);
    }
    if file[|file| - 1] != LF || Ch('\r') in file {
      forall events ensures !Holds(execution, file, events) { BadEnd(execution, file, events); }
      return None;
    }
    var lines := SplitLines(file);
    var events: seq<Event>, ids: set<string>, expected := [], {}, FirstHash;
    var i := 0;
    while i < |lines|
      invariant 0 <= i <= |lines| && |events| == i && lines == SplitLines(file)
      invariant forall j :: 0 <= j < i ==> ParseLine(lines[j]) == Some(events[j])
      invariant Chained(execution, events) && Readable(events) && Lines(events) == lines[..i]
      invariant ids == set e | e in events :: e.id
      invariant expected == if i == 0 then FirstHash else events[i - 1].current
    {
      var parsed := ParseLine(lines[i]);
      if parsed.None? { BadLine(execution, file, events, i); return None; }
      var e := parsed.value;
      if e.execution != execution || e.id in ids || e.sequence != i + 1 || e.previous != expected
        || e.current != EventHash(e)
      {
        forall held | Holds(execution, file, held) ensures false { BadEvent(execution, file, events, ids, i, e, held); }
        return None;
      }
      GoodEvent(execution, file, events, i, e);
      LinesExtend(events, e);
      ExtendIds(events, e);
      events, ids, expected := events + [e], ids + {e.id}, e.current;
      i := i + 1;
    }
    JoinSplit(file);
    JoinLines(events);
    assert lines[..i] == lines;
    r := Some(events);
    AllHolds(execution, file, events);
  }

  lemma EmptyHolds(execution: string)
    ensures Holds(execution, [], [])
  {
  }

  lemma AllHolds(execution: string, file: Text, events: seq<Event>)
    requires file == Render(events) && Chained(execution, events) && Readable(events)
    ensures Holds(execution, file, events)
  {
  }

  lemma BadEnd(execution: string, file: Text, events: seq<Event>)
    requires file != [] && (file[|file| - 1] != LF || Ch('\r') in file)
    ensures !Holds(execution, file, events)
  {
    if Holds(execution, file, events) {
      AllEscaped(execution, events);
      if events != [] { RenderEnds(events); }
    }
  }

  lemma BadLine(execution: string, file: Text, events: seq<Event>, i: nat)
    requires i == |events| < |SplitLines(file)| && ParseLine(SplitLines(file)[i]).None?
    ensures forall held :: !Holds(execution, file, held)
  {
    forall held ensures !Holds(execution, file, held) {
      if Holds(execution, file, held) {
        HeldLength(execution, file, held);
        HeldEvent(execution, file, held, i);
      }
    }
  }

  lemma BadEvent(execution: string, file: Text, events: seq<Event>, ids: set<string>, i: nat, e: Event,
      held: seq<Event>)
    requires i == |events| < |SplitLines(file)| && ParseLine(SplitLines(file)[i]) == Some(e)
    requires forall j :: 0 <= j < i ==> ParseLine(SplitLines(file)[j]) == Some(events[j])
    requires ids == set x | x in events :: x.id
    requires || e.execution != execution || e.id in ids || e.sequence != i + 1
             || e.previous != (if i == 0 then FirstHash else events[i - 1].current) || e.current != EventHash(e)
    ensures !Holds(execution, file, held)
  {
    hide SplitLines, ParseLine, Holds, Line;
    if Holds(execution, file, held) {
      HeldLength(execution, file, held);
      HeldEvent(execution, file, held, i);
      SameReading(execution, file, held, events);
    }
  }

  lemma GoodEvent(execution: string, file: Text, events: seq<Event>, i: nat, e: Event)
    requires i == |events| < |SplitLines(file)| && ParseLine(SplitLines(file)[i]) == Some(e)
    requires Chained(execution, events) && Readable(events)
    requires e.execution == execution && e.sequence == i + 1 && e.current == EventHash(e)
    requires e.previous == if i == 0 then FirstHash else events[i - 1].current
    requires forall x :: x in events ==> x.id != e.id
    ensures Chained(execution, events + [e]) && Readable(events + [e]) && Line(e) == SplitLines(file)[i]
  {
    SplitJoins(file, i);
    LineIsReadable(e);
    hide SplitLines, Line, HasSeparator, Escaped;
    ChainedExtend(execution, events, e);
  }

  lemma ChainedExtend(execution: string, events: seq<Event>, e: Event)
    requires Chained(execution, events) && e.execution == execution && e.sequence == |events| + 1
             && e.current == EventHash(e)
    requires e.previous == (if events == [] then FirstHash else events[|events| - 1].current) && Escaped(e.text)
    requires forall x :: x in events ==> x.id != e.id
    ensures Chained(execution, events + [e])
  {
    var all := events + [e];
    forall i | 0 <= i < |all| ensures Linked(execution, all, i) {
      if i < |events| { assert Linked(execution, events, i); }
    }
  }

  lemma ExtendIds(events: seq<Event>, e: Event)
    ensures (set x | x in events + [e] :: x.id) == (set x | x in events :: x.id) + {e.id}
  {
    assert forall x :: x in events + [e] <==> x in events || x == e;
    var ids := set x | x in events + [e] :: x.id;
    assert e in events + [e] && e.id in ids;
    forall s | s in (set x | x in events :: x.id) ensures s in ids {
      var x :| x in events && x.id == s;
      assert x in events + [e];
    }
  }

  // ---------- appending ----------

  /** The event as it is persisted: its position and its place in the chain filled in. */
  function Persisted(execution: string, events: seq<Event>, id: string, text: string): Event {
    var previous := if events == [] then FirstHash else events[|events| - 1].current;
    Event(id, execution, |events| + 1, previous, HashOf(id, execution, |events| + 1, previous, text), text)
  }

  lemma LineHeads(e: Event, k: nat)
    requires 0 < k < |Line(e)|
    ensures !Line(e)[k].Head?
  {
  }

  /** A rendered journal can be told apart from every other. */
  lemma {:induction false} RenderInjective(a: seq<Event>, b: seq<Event>)
    requires Render(a) == Render(b)
    ensures a == b
    decreases |a|
  {
    if a == [] || b == [] {
      if a != [] { RenderFront(a); }
      if b != [] { RenderFront(b); }
    } else {
      RenderFront(a);
      RenderFront(b);
      LineExtent(a[0], a[1..]);
      LineExtent(b[0], b[1..]);
      var n := |Line(a[0])|;
      var file := Render(a);
      assert file[..n] == Line(a[0]) && file[..n] == Line(b[0]);
      assert file[n..] == Render(a[1..]) && file[n..] == Render(b[1..]);
      LineInjective(a[0], b[0]);
      hide Line, Render;
      RenderInjective(a[1..], b[1..]);
    }
  }

  lemma LineInjective(a: Event, b: Event)
    requires Line(a) == Line(b)
    ensures a == b
  {
    assert Line(a)[0] == Line(b)[0];
    assert |a.text| == |b.text|;
    forall i | 0 <= i < |a.text| ensures a.text[i] == b.text[i] {
      assert Line(a)[i + 1] == Ch(a.text[i]) && Line(b)[i + 1] == Ch(b.text[i]);
    }
  }

  lemma FrontIsHead(events: seq<Event>)
    requires events != []
    ensures Render(events) != [] && Render(events)[0].Head?
  {
    RenderFront(events);
  }

  /** Where the line at the front of a file ends. */
  function Extent(t: Text, from: nat): (k: nat)
    requires from <= |t|
    ensures from <= k <= |t|
    decreases |t| - from
  {
    if from == |t| || t[from].Head? then from else Extent(t, from + 1)
  }

  lemma {:induction false} ExtentIs(t: Text, from: nat, k: nat)
    requires from <= k <= |t| && (forall i :: from <= i < k ==> !t[i].Head?) && (k < |t| ==> t[k].Head?)
    ensures Extent(t, from) == k
    decreases k - from
  {
    if from < k { ExtentIs(t, from + 1, k); }
  }

  lemma LineExtent(x: Event, rest: seq<Event>)
    ensures |Line(x) + Render(rest)| >= 1 && Extent(Line(x) + Render(rest), 1) == |Line(x)|
  {
    var t := Line(x) + Render(rest);
    forall i | 1 <= i < |Line(x)| ensures !t[i].Head? { LineHeads(x, i); }
    if rest != [] { FrontIsHead(rest); }
    hide Line, Render;
    ExtentIs(t, 1, |Line(x)|);
  }

  /**
   * An appended event is read back, after exactly the events before it, if and only if its text holds none of the
   * three separators that JSON leaves unescaped; otherwise nothing can be read from the journal any more.
   */
  lemma AppendReadsBack(execution: string, file: Text, events: seq<Event>, id: string, text: string)
    requires Holds(execution, file, events) && Escaped(text) && forall x :: x in events ==> x.id != id
    ensures var p := Persisted(execution, events, id, text);
            && (!HasSeparator(text) ==> Holds(execution, file + Line(p), events + [p]))
            && (HasSeparator(text) ==> forall read :: !Holds(execution, file + Line(p), read))
  {
    var p := Persisted(execution, events, id, text);
    var all := events + [p];
    assert all[..|events|] == events;
    assert Render(all) == file + Line(p);
    hide Line, Render, Escaped, HasSeparator;
    ChainedExtend(execution, events, p);
    if HasSeparator(text) {
      forall read ensures !Holds(execution, file + Line(p), read) {
        if Render(read) == Render(all) {
          RenderInjective(read, all);
          assert p in all;
        }
      }
    }
  }

  // ---------- the chain ----------

  /** Two valid journals with the same last hash are the same journal. */
  lemma {:induction false} LastHashDetermines(execution: string, a: seq<Event>, b: seq<Event>)
    requires Chained(execution, a) && Chained(execution, b) && a != [] && b != []
    requires a[|a| - 1].current == b[|b| - 1].current
    ensures a == b
    decreases |a|
  {
    var m, n := |a| - 1, |b| - 1;
    assert Linked(execution, a, m) && Linked(execution, b, n);
    assert a[m] == b[n] && m == n;
    if m > 0 {
      InitChained(execution, a);
      InitChained(execution, b);
      LastHashDetermines(execution, a[..m], b[..m]);
      assert a == a[..m] + [a[m]] && b == b[..m] + [b[m]];
    }
  }

  lemma InitChained(execution: string, events: seq<Event>)
    requires Chained(execution, events) && events != []
    ensures Chained(execution, events[..|events| - 1])
  {
    var init := events[..|events| - 1];
    forall i | 0 <= i < |init| ensures Linked(execution, init, i) { assert Linked(execution, events, i); }
  }

  /** ... and therefore the same file, byte for byte. */
  lemma LastHashDeterminesFile(execution: string, f: Text, g: Text, a: seq<Event>, b: seq<Event>)
    requires Holds(execution, f, a) && Holds(execution, g, b) && a != [] && b != []
    requires a[|a| - 1].current == b[|b| - 1].current
    ensures f == g
  {
    LastHashDetermines(execution, a, b);
  }

  /** A file is read in at most one way. */
  lemma ReadingIsUnique(execution: string, file: Text, a: seq<Event>, b: seq<Event>)
    requires Holds(execution, file, a) && Holds(execution, file, b)
    ensures a == b
  {
    RenderInjective(a, b);
  }
}
