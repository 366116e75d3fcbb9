/**
 * The Excellon drill file generator: it collects round drills and drilled slots
 * keyed by diameter, numbers one tool per distinct diameter, and writes an NC
 * drill file (M48 header, FMAT,2, METRIC,TZ, G85 slots) that lists every hole
 * under the tool of its diameter.
 *
 * The output buffer is modelled as the sequence of lines appended to it; `Render`
 * gives the text. How a length is written in millimetres is not part of this
 * model and is passed in as `mm`.
 */
module Excellon {
  import opened Geometry

  /** The two end points of a drilled slot. */
  type SlotEnds = (Point, Point)

  /** One line of the drill file, as appended to the output buffer. */
  datatype Line =
    | Code(text: string)                                // a fixed directive or a comment
    | ToolDef(number: nat, diameter: PositiveLength)    // T<n>C<diameter>
    | ToolSelect(number: nat)                           // T<n>
    | DrillHit(position: Point)                         // X<x>Y<y>
    | SlotHit(ends: SlotEnds)                           // X<x>Y<y>G85X<x>Y<y>

  // ---------------------------------------------------------------------------
  // Decimal numbers and the text of the file
  // ---------------------------------------------------------------------------

  /** The decimal digits of a tool number, as `QString::arg` writes an int. */
  function Decimal(n: nat): (r: string)
    ensures |r| > 0
    ensures forall i :: 0 <= i < |r| ==> '0' <= r[i] <= '9'
  {
    if n < 10 then [Digit(n)] else Decimal(n / 10) + [Digit(n % 10)]
  }

  function Digit(d: nat): (c: char)
    requires d < 10
  {
    "0123456789"[d]
  }

  /** Reads a string of decimal digits back as a number. */
  function ParseDecimal(s: string): nat
    requires forall i :: 0 <= i < |s| ==> '0' <= s[i] <= '9'
  {
    if s == [] then 0 else ParseDecimal(s[..|s| - 1]) * 10 + (s[|s| - 1] as int - '0' as int)
  }

  /** Tool numbers are written so that they can be read back: distinct tools get distinct labels. */
  lemma {:induction false} DecimalRoundTrip(n: nat)
    ensures ParseDecimal(Decimal(n)) == n
  {
    var s := Decimal(n);
    if n >= 10 {
      DecimalRoundTrip(n / 10);
      assert s[..|s| - 1] == Decimal(n / 10);
    }
  }

  /** The text of one line, with its line feed. */
  function LineText(line: Line, mm: Length -> string): string {
    match line
    case Code(text) => text + "\n"
    case ToolDef(n, d) => "T" + Decimal(n) + "C" + mm(d) + "\n"
    case ToolSelect(n) => "T" + Decimal(n) + "\n"
    case DrillHit(p) => "X" + mm(p.x) + "Y" + mm(p.y) + "\n"
    case SlotHit(ends) => "X" + mm(ends.0.x) + "Y" + mm(ends.0.y) + "G85X" + mm(ends.1.x) + "Y" + mm(ends.1.y) + "\n"
  }

  /** The text of the output buffer. */
  function Render(lines: seq<Line>, mm: Length -> string): string {
    if lines == [] then "" else Render(lines[..|lines| - 1], mm) + LineText(lines[|lines| - 1], mm)
  }

  lemma {:induction false} RenderAppend(a: seq<Line>, b: seq<Line>, mm: Length -> string)
    ensures Render(a + b, mm) == Render(a, mm) + Render(b, mm)
    decreases |b|
  {
    if b == [] {
      assert a + b == a;
    } else {
      var init, last := b[..|b| - 1], b[|b| - 1];
      assert (a + b)[..|a + b| - 1] == a + init && (a + b)[|a + b| - 1] == last;
      RenderAppend(a, init, mm);
      Associates(Render(a, mm), Render(init, mm), LineText(last, mm));
    }
  }

  // ---------------------------------------------------------------------------
  // Multimaps keyed by diameter, and the tool list
  // ---------------------------------------------------------------------------

  /** The keys used in a multimap. */
  function Keys<V>(entries: seq<(PositiveLength, V)>): set<PositiveLength> {
    set i | 0 <= i < |entries| :: entries[i].0
  }

  /**
   * `QMultiMap::values(key)`: the values stored under `key`, from the most recently
   * inserted to the least recently inserted.
   */
  function Values<V>(entries: seq<(PositiveLength, V)>, key: PositiveLength): seq<V> {
    if entries == [] then []
    else
      var last := entries[|entries| - 1];
      var older := Values(entries[..|entries| - 1], key);
      if last.0 == key then [last.1] + older else older
  }

  /** No diameter occurs twice. */
  ghost predicate Distinct(tools: seq<PositiveLength>) {
    forall d: PositiveLength :: multiset(tools)[d] <= 1
  }

  ghost predicate Sorted(s: seq<PositiveLength>) {
    forall i, j :: 0 <= i < j < |s| ==> s[i] <= s[j]
  }

  /** Inserts `x` into a sorted sequence, before the first element that is not smaller. */
  function Insert(x: PositiveLength, s: seq<PositiveLength>): (r: seq<PositiveLength>)
    requires Sorted(s)
    ensures Sorted(r)
    ensures multiset(r) == multiset(s) + multiset{x}
  {
    if s == [] || x <= s[0] then
      [x] + s
    else
      assert s == [s[0]] + s[1..];
      var rest := Insert(x, s[1..]);
      BoundedBelow(s[0], s[1..], x, rest);
      SortedCons(s[0], rest);
      [s[0]] + rest
  }

  /** Every element of a permutation of `s + [x]` is at least a lower bound of both. */
  lemma BoundedBelow(low: PositiveLength, s: seq<PositiveLength>, x: PositiveLength, r: seq<PositiveLength>)
    requires low <= x && forall k :: 0 <= k < |s| ==> low <= s[k]
    requires multiset(r) == multiset(s) + multiset{x}
    ensures forall k :: 0 <= k < |r| ==> low <= r[k]
  {
    forall k | 0 <= k < |r| ensures low <= r[k] {
      assert r[k] in multiset(r);
      if r[k] != x {
        assert r[k] in multiset(s);
        var j :| 0 <= j < |s| && s[j] == r[k];
      }
    }
  }

  lemma SortedCons(h: PositiveLength, t: seq<PositiveLength>)
    requires Sorted(t) && forall k :: 0 <= k < |t| ==> h <= t[k]
    ensures Sorted([h] + t)
  {
  }

  /** The `std::sort` of the tool list, as an insertion sort. */
  function InsertionSort(s: seq<PositiveLength>): (r: seq<PositiveLength>)
    ensures Sorted(r)
    ensures multiset(r) == multiset(s)
  {
    if s == [] then []
    else
      assert s == s[..|s| - 1] + [s[|s| - 1]];
      Insert(s[|s| - 1], InsertionSort(s[..|s| - 1]))
  }

  /** A sorted order is unique: two sorted permutations of each other are equal. */
  lemma {:induction false} SortedPermutationsAreEqual(a: seq<PositiveLength>, b: seq<PositiveLength>)
    requires Sorted(a) && Sorted(b)
    requires multiset(a) == multiset(b)
    ensures a == b
    decreases |a|
  {
    if a == [] {
      assert |b| == |multiset(b)|;
    } else {
      assert |b| == |multiset(b)|;
      HeadIsLeast(a, b[0]);
      HeadIsLeast(b, a[0]);
      var ta, tb := a[1..], b[1..];
      assert a == [a[0]] + ta;
      assert b == [b[0]] + tb;
      assert a[0] == b[0];
      forall z ensures multiset(ta)[z] == multiset(tb)[z] {
        assert multiset(a)[z] == multiset([a[0]])[z] + multiset(ta)[z];
        assert multiset(b)[z] == multiset([a[0]])[z] + multiset(tb)[z];
      }
      assert multiset(ta) == multiset(tb);
      SortedPermutationsAreEqual(ta, tb);
    }
  }

  lemma HeadIsLeast(s: seq<PositiveLength>, x: PositiveLength)
    requires Sorted(s) && x in multiset(s)
    ensures s[0] <= x
  {
    var j :| 0 <= j < |s| && s[j] == x;
  }

  /** Sorting a sorted tool list leaves it as it is. */
  lemma SortingIsIdempotent(s: seq<PositiveLength>)
    ensures Sorted(s) ==> InsertionSort(s) == s
  {
    if Sorted(s) {
      SortedPermutationsAreEqual(InsertionSort(s), s);
    }
  }

  ghost predicate Increasing(s: seq<PositiveLength>) {
    forall i, j :: 0 <= i < j < |s| ==> s[i] < s[j]
  }

  /** A sorted list of distinct diameters is strictly increasing. */
  lemma SortedDistinctIsIncreasing(s: seq<PositiveLength>)
    requires Sorted(s) && Distinct(s)
    ensures Increasing(s)
  {
    forall i, j | 0 <= i < j < |s| ensures s[i] < s[j] {
      var front, back := s[..j], s[j..];
      assert s == front + back;
      assert s[i] == front[i] && s[j] == back[0];
      assert multiset(s)[s[j]] == multiset(front)[s[j]] + multiset(back)[s[j]];
      assert s[i] in multiset(front) && s[j] in multiset(back);
    }
  }

  // ---------------------------------------------------------------------------
  // The drill file
  // ---------------------------------------------------------------------------

  /** The header up to the tool table; the version and the date are supplied by the caller. */
  function Header(version: string, creationDate: string): seq<Line> {
    [ Code("M48"),
      Code(";DRILL FILE"),
      Code(";Generated by LibrePCB " + version),
      Code(";Creation Date: " + creationDate),
      Code("FMAT,2"),
      Code("METRIC,TZ") ]
  }

  /** The tool table for the first `count` tools: tool `i` (from zero) is declared as number `i + 1`. */
  function ToolTable(tools: seq<PositiveLength>, count: nat): seq<Line>
    requires count <= |tools|
  {
    if count == 0 then [] else ToolTable(tools, count - 1) + [ToolDef(count, tools[count - 1])]
  }

  /** The lines between the tool table and the holes. */
  const PatternStart: seq<Line> := [Code("%"), Code("G90"), Code("G05"), Code("M71")]

  /** The end of the program: unload the tool, rewind. */
  const Footer: seq<Line> := [ToolSelect(0), Code("M30")]

  function DrillLines(positions: seq<Point>): seq<Line> {
    if positions == [] then [] else DrillLines(positions[..|positions| - 1]) + [DrillHit(positions[|positions| - 1])]
  }

  function SlotLines(slots: seq<SlotEnds>): seq<Line> {
    if slots == [] then [] else SlotLines(slots[..|slots| - 1]) + [SlotHit(slots[|slots| - 1])]
  }

  lemma DrillLinesStep(positions: seq<Point>, j: nat)
    requires j < |positions|
    ensures DrillLines(positions[..j + 1]) == DrillLines(positions[..j]) + [DrillHit(positions[j])]
  {
    assert positions[..j + 1][..j] == positions[..j];
  }

  lemma SlotLinesStep(slots: seq<SlotEnds>, j: nat)
    requires j < |slots|
    ensures SlotLines(slots[..j + 1]) == SlotLines(slots[..j]) + [SlotHit(slots[j])]
  {
    assert slots[..j + 1][..j] == slots[..j];
  }

  /** The holes of one tool: select it by number, then its drills, then its slots. */
  function ToolBlock(number: nat, diameter: PositiveLength,
                     drills: seq<(PositiveLength, Point)>, slots: seq<(PositiveLength, SlotEnds)>): seq<Line> {
    [ToolSelect(number)] + DrillLines(Values(drills, diameter)) + SlotLines(Values(slots, diameter))
  }

  lemma AppendBlock(start: seq<Line>, number: nat, diameter: PositiveLength,
                    drills: seq<(PositiveLength, Point)>, slots: seq<(PositiveLength, SlotEnds)>)
    ensures start + [ToolSelect(number)] + DrillLines(Values(drills, diameter)) + SlotLines(Values(slots, diameter))
         == start + ToolBlock(number, diameter, drills, slots)
  {
    var select, hits, routes := [ToolSelect(number)], DrillLines(Values(drills, diameter)), SlotLines(Values(slots, diameter));
    Associates(start, select, hits);
    Associates(start, select + hits, routes);
  }

  /** The holes of the first `count` tools. */
  function DrillSection(tools: seq<PositiveLength>, drills: seq<(PositiveLength, Point)>,
                        slots: seq<(PositiveLength, SlotEnds)>, count: nat): seq<Line>
    requires count <= |tools|
  {
    if count == 0 then []
    else DrillSection(tools, drills, slots, count - 1) + ToolBlock(count, tools[count - 1], drills, slots)
  }

  /** The whole file that `generate` writes for a tool list, drills and slots. */
  function Document(tools: seq<PositiveLength>, drills: seq<(PositiveLength, Point)>,
                    slots: seq<(PositiveLength, SlotEnds)>, version: string, creationDate: string): seq<Line> {
    Header(version, creationDate) + ToolTable(tools, |tools|) + PatternStart
    + DrillSection(tools, drills, slots, |tools|) + Footer
  }

  /**
   * Files written for the same tools, holes and version agree everywhere except
   * in the fourth line, the one that carries the creation date.
   */
  lemma DocumentDiffersOnlyInDate(tools: seq<PositiveLength>, drills: seq<(PositiveLength, Point)>,
                                  slots: seq<(PositiveLength, SlotEnds)>, version: string, d1: string, d2: string)
    ensures var a, b := Document(tools, drills, slots, version, d1), Document(tools, drills, slots, version, d2);
            && |a| == |b| > 3
            && a[..3] == b[..3] && a[4..] == b[4..]
            && a[3] == Code(";Creation Date: " + d1) && b[3] == Code(";Creation Date: " + d2)
  {
    var table, start, section := ToolTable(tools, |tools|), PatternStart, DrillSection(tools, drills, slots, |tools|);
    var body := table + start + section + Footer;
    forall d | d == d1 || d == d2
      ensures Document(tools, drills, slots, version, d) == Header(version, d) + body
    {
      var h := Header(version, d);
      Associates(h, table, start);
      Associates(h, table + start, section);
      Associates(h, table + start + section, Footer);
    }
    var h1, h2 := Header(version, d1), Header(version, d2);
    assert h1[..3] == h2[..3] && h1[4..] == h2[4..];
  }

  /** The file starts with `M48` and ends with `T0` and `M30`. */
  lemma DocumentFraming(tools: seq<PositiveLength>, drills: seq<(PositiveLength, Point)>,
                        slots: seq<(PositiveLength, SlotEnds)>, version: string, creationDate: string,
                        mm: Length -> string)
    ensures var text := Render(Document(tools, drills, slots, version, creationDate), mm);
            |text| >= 11 && text[..4] == "M48\n" && text[|text| - 7..] == "T0\nM30\n"
  {
    var header, table, section := Header(version, creationDate), ToolTable(tools, |tools|), DrillSection(tools, drills, slots, |tools|);
    var body := header + table + PatternStart + section;
    var rest := table + PatternStart + section;
    Associates(header, table + PatternStart, section);
    Associates(header, table, PatternStart);
    RenderAppend(body, Footer, mm);
    RenderAppend(header, rest, mm);
    HeaderText(version, creationDate, mm);
    FooterText(mm);
    StartsWith(Render(header, mm), Render(rest, mm) + Render(Footer, mm), 4);
    Associates(Render(header, mm), Render(rest, mm), Render(Footer, mm));
    EndsWith(Render(body, mm), Render(Footer, mm));
  }

  lemma StartsWith(front: string, back: string, n: nat)
    requires n <= |front|
    ensures (front + back)[..n] == front[..n]
  {
  }

  lemma EndsWith(front: string, back: string)
    ensures (front + back)[|front|..] == back
  {
  }

  lemma HeaderText(version: string, creationDate: string, mm: Length -> string)
    ensures |Render(Header(version, creationDate), mm)| >= 4
    ensures Render(Header(version, creationDate), mm)[..4] == "M48\n"
  {
    var header := Header(version, creationDate);
    assert header == [Code("M48")] + header[1..];
    RenderAppend([Code("M48")], header[1..], mm);
    assert [Code("M48")][..0] == [];
    assert Render([Code("M48")], mm) == "M48\n";
  }

  lemma FooterText(mm: Length -> string)
    ensures Render(Footer, mm) == "T0\nM30\n"
  {
    assert Footer[..1] == [ToolSelect(0)];
    assert Footer[..1][..0] == [];
    assert Decimal(0) == "0";
  }

  // ---------------------------------------------------------------------------
  // Reading the file back: what a drilling machine does with it
  // ---------------------------------------------------------------------------

  /**
   * The state of a machine reading the file: the declared tools by number, the
   * selected tool, and the holes made so far with the diameter of the tool that
   * made them.
   */
  datatype Machine = Machine(
    tools: map<nat, PositiveLength>,
    selected: nat,
    drilled: seq<(PositiveLength, Point)>,
    routed: seq<(PositiveLength, SlotEnds)>)

  const Idle: Machine := Machine(map[], 0, [], [])

  function Step(m: Machine, line: Line): Machine {
    match line
    case Code(_) => m
    case ToolDef(n, d) => m.(tools := m.tools[n := d])
    case ToolSelect(n) => m.(selected := n)
    case DrillHit(p) =>
      if m.selected in m.tools then m.(drilled := m.drilled + [(m.tools[m.selected], p)]) else m
    case SlotHit(ends) =>
      if m.selected in m.tools then m.(routed := m.routed + [(m.tools[m.selected], ends)]) else m
  }

  function Run(m: Machine, lines: seq<Line>): Machine {
    if lines == [] then m else Step(Run(m, lines[..|lines| - 1]), lines[|lines| - 1])
  }

  lemma {:induction false} RunAppend(m: Machine, a: seq<Line>, b: seq<Line>)
    ensures Run(m, a + b) == Run(Run(m, a), b)
    decreases |b|
  {
    if b == [] {
      assert a + b == a;
    } else {
      assert (a + b)[..|a + b| - 1] == a + b[..|b| - 1];
      RunAppend(m, a, b[..|b| - 1]);
    }
  }

  lemma {:induction false} RunCodes(m: Machine, lines: seq<Line>)
    requires forall i :: 0 <= i < |lines| ==> lines[i].Code?
    ensures Run(m, lines) == m
    decreases |lines|
  {
    if lines != [] {
      RunCodes(m, lines[..|lines| - 1]);
    }
  }

  /** The tool numbers declared by the table for the first `count` tools. */
  function ToolNumbers(tools: seq<PositiveLength>, count: nat): map<nat, PositiveLength>
    requires count <= |tools|
  {
    if count == 0 then map[] else ToolNumbers(tools, count - 1)[count := tools[count - 1]]
  }

  /** The table declares the numbers 1 to `count` and no other, number `n` with the `n`-th diameter. */
  lemma {:induction false} ToolNumbersDeclare(tools: seq<PositiveLength>, count: nat)
    requires count <= |tools|
    ensures forall n: nat :: 1 <= n <= count ==> n in ToolNumbers(tools, count) && ToolNumbers(tools, count)[n] == tools[n - 1]
    ensures forall n :: n in ToolNumbers(tools, count) ==> 1 <= n <= count
  {
    if count > 0 {
      ToolNumbersDeclare(tools, count - 1);
      var before, after := ToolNumbers(tools, count - 1), ToolNumbers(tools, count);
      assert after == before[count := tools[count - 1]];
      forall n: nat | 1 <= n <= count
        ensures n in after && after[n] == tools[n - 1]
      {
        if n < count {
          assert n in before && before[n] == tools[n - 1];
        }
      }
    }
  }

  lemma {:induction false} RunToolTable(m: Machine, tools: seq<PositiveLength>, count: nat)
    requires count <= |tools|
    requires m.tools == map[]
    ensures Run(m, ToolTable(tools, count)) == m.(tools := ToolNumbers(tools, count))
  {
    if count > 0 {
      var init := ToolTable(tools, count - 1);
      assert (init + [ToolDef(count, tools[count - 1])])[..|init|] == init;
      RunToolTable(m, tools, count - 1);
    }
  }

  /** Every value paired with the same diameter. */
  function Tagged<V>(diameter: PositiveLength, values: seq<V>): seq<(PositiveLength, V)> {
    if values == [] then [] else Tagged(diameter, values[..|values| - 1]) + [(diameter, values[|values| - 1])]
  }

  lemma {:induction false} RunDrillLines(m: Machine, positions: seq<Point>)
    requires m.selected in m.tools
    ensures Run(m, DrillLines(positions)) == m.(drilled := m.drilled + Tagged(m.tools[m.selected], positions))
    decreases |positions|
  {
    if positions == [] {
      assert m.drilled + [] == m.drilled;
    } else {
      var init := positions[..|positions| - 1];
      var lines := DrillLines(positions);
      assert lines[..|lines| - 1] == DrillLines(init);
      RunDrillLines(m, init);
    }
  }

  lemma {:induction false} RunSlotLines(m: Machine, slots: seq<SlotEnds>)
    requires m.selected in m.tools
    ensures Run(m, SlotLines(slots)) == m.(routed := m.routed + Tagged(m.tools[m.selected], slots))
    decreases |slots|
  {
    if slots == [] {
      assert m.routed + [] == m.routed;
    } else {
      var init := slots[..|slots| - 1];
      var lines := SlotLines(slots);
      assert lines[..|lines| - 1] == SlotLines(init);
      RunSlotLines(m, init);
    }
  }

  /** The holes of every tool in a list, tool after tool, each with the tool's diameter. */
  function Grouped<V>(tools: seq<PositiveLength>, entries: seq<(PositiveLength, V)>): seq<(PositiveLength, V)> {
    if tools == [] then []
    else
      var last := tools[|tools| - 1];
      Grouped(tools[..|tools| - 1], entries) + Tagged(last, Values(entries, last))
  }

  lemma RunToolBlock(m: Machine, number: nat, diameter: PositiveLength,
                     drills: seq<(PositiveLength, Point)>, slots: seq<(PositiveLength, SlotEnds)>)
    requires number in m.tools && m.tools[number] == diameter
    ensures Run(m, ToolBlock(number, diameter, drills, slots))
         == m.(selected := number,
               drilled := m.drilled + Tagged(diameter, Values(drills, diameter)),
               routed := m.routed + Tagged(diameter, Values(slots, diameter)))
  {
    var first := [ToolSelect(number)];
    var holes := DrillLines(Values(drills, diameter));
    assert first[..0] == [];
    var m1 := Run(m, first);
    RunAppend(m, first, holes);
    RunDrillLines(m1, Values(drills, diameter));
    RunAppend(m, first + holes, SlotLines(Values(slots, diameter)));
    RunSlotLines(Run(m, first + holes), Values(slots, diameter));
  }

  lemma {:induction false} RunDrillSection(m: Machine, tools: seq<PositiveLength>, drills: seq<(PositiveLength, Point)>,
                                           slots: seq<(PositiveLength, SlotEnds)>, count: nat)
    requires count <= |tools|
    requires m.tools == ToolNumbers(tools, |tools|) && m.drilled == [] && m.routed == []
    ensures var r := Run(m, DrillSection(tools, drills, slots, count));
            && r.tools == m.tools
            && r.drilled == Grouped(tools[..count], drills)
            && r.routed == Grouped(tools[..count], slots)
  {
    if count > 0 {
      RunDrillSection(m, tools, drills, slots, count - 1);
      var before := DrillSection(tools, drills, slots, count - 1);
      var d := tools[count - 1];
      var m1 := Run(m, before);
      ToolNumbersDeclare(tools, |tools|);
      assert count in m1.tools && m1.tools[count] == d;
      RunAppend(m, before, ToolBlock(count, d, drills, slots));
      RunToolBlock(m1, count, d, drills, slots);
      var prefix := tools[..count];
      assert prefix[..count - 1] == tools[..count - 1] && prefix[count - 1] == d;
    }
  }

  lemma TaggedAppend<V>(d: PositiveLength, a: seq<V>, b: seq<V>)
    ensures Tagged(d, a + b) == Tagged(d, a) + Tagged(d, b)
    decreases |b|
  {
    if b != [] {
      assert (a + b)[..|a + b| - 1] == a + b[..|b| - 1];
      TaggedAppend(d, a, b[..|b| - 1]);
    } else {
      assert a + b == a;
    }
  }

  /**
   * One more entry in the multimap adds it once to the holes grouped under a list
   * of distinct tools that contains its diameter, and not at all otherwise.
   */
  lemma {:induction false} GroupedSnoc<V>(tools: seq<PositiveLength>, entries: seq<(PositiveLength, V)>, x: (PositiveLength, V))
    requires Distinct(tools)
    ensures multiset(Grouped(tools, entries + [x]))
         == multiset(Grouped(tools, entries)) + (if x.0 in tools then multiset{x} else multiset{})
    decreases |tools|
  {
    if tools != [] {
      var init, last := SplitLast(tools);
      GroupedSnoc(init, entries, x);
      var added := TaggedInsertion(entries, x, last);
      GroupedLast(tools, init, last, entries + [x]);
      GroupedLast(tools, init, last, entries);
      var before, tail := Grouped(init, entries), Tagged(last, Values(entries, last));
      var earlier: multiset<(PositiveLength, V)> := if x.0 in init then multiset{x} else multiset{};
      var now: multiset<(PositiveLength, V)> := if x.0 in tools then multiset{x} else multiset{};
      assert earlier + multiset(added) == now by {
        assert x.0 in tools <==> x.0 in init || x.0 == last;
      }
      assert multiset(Grouped(tools, entries + [x])) == multiset(Grouped(init, entries + [x])) + multiset(added + tail);
      assert multiset(Grouped(init, entries + [x])) == multiset(before) + earlier;
      assert multiset(added + tail) == multiset(added) + multiset(tail);
      Regroup(multiset(before), earlier, multiset(added), multiset(tail), now);
    }
  }

  lemma Regroup<T>(grouped: multiset<T>, earlier: multiset<T>, added: multiset<T>, tail: multiset<T>, now: multiset<T>)
    requires earlier + added == now
    ensures (grouped + earlier) + (added + tail) == (grouped + tail) + now
  {
  }

  /** Unfolds the grouping of a tool list at its last tool. */
  lemma GroupedLast<V>(tools: seq<PositiveLength>, init: seq<PositiveLength>, last: PositiveLength,
                       entries: seq<(PositiveLength, V)>)
    requires tools == init + [last]
    ensures Grouped(tools, entries) == Grouped(init, entries) + Tagged(last, Values(entries, last))
  {
    assert tools[..|tools| - 1] == init;
  }

  /**
   * The holes of one tool after one more entry: the new entry first if it has
   * that diameter, then the holes from before.
   */
  lemma TaggedInsertion<V>(entries: seq<(PositiveLength, V)>, x: (PositiveLength, V), d: PositiveLength)
    returns (added: seq<(PositiveLength, V)>)
    ensures Tagged(d, Values(entries + [x], d)) == added + Tagged(d, Values(entries, d))
    ensures multiset(added) == if x.0 == d then multiset{x} else multiset{}
  {
    var here: seq<V> := if x.0 == d then [x.1] else [];
    assert Values(entries + [x], d) == here + Values(entries, d) by {
      assert (entries + [x])[..|entries + [x]| - 1] == entries;
    }
    TaggedAppend(d, here, Values(entries, d));
    added := Tagged(d, here);
    if x.0 == d {
      TaggedOne(d, x.1);
    }
  }

  lemma TaggedOne<V>(d: PositiveLength, v: V)
    ensures Tagged(d, [v]) == [(d, v)]
  {
    assert [v][..0] == [];
  }

  /** Splits a non-empty list of distinct tools into its front and its last tool. */
  lemma SplitLast(tools: seq<PositiveLength>) returns (init: seq<PositiveLength>, last: PositiveLength)
    requires Distinct(tools) && tools != []
    ensures tools == init + [last]
    ensures Distinct(init) && last !in init
    ensures forall d :: d in tools <==> d in init || d == last
  {
    init, last := tools[..|tools| - 1], tools[|tools| - 1];
    assert tools == init + [last];
    assert multiset(tools) == multiset(init) + multiset{last};
    forall d: PositiveLength ensures multiset(init)[d] <= 1 {
      assert multiset(init)[d] <= multiset(tools)[d];
    }
    assert multiset(tools)[last] == multiset(init)[last] + 1;
  }

  lemma {:induction false} GroupedNone<V>(tools: seq<PositiveLength>)
    ensures Grouped<V>(tools, []) == []
    decreases |tools|
  {
    if tools != [] {
      GroupedNone<V>(tools[..|tools| - 1]);
    }
  }

  /**
   * Grouping a multimap under a list of distinct tools that covers all its keys
   * gives back every entry exactly once.
   */
  lemma {:induction false} GroupedIsPermutation<V>(tools: seq<PositiveLength>, entries: seq<(PositiveLength, V)>)
    requires Distinct(tools)
    requires Keys(entries) <= set t | t in tools
    ensures multiset(Grouped(tools, entries)) == multiset(entries)
    decreases |entries|
  {
    if entries == [] {
      GroupedNone<V>(tools);
    } else {
      var init := entries[..|entries| - 1];
      var x := entries[|entries| - 1];
      assert entries == init + [x];
      assert Keys(init) <= Keys(entries);
      assert x.0 in Keys(entries);
      GroupedIsPermutation(tools, init);
      GroupedSnoc(tools, init, x);
    }
  }

  /**
   * The main property of the drill file: a machine reading it declares tool `i + 1`
   * with the `i`-th diameter of the tool list, and drills every recorded drill and
   * mills every recorded slot exactly once, with the tool of its diameter.
   */
  lemma GeneratedFileMakesEveryHole(tools: seq<PositiveLength>, drills: seq<(PositiveLength, Point)>,
                                    slots: seq<(PositiveLength, SlotEnds)>, version: string, creationDate: string)
    returns (m: Machine)
    requires Distinct(tools)
    requires Keys(drills) <= set t | t in tools
    requires Keys(slots) <= set t | t in tools
    ensures m == Run(Idle, Document(tools, drills, slots, version, creationDate))
    ensures m.tools == ToolNumbers(tools, |tools|)
    ensures multiset(m.drilled) == multiset(drills)
    ensures multiset(m.routed) == multiset(slots)
  {
    var opening := Header(version, creationDate) + ToolTable(tools, |tools|) + PatternStart;
    var section := DrillSection(tools, drills, slots, |tools|);
    var m1 := DeclareTools(tools, version, creationDate);
    RunDrillSection(m1, tools, drills, slots, |tools|);
    RunAppend(Idle, opening, section);
    var m2 := Run(Idle, opening + section);
    RunFooter(m2);
    RunAppend(Idle, opening + section, Footer);
    assert Document(tools, drills, slots, version, creationDate) == opening + section + Footer;
    m := Run(Idle, opening + section + Footer);
    assert tools[..|tools|] == tools;
    assert m.drilled == Grouped(tools, drills) && m.routed == Grouped(tools, slots);
    GroupedIsPermutation(tools, drills);
    GroupedIsPermutation(tools, slots);
  }

  /** The machine state after the header, the tool table and the pattern start. */
  lemma DeclareTools(tools: seq<PositiveLength>, version: string, creationDate: string) returns (m: Machine)
    ensures m == Run(Idle, Header(version, creationDate) + ToolTable(tools, |tools|) + PatternStart)
    ensures m == Idle.(tools := ToolNumbers(tools, |tools|))
  {
    var header := Header(version, creationDate);
    var table := ToolTable(tools, |tools|);
    RunCodes(Idle, header);
    RunAppend(Idle, header, table);
    RunToolTable(Idle, tools, |tools|);
    var m1 := Run(Idle, header + table);
    RunAppend(Idle, header + table, PatternStart);
    RunCodes(m1, PatternStart);
    m := Run(Idle, header + table + PatternStart);
  }

  lemma RunFooter(m: Machine)
    ensures Run(m, Footer) == m.(selected := 0)
  {
    var first := [ToolSelect(0)];
    assert Footer[..1] == first && Footer[1] == Code("M30");
    assert first[..0] == [];
    assert Run(m, first) == m.(selected := 0);
  }

  // ---------------------------------------------------------------------------
  // The generator
  // ---------------------------------------------------------------------------

  class ExcellonGenerator {
    /** `mOutput`: the lines written so far. */
    var output: seq<Line>
    /** `mDrillList`: drill positions by diameter, in insertion order. */
    var drills: seq<(PositiveLength, Point)>
    /** `mSlotList`: slot end points by width, in insertion order. */
    var slots: seq<(PositiveLength, SlotEnds)>
    /** `mToolList`: the diameters in use. */
    var tools: seq<PositiveLength>

    /** The tool list holds each diameter used by a drill or a slot, once. */
    ghost predicate Valid()
      reads this
    {
      && Distinct(tools)
      && (set t | t in tools) == Keys(drills) + Keys(slots)
    }

    constructor()
      ensures Valid()
      ensures output == [] && drills == [] && slots == [] && tools == []
    {
      output := [];
      drills := [];
      slots := [];
      tools := [];
    }

    method Drill(pos: Point, dia: PositiveLength)
      requires Valid()
      modifies this
      ensures Valid()
      ensures drills == old(drills) + [(dia, pos)]
      ensures tools == if dia in old(tools) then old(tools) else old(tools) + [dia]
      ensures slots == old(slots) && output == old(output)
    {
      ghost var known := set t | t in tools;
      assert known == Keys(drills) + Keys(slots);
      drills := drills + [(dia, pos)];
      KeysAppend(old(drills), (dia, pos));
      if dia !in tools {
        AddTool(tools, dia);
        tools := tools + [dia];
      }
      assert (set t | t in tools) == known + {dia};
    }

    method Slot(start: Point, end: Point, width: PositiveLength)
      requires Valid()
      modifies this
      ensures Valid()
      ensures slots == old(slots) + [(width, (start, end))]
      ensures tools == if width in old(tools) then old(tools) else old(tools) + [width]
      ensures drills == old(drills) && output == old(output)
    {
      ghost var known := set t | t in tools;
      assert known == Keys(drills) + Keys(slots);
      slots := slots + [(width, (start, end))];
      KeysAppend(old(slots), (width, (start, end)));
      if width !in tools {
        AddTool(tools, width);
        tools := tools + [width];
      }
      assert (set t | t in tools) == known + {width};
    }

    /**
     * Sorts the tool list and writes the whole file from scratch. `version` and
     * `creationDate` stand for the application version and the current time.
     */
    method Generate(version: string, creationDate: string)
      requires Valid()
      modifies this
      ensures Valid()
      ensures drills == old(drills) && slots == old(slots)
      ensures Sorted(tools) && multiset(tools) == multiset(old(tools))
      ensures Sorted(old(tools)) ==> tools == old(tools)
      ensures Increasing(tools)
      ensures output == Document(tools, drills, slots, version, creationDate)
      ensures var m := Run(Idle, output);
              multiset(m.drilled) == multiset(drills) && multiset(m.routed) == multiset(slots)
    {
      ghost var before := tools;
      tools := InsertionSort(tools);
      SortedToolList(before, tools);
      Rewrite(version, creationDate);
      ghost var m := GeneratedFileMakesEveryHole(tools, drills, slots, version, creationDate);
    }

    /** The second half of `generate`: clears the output and prints the file for the current tool list. */
    method Rewrite(version: string, creationDate: string)
      modifies this`output
      ensures output == Document(tools, drills, slots, version, creationDate)
    {
      output := [];
      PrintHeader(version, creationDate);
      PrintDrills();
      PrintFooter();
    }

    method Reset()
      modifies this
      ensures Valid()
      ensures output == [] && drills == [] && slots == [] && tools == []
    {
      output := [];
      drills := [];
      slots := [];
      tools := [];
    }

    method PrintHeader(version: string, creationDate: string)
      modifies this`output
      ensures output == old(output) + Header(version, creationDate) + ToolTable(tools, |tools|) + PatternStart
    {
      ghost var start := output;
      output := output + [Code("M48")];
      output := output + [Code(";DRILL FILE")];
      output := output + [Code(";Generated by LibrePCB " + version)];
      output := output + [Code(";Creation Date: " + creationDate)];
      output := output + [Code("FMAT,2")];
      output := output + [Code("METRIC,TZ")];
      assert output == start + Header(version, creationDate);
      PrintToolList();
      ghost var listed := output;
      output := output + [Code("%")];
      output := output + [Code("G90")];
      output := output + [Code("G05")];
      output := output + [Code("M71")];
      assert output == listed + PatternStart;
    }

    method PrintToolList()
      modifies this`output
      ensures output == old(output) + ToolTable(tools, |tools|)
    {
      for i := 0 to |tools|
        invariant output == old(output) + ToolTable(tools, i)
      {
        output := output + [ToolDef(i + 1, tools[i])];
      }
    }

    method PrintDrills()
      modifies this`output
      ensures output == old(output) + DrillSection(tools, drills, slots, |tools|)
    {
      for i := 0 to |tools|
        invariant output == old(output) + DrillSection(tools, drills, slots, i)
      {
        ghost var start := output;
        output := output + [ToolSelect(i + 1)];
        ghost var selected := output;
        var positions := Values(drills, tools[i]);
        for j := 0 to |positions|
          invariant output == selected + DrillLines(positions[..j])
        {
          DrillLinesStep(positions, j);
          output := output + [DrillHit(positions[j])];
        }
        assert positions[..|positions|] == positions;
        ghost var drilled := output;
        var ends := Values(slots, tools[i]);
        for j := 0 to |ends|
          invariant output == drilled + SlotLines(ends[..j])
        {
          SlotLinesStep(ends, j);
          output := output + [SlotHit(ends[j])];
        }
        assert ends[..|ends|] == ends;
        AppendBlock(start, i + 1, tools[i], drills, slots);
        Associates(old(output), DrillSection(tools, drills, slots, i), ToolBlock(i + 1, tools[i], drills, slots));
      }
    }

    method PrintFooter()
      modifies this`output
      ensures output == old(output) + Footer
    {
      output := output + [ToolSelect(0)];
      output := output + [Code("M30")];
    }
  }

  /** A new diameter at the end of a tool list. */
  lemma AddTool(tools: seq<PositiveLength>, d: PositiveLength)
    requires Distinct(tools) && d !in tools
    ensures Distinct(tools + [d])
    ensures (set t | t in tools + [d]) == (set t | t in tools) + {d}
  {
    assert multiset(tools + [d]) == multiset(tools) + multiset{d};
    assert multiset(tools)[d] == 0;
  }

  /** What sorting does to the generator's list of distinct tools. */
  lemma SortedToolList(before: seq<PositiveLength>, after: seq<PositiveLength>)
    requires Distinct(before) && after == InsertionSort(before)
    ensures Distinct(after) && (set t | t in after) == (set t | t in before)
    ensures Increasing(after)
    ensures Sorted(before) ==> after == before
  {
    SortingIsIdempotent(before);
    SameTools(before, after);
    SortedDistinctIsIncreasing(after);
  }

  /** A permutation of a tool list holds the same diameters, and still holds each once. */
  lemma SameTools(a: seq<PositiveLength>, b: seq<PositiveLength>)
    requires multiset(a) == multiset(b)
    ensures Distinct(a) ==> Distinct(b)
    ensures (set t | t in a) == (set t | t in b)
  {
    forall t | t in a ensures t in b {
      assert t in multiset(a);
    }
    forall t | t in b ensures t in a {
      assert t in multiset(b);
    }
  }

  lemma KeysAppend<V>(entries: seq<(PositiveLength, V)>, x: (PositiveLength, V))
    ensures Keys(entries + [x]) == Keys(entries) + {x.0}
  {
    var e := entries + [x];
    assert e[|entries|] == x;
    forall k | k in Keys(e) ensures k in Keys(entries) + {x.0} {
      var i :| 0 <= i < |e| && e[i].0 == k;
      if i < |entries| { assert entries[i] == e[i]; }
    }
    forall k | k in Keys(entries) ensures k in Keys(e) {
      var i :| 0 <= i < |entries| && entries[i].0 == k;
      assert e[i] == entries[i];
    }
  }

  /**
   * Generating twice in a row keeps the tool order, so the two files differ at
   * most in the creation-date line, which each call takes from the clock afresh.
   */
  method GenerateTwice(g: ExcellonGenerator, version: string, date1: string, date2: string)
    returns (first: seq<Line>, second: seq<Line>)
    requires g.Valid()
    modifies g
    ensures first == Document(g.tools, g.drills, g.slots, version, date1)
    ensures second == g.output == Document(g.tools, g.drills, g.slots, version, date2)
    ensures |first| == |second| > 3
    ensures first[..3] == second[..3] && first[4..] == second[4..]
    ensures first[3] == Code(";Creation Date: " + date1) && second[3] == Code(";Creation Date: " + date2)
  {
    g.Generate(version, date1);
    first := g.output;
    g.Generate(version, date2);
    second := g.output;
    DocumentDiffersOnlyInDate(g.tools, g.drills, g.slots, version, date1, date2);
  }
}
