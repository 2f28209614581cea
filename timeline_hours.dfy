/**
 * The hour grid of a timeline day column: for every hour in the configured
 * range, a label, a full-hour line and three quarter-hour slot lines, each
 * placed by its vertical offset in pixels (60 pixels per hour).
 */
module TimelineHours {
  import opened Wrappers
  import opened JsText

  /** Height of one hour in pixels. */
  const HourBlockHeight: int := 60
  /** Hour range used when the `start` and `end` props are absent. */
  const DefaultStart: int := 0
  const DefaultEnd: int := 24

  /** The props that decide the grid; an absent prop is `None`. */
  datatype TimelineHoursProps = TimelineHoursProps(start: Option<int>, end: Option<int>, format24h: Option<bool>)

  /** What is drawn for one hour: its label, its full-hour line and its quarter slots. */
  datatype HourEntry = HourEntry(hour: int, labelText: string, labelTop: int, lineTop: int, slotTops: seq<int>)

  /**
   * lodash `range(start, end)` without a step: counts up by one when
   * `start < end`, down by one when `start > end`, and never reaches `end`.
   */
  function Range(start: int, end: int): (r: seq<int>)
    ensures |r| == if start <= end then end - start else start - end
    ensures forall i :: 0 <= i < |r| ==> r[i] == if start <= end then start + i else start - i
    decreases if start <= end then end - start else start - end
  {
    if start == end then []
    else if start < end then [start] + Range(start + 1, end)
    else [start] + Range(start - 1, end)
  }

  /**
   * The 12-hour clock number shown for `hour`: `hour % 12 || 12`. It is never
   * 0; for an hour from 0 up it is `hour mod 12` with 12 in place of 0.
   */
  function Hour12(hour: int): (r: int)
    ensures r != 0
    ensures hour >= 0 ==> 1 <= r <= 12 && r % 12 == hour % 12
    ensures hour >= 0 ==> r == (if hour % 12 == 0 then 12 else hour % 12)
    ensures hour < 0 ==> -11 <= r <= -1 || r == 12
  {
    var rem := JsRem12(hour);
    if rem == 0 then 12 else rem
  }

  /**
   * The label text of `hour`: in 24-hour form it ends in ":00"; in 12-hour
   * form it ends in " AM" exactly when the hour is before 12, else in " PM".
   */
  function Label(hour: int, format24h: bool): (r: string)
    ensures 4 <= |r|
    ensures format24h ==> r[|r| - 3..] == ":00"
    ensures !format24h ==> (r[|r| - 3..] == " AM" <==> hour < 12)
    ensures !format24h ==> (r[|r| - 3..] == " PM" <==> hour >= 12)
  {
    if format24h then IntText(hour) + ":00"
    else
      var suffix := " " + (if hour < 12 then "AM" else "PM");
      var text := IntText(Hour12(hour)) + suffix;
      EndsWith(IntText(Hour12(hour)), suffix);
      assert " AM"[1] != " PM"[1];
      text
  }

  /** The last `|q|` characters of `p + q` are `q`. */
  lemma EndsWith(p: string, q: string)
    ensures (p + q)[|p + q| - |q|..] == q
  {
  }

  /**
   * The quarter-slot offsets of `hour`, `range(1, 4)` scaled by a quarter
   * hour: 15, 30 and 45 pixels below its line; none when `hour` is `end`.
   */
  function SlotTops(hour: int, end: int): (r: seq<int>)
    ensures hour != end ==> r == [60 * hour + 15, 60 * hour + 30, 60 * hour + 45]
    ensures hour == end ==> r == []
  {
    if hour != end then
      var divisions := Range(1, 4);
      assert divisions == [1, 2, 3];
      seq(|divisions|, k requires 0 <= k < |divisions| =>
        HourBlockHeight * hour + (HourBlockHeight / 4) * divisions[k])
    else []
  }

  /**
   * What is drawn for one hour: the label and the full-hour line share the
   * offset of the absolute hour, and every slot lies strictly inside the hour.
   */
  function Entry(hour: int, end: int, format24h: bool): (r: HourEntry)
    ensures r.hour == hour && r.labelText == Label(hour, format24h)
    ensures r.labelTop == r.lineTop == 60 * hour
    ensures |r.slotTops| == (if hour != end then 3 else 0)
    ensures forall k :: 0 <= k < |r.slotTops| ==> r.lineTop < r.slotTops[k] < r.lineTop + 60
  {
    HourEntry(hour, Label(hour, format24h), HourBlockHeight * hour, HourBlockHeight * hour, SlotTops(hour, end))
  }

  /**
   * `range(start, end).map(...)`: one entry per hour, counting from `start`
   * toward `end` and never reaching it, so every entry has its three slots.
   */
  function Grid(start: int, end: int, format24h: bool): (r: seq<HourEntry>)
    ensures |r| == if start <= end then end - start else start - end
    ensures forall i :: 0 <= i < |r| ==> r[i].hour == if start <= end then start + i else start - i
    ensures forall i :: 0 <= i < |r| ==> r[i].hour != end && |r[i].slotTops| == 3
    ensures forall i :: 0 <= i < |r| ==> r[i].labelTop == r[i].lineTop == 60 * r[i].hour
    ensures forall i :: 0 <= i < |r| ==> r[i] == Entry(r[i].hour, end, format24h)
  {
    var hours := Range(start, end);
    seq(|hours|, i requires 0 <= i < |hours| => Entry(hours[i], end, format24h))
  }

  /**
   * The grid of a component instance, after the prop defaults are applied:
   * without `start` and `end` it has 24 entries, the hours 0 to 23 in order.
   */
  function RenderHourLinesAndSlots(props: TimelineHoursProps): (r: seq<HourEntry>)
    ensures props.start.None? && props.end.None? ==>
      |r| == 24 && forall i :: 0 <= i < 24 ==> r[i].hour == i && r[i].lineTop == 60 * i
  {
    Grid(props.start.GetOr(DefaultStart), props.end.GetOr(DefaultEnd), props.format24h.GetOr(false))
  }

  /** All horizontal lines of a grid, top to bottom per hour: the full-hour line, then its slots. */
  function Gridlines(grid: seq<HourEntry>): seq<int> {
    if grid == [] then [] else [grid[0].lineTop] + grid[0].slotTops + Gridlines(grid[1..])
  }

  predicate StrictlyIncreasing(s: seq<int>) {
    forall i, j :: 0 <= i < j < |s| ==> s[i] < s[j]
  }

  // ---------------------------------------------------------------------------
  // Properties of the grid
  // ---------------------------------------------------------------------------

  /**
   * With `start <= end` the grid lists the hours `start .. end-1` in ascending
   * order; hour `h` has its label and its full-hour line at the absolute offset
   * `60*h` and its three slots at `60*h + 15`, `+30`, `+45`.
   */
  lemma GridAscending(start: int, end: int, format24h: bool)
    requires start <= end
    ensures var g := Grid(start, end, format24h);
      && |g| == end - start
      && forall i :: 0 <= i < |g| ==>
        var h := start + i;
        && g[i].hour == h
        && g[i].labelText == Label(h, format24h)
        && g[i].labelTop == 60 * h
        && g[i].lineTop == 60 * h
        && g[i].slotTops == [60 * h + 15, 60 * h + 30, 60 * h + 45]
  {
    var g := Grid(start, end, format24h);
    forall i | 0 <= i < |g|
      ensures g[i] == Entry(start + i, end, format24h)
    {
    }
  }

  /**
   * Hour `end` never appears in the grid, so the `hour !== end` guard on the
   * quarter slots always holds: every entry has exactly three slots.
   */
  lemma EndNeverListed(start: int, end: int, format24h: bool)
    ensures forall e :: e in Grid(start, end, format24h) ==> e.hour != end && |e.slotTops| == 3
  {
    var g := Grid(start, end, format24h);
    forall e | e in g
      ensures e.hour != end && |e.slotTops| == 3
    {
      var i :| 0 <= i < |g| && g[i] == e;
    }
  }

  /** An absent `format24h` prop is falsy: the labels are in 12-hour form. */
  lemma AbsentFormatIs12Hour(start: Option<int>, end: Option<int>)
    ensures RenderHourLinesAndSlots(TimelineHoursProps(start, end, None))
         == RenderHourLinesAndSlots(TimelineHoursProps(start, end, Some(false)))
  {
  }

  // ---------------------------------------------------------------------------
  // Properties of the labels
  // ---------------------------------------------------------------------------

  /** In 24-hour form the label is the hour's decimal text followed by ":00", and the hour can be read back from it. */
  lemma Label24(hour: int)
    ensures var l := Label(hour, true);
      && 4 <= |l|
      && l[|l| - 3..] == ":00"
      && l[..|l| - 3] == IntText(hour)
      && (hour >= 0 ==> l == Decimal(hour) + ":00")
      && ParseInt(l[..|l| - 3]) == hour
  {
    var l := Label(hour, true);
    assert l[..|l| - 3] == IntText(hour);
    IntTextRoundTrip(hour);
  }

  /**
   * In 12-hour form the label of a non-negative hour is the decimal text of
   * its 12-hour number, then " AM" before noon and " PM" from noon on.
   */
  lemma Label12(hour: int)
    requires hour >= 0
    ensures Label(hour, false) == Decimal(Hour12(hour)) + (if hour < 12 then " AM" else " PM")
  {
  }

  /** Labels of midnight, morning, afternoon, noon and evening. */
  lemma LabelExamples()
    ensures Label(0, true) == "0:00"
    ensures Label(9, true) == "9:00"
    ensures Label(16, true) == "16:00"
    ensures Label(0, false) == "12 AM"
    ensures Label(12, false) == "12 PM"
    ensures Label(23, false) == "11 PM"
  {
  }

  /** Distinct hours have distinct 24-hour labels. */
  lemma Labels24Distinct(h1: int, h2: int)
    requires h1 != h2
    ensures Label(h1, true) != Label(h2, true)
  {
    if Label(h1, true) == Label(h2, true) {
      Label24(h1);
      Label24(h2);
      IntTextInjective(h1, h2);
      assert false;
    }
  }

  /** A 12-hour label splits into the clock number's text and a three-character " AM" or " PM". */
  lemma Label12Parts(hour: int)
    requires hour >= 0
    ensures var l := Label(hour, false);
      && 4 <= |l|
      && l[..|l| - 3] == Decimal(Hour12(hour))
      && l[|l| - 3..] == (if hour < 12 then " AM" else " PM")
  {
    Label12(hour);
  }

  /** Within a day, the hour is recovered from its half of the day and its 12-hour number. */
  lemma DayHourFromClock(hour: int)
    requires 0 <= hour < 24
    ensures hour == (if hour < 12 then 0 else 12) + Hour12(hour) % 12
  {
  }

  /** Within one day (hours 0 to 23) no two hours share a 12-hour label. */
  lemma Labels12DistinctInDay(h1: int, h2: int)
    requires 0 <= h1 < 24 && 0 <= h2 < 24 && h1 != h2
    ensures Label(h1, false) != Label(h2, false)
  {
    if Label(h1, false) == Label(h2, false) {
      Label12Parts(h1);
      Label12Parts(h2);
      assert (h1 < 12) == (h2 < 12);
      DecimalInjective(Hour12(h1), Hour12(h2));
      DayHourFromClock(h1);
      DayHourFromClock(h2);
      assert false;
    }
  }

  // ---------------------------------------------------------------------------
  // Properties of the gridlines
  // ---------------------------------------------------------------------------

  /** An ascending grid is its first hour's entry followed by the grid of the remaining hours. */
  lemma GridStep(start: int, end: int, format24h: bool)
    requires start < end
    ensures Grid(start, end, format24h) == [Entry(start, end, format24h)] + Grid(start + 1, end, format24h)
  {
    var g, rest := Grid(start, end, format24h), Grid(start + 1, end, format24h);
    assert |g| == |rest| + 1;
    forall i | 1 <= i < |g|
      ensures g[i] == rest[i - 1]
    {
    }
  }

  /** The lines of an ascending grid begin with the first hour's line and its three slots. */
  lemma GridlinesStep(start: int, end: int, format24h: bool)
    requires start < end
    ensures Gridlines(Grid(start, end, format24h))
         == [60 * start, 60 * start + 15, 60 * start + 30, 60 * start + 45] + Gridlines(Grid(start + 1, end, format24h))
  {
    var g := Grid(start, end, format24h);
    GridStep(start, end, format24h);
    assert g[1..] == Grid(start + 1, end, format24h);
  }

  /** Two increasing runs, the first wholly below the second, join into one increasing run. */
  lemma JoinIncreasing(a: seq<int>, b: seq<int>, bound: int)
    requires StrictlyIncreasing(a) && StrictlyIncreasing(b)
    requires forall i :: 0 <= i < |a| ==> a[i] < bound
    requires forall j :: 0 <= j < |b| ==> bound <= b[j]
    ensures StrictlyIncreasing(a + b)
  {
    var c := a + b;
    forall i, j | 0 <= i < j < |c|
      ensures c[i] < c[j]
    {
      if j >= |a| {
        assert c[j] == b[j - |a|];
        if i >= |a| {
          assert c[i] == b[i - |a|];
        }
      }
    }
  }

  /** Joining a run within `[lo, mid)` and one within `[mid, hi)` gives a run within `[lo, hi)`. */
  lemma JoinBounds(a: seq<int>, b: seq<int>, lo: int, mid: int, hi: int)
    requires lo <= mid <= hi
    requires forall i :: 0 <= i < |a| ==> lo <= a[i] < mid
    requires forall j :: 0 <= j < |b| ==> mid <= b[j] < hi
    ensures forall i :: 0 <= i < |a + b| ==> lo <= (a + b)[i] < hi
  {
    forall i | 0 <= i < |a + b|
      ensures lo <= (a + b)[i] < hi
    {
      if i < |a| {
        assert (a + b)[i] == a[i];
      } else {
        assert (a + b)[i] == b[i - |a|];
      }
    }
  }

  /** The lines hour by hour from `start` up to `end`, written directly from the offsets. */
  function HourLines(start: int, end: int): seq<int>
    decreases end - start
  {
    if start >= end then []
    else [60 * start, 60 * start + 15, 60 * start + 30, 60 * start + 45] + HourLines(start + 1, end)
  }

  /** The gridlines of an ascending grid are exactly HourLines. */
  lemma {:induction false} GridlinesAreHourLines(start: int, end: int, format24h: bool)
    requires start <= end
    ensures Gridlines(Grid(start, end, format24h)) == HourLines(start, end)
    decreases end - start
  {
    if start == end {
      assert Grid(start, end, format24h) == [];
    } else {
      GridlinesAreHourLines(start + 1, end, format24h);
      GridlinesStep(start, end, format24h);
    }
  }

  /** HourLines has four lines per hour, strictly increasing, within `[60*start, 60*end)`. */
  lemma {:induction false} HourLinesSorted(start: int, end: int)
    requires start <= end
    ensures |HourLines(start, end)| == 4 * (end - start)
    ensures StrictlyIncreasing(HourLines(start, end))
    ensures forall i :: 0 <= i < |HourLines(start, end)| ==> 60 * start <= HourLines(start, end)[i] < 60 * end
    decreases end - start
  {
    if start < end {
      HourLinesSorted(start + 1, end);
      var head := [60 * start, 60 * start + 15, 60 * start + 30, 60 * start + 45];
      var rest := HourLines(start + 1, end);
      JoinIncreasing(head, rest, 60 * (start + 1));
      JoinBounds(head, rest, 60 * start, 60 * (start + 1), 60 * end);
    }
  }

  /**
   * The flattened gridlines of an ascending grid (full-hour line, then its
   * three slots, hour by hour) number four per hour, strictly increase and
   * lie in `[60*start, 60*end)`.
   */
  lemma GridlinesSorted(start: int, end: int, format24h: bool)
    requires start <= end
    ensures var lines := Gridlines(Grid(start, end, format24h));
      && |lines| == 4 * (end - start)
      && StrictlyIncreasing(lines)
      && forall i :: 0 <= i < |lines| ==> 60 * start <= lines[i] < 60 * end
  {
    GridlinesAreHourLines(start, end, format24h);
    HourLinesSorted(start, end);
  }
}
