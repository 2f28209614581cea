/**
 * What an event block on the timeline shows: how many lines of text fit in
 * the block's height decides whether the title, the summary and the time
 * range appear; absent or empty texts and colours fall back to defaults; the
 * block sits exactly where the event packing placed it.
 */
module EventBlock {
  import opened Wrappers

  /** Height of one line of text in pixels. */
  const TextLineHeight: int := 17
  const EventDefaultColor: string := "#add8e6"
  const DefaultTextColor: string := "#555"
  const DefaultTitle: string := "Event"
  const DefaultSummary: string := " "
  /** Date patterns handed to the date library for the start and end times. */
  const Pattern24h: string := "HH:mm"
  const Pattern12h: string := "hh:mm A"

  /** A calendar event; an absent optional property is `None`. */
  datatype Event = Event(
    id: Option<string>,
    start: string,
    end: string,
    title: Option<string>,
    summary: Option<string>,
    color: Option<string>,
    borderColor: Option<string>,
    textColor: Option<string>)

  /** An event with the position and size the packing gave it. */
  datatype PackedEvent = PackedEvent(base: Event, index: int, left: real, top: real, width: real, height: real)

  /** The props that decide the block's content; an absent `format24h` is `None`. */
  datatype EventBlockProps = EventBlockProps(index: int, event: PackedEvent, format24h: Option<bool>)

  datatype Box = Box(left: real, top: real, width: real, height: real)

  /** A text element: its content, the most lines it may take and its colour. */
  datatype TextLine = TextLine(text: string, numberOfLines: int, color: string)

  /** The time-range element: the event's start and end, each formatted with `pattern`. */
  datatype TimesLine = TimesLine(start: string, end: string, pattern: string, numberOfLines: int, color: string)

  /** Everything the block decides; `borderLeftColor` is `None` when it is `undefined`. */
  datatype BlockContent = BlockContent(
    pressIndex: int,
    box: Box,
    backgroundColor: string,
    borderLeftColor: Option<string>,
    title: TextLine,
    summary: Option<TextLine>,
    times: Option<TimesLine>)

  /** JavaScript truthiness of an optional string: present and not empty. */
  predicate Truthy(s: Option<string>)
    ensures Truthy(s) <==> s.GetOr("") != ""
  {
    s.Some? && s.value != ""
  }

  /**
   * JavaScript `s || fallback` on an optional string: the value when truthy,
   * else the fallback; so a non-empty fallback gives a non-empty text.
   */
  function Or(s: Option<string>, fallback: string): (r: string)
    ensures Truthy(s) ==> r == s.value
    ensures !Truthy(s) ==> r == fallback
    ensures r == "" <==> !Truthy(s) && fallback == ""
  {
    if Truthy(s) then s.value else fallback
  }

  /** The number of text lines that fit: `Math.floor(height / 17)`. */
  function LineBudget(height: real): (n: int)
    ensures n as real * 17.0 <= height < (n + 1) as real * 17.0
  {
    (height / TextLineHeight as real).Floor
  }

  /**
   * The pattern for the start and end times: two-digit hours and minutes,
   * with 24-hour `HH` when `format24h` is truthy, else 12-hour `hh` and an
   * AM/PM marker `A`.
   */
  function TimePattern(format24h: Option<bool>): (r: string)
    ensures 5 <= |r| && r[..5] == (if format24h == Some(true) then "HH:mm" else "hh:mm")
    ensures |r| > 5 <==> format24h != Some(true)
    ensures |r| > 5 ==> r[5..] == " A"
  {
    if format24h.GetOr(false) then Pattern24h else Pattern12h
  }

  /** The background: `color` when truthy, else the default light blue; never empty. */
  function BackgroundColor(e: Event): (r: string)
    ensures r != ""
    ensures Truthy(e.color) ==> r == e.color.value
    ensures !Truthy(e.color) ==> r == "#add8e6"
  {
    Or(e.color, EventDefaultColor)
  }

  /**
   * The left border takes `color` (not `borderColor`) whenever `borderColor`
   * is truthy, so it is undefined when `color` is absent; otherwise it is the
   * default light blue.
   */
  function BorderLeftColor(e: Event): (r: Option<string>)
    ensures !Truthy(e.borderColor) ==> r == Some("#add8e6")
    ensures Truthy(e.borderColor) ==> r == e.color
    ensures r.None? <==> Truthy(e.borderColor) && e.color.None?
  {
    if Truthy(e.borderColor) then e.color else Some(EventDefaultColor)
  }

  /** The colour of every text in the block: `textColor` when truthy, else "#555"; never empty. */
  function TextColor(e: Event): (r: string)
    ensures r != ""
    ensures Truthy(e.textColor) ==> r == e.textColor.value
    ensures !Truthy(e.textColor) ==> r == "#555"
  {
    Or(e.textColor, DefaultTextColor)
  }

  /** The block of `props.event` when no custom `renderEvent` is given. */
  function Render(props: EventBlockProps): (r: BlockContent)
    ensures r.pressIndex == props.index
    ensures r.box == Box(props.event.left, props.event.top, props.event.width, props.event.height)
    ensures r.title.numberOfLines == 1 && r.title.text != ""
    ensures r.summary.Some? <==> props.event.height >= 34.0
    ensures r.times.Some? <==> props.event.height >= 51.0
    ensures r.times.Some? ==> r.summary.Some?
    ensures r.summary.Some? ==> 1 <= r.summary.value.numberOfLines && r.summary.value.text != ""
    ensures r.backgroundColor != ""
  {
    var e := props.event;
    var budget := LineBudget(e.height);
    var color := TextColor(e.base);
    BlockContent(
      props.index,
      Box(e.left, e.top, e.width, e.height),
      BackgroundColor(e.base),
      BorderLeftColor(e.base),
      TextLine(Or(e.base.title, DefaultTitle), 1, color),
      if budget > 1 then Some(TextLine(Or(e.base.summary, DefaultSummary), budget - 1, color)) else None,
      if budget > 2 then Some(TimesLine(e.base.start, e.base.end, TimePattern(props.format24h), 1, color)) else None)
  }

  // ---------------------------------------------------------------------------
  // Properties of the block
  // ---------------------------------------------------------------------------

  /** The budget is the only whole number of lines whose height fits in the block without a full line to spare. */
  lemma LineBudgetUnique(height: real, n: int)
    requires n as real * 17.0 <= height < (n + 1) as real * 17.0
    ensures LineBudget(height) == n
  {
  }

  /** A taller block never has a smaller line budget. */
  lemma LineBudgetMonotone(h1: real, h2: real)
    requires h1 <= h2
    ensures LineBudget(h1) <= LineBudget(h2)
  {
  }

  /** The title is always shown on one line: the event's title when truthy, otherwise "Event". */
  lemma TitleContent(props: EventBlockProps)
    ensures var t := Render(props).title;
      && t.numberOfLines == 1
      && (Truthy(props.event.base.title) ==> t.text == props.event.base.title.value)
      && (!Truthy(props.event.base.title) ==> t.text == "Event")
  {
  }

  /**
   * When shown, the summary may take all lines but the title's: the event's
   * summary when truthy, otherwise a single space.
   */
  lemma SummaryContent(props: EventBlockProps)
    requires Render(props).summary.Some?
    ensures var s := Render(props).summary.value;
      && s.numberOfLines == LineBudget(props.event.height) - 1
      && (Truthy(props.event.base.summary) ==> s.text == props.event.base.summary.value)
      && (!Truthy(props.event.base.summary) ==> s.text == " ")
  {
  }

  /** When shown, the time range formats the event's start and end with "HH:mm" or "hh:mm A". */
  lemma TimesContent(props: EventBlockProps)
    requires Render(props).times.Some?
    ensures var t := Render(props).times.value;
      && t.start == props.event.base.start
      && t.end == props.event.base.end
      && t.numberOfLines == 1
      && t.pattern == (if props.format24h == Some(true) then "HH:mm" else "hh:mm A")
  {
  }

  /** A taller block shows at least what a shorter one shows. */
  lemma TallerShowsMore(props: EventBlockProps, taller: EventBlockProps)
    requires props.event.height <= taller.event.height
    ensures Render(props).summary.Some? ==> Render(taller).summary.Some?
    ensures Render(props).times.Some? ==> Render(taller).times.Some?
    ensures Render(props).summary.Some? ==>
      Render(props).summary.value.numberOfLines <= Render(taller).summary.value.numberOfLines
  {
    LineBudgetMonotone(props.event.height, taller.event.height);
  }

  /**
   * The background is `color` when truthy, otherwise the default light blue;
   * title, summary and times share one text colour, `textColor` when truthy,
   * otherwise "#555".
   */
  lemma Colours(props: EventBlockProps)
    ensures var r, e := Render(props), props.event.base;
      && r.backgroundColor == (if Truthy(e.color) then e.color.value else "#add8e6")
      && r.title.color == (if Truthy(e.textColor) then e.textColor.value else "#555")
      && (r.summary.Some? ==> r.summary.value.color == r.title.color)
      && (r.times.Some? ==> r.times.value.color == r.title.color)
  {
  }

  /**
   * The left border is the default light blue unless `borderColor` is truthy,
   * and then it is `color`, which stays `undefined` when the event has none.
   */
  lemma BorderLeftColorCases(props: EventBlockProps)
    ensures var r, e := Render(props), props.event.base;
      && (!Truthy(e.borderColor) ==> r.borderLeftColor == Some("#add8e6"))
      && (Truthy(e.borderColor) ==> r.borderLeftColor == e.color)
      && (Truthy(e.borderColor) && e.color.None? ==> r.borderLeftColor.None?)
  {
  }

  /** Only whether `borderColor` is truthy matters, never its value. */
  lemma BorderColorValueUnused(props: EventBlockProps, other: Option<string>)
    requires Truthy(other) == Truthy(props.event.base.borderColor)
    ensures Render(props)
         == Render(props.(event := props.event.(base := props.event.base.(borderColor := other))))
  {
  }

  /** Pressing reports the block's own `index` prop; the packed event's `index` and `id` play no part. */
  lemma PressReportsBlockIndex(props: EventBlockProps, index: int, id: Option<string>)
    ensures Render(props).pressIndex == props.index
    ensures Render(props) == Render(props.(event := props.event.(index := index, base := props.event.base.(id := id))))
  {
  }
}
