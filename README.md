# Timeline hour grid and event blocks

A model of the two pieces of layout logic in the timeline view of a React
Native calendar library:

- **The hour grid** (`TimelineHours`). For every hour from `start` up to, but
  not including, `end` (by default 0 and 24), the component draws a label, a
  full-hour line and three quarter-hour slot lines. Each is placed by its
  vertical offset at 60 pixels per hour. The label is `"<hour>:00"` in 24-hour
  form, or the 12-hour clock number followed by `AM` or `PM`.
- **The event block** (`EventBlock`). The block's height gives the number of
  17-pixel text lines that fit. That number decides whether the summary
  (two lines or more) and the time range (three lines or more) are shown. The
  title is always shown. Absent or empty texts and colours fall back to
  defaults. The block keeps the position and size that the event packing gave
  it, and pressing it reports its `index`.

Both are pure functions of their props, so the model is datatypes, functions
and lemmas:

- `wrappers.dfy`: `Option`, for props that may be `undefined`.
- `js_text.dfy`: JavaScript's `${n}` for an integer, proved against a decimal
  reading of the text, and JavaScript's truncating `%`.
- `timeline_hours.dfy`: lodash `range`, the labels, the grid and its gridlines.
- `event_block.dfy`: the line budget, the shown parts, text and colour
  fallbacks, the block's box and its press index.

Facts about the grid that the model keeps as the code has them:

- Offsets use the absolute hour, `60*hour`.
- Hour `end` gets no label and no line.

A JavaScript value that may be missing or empty is "truthy" here only when it
is `Some` of a non-empty string. The left border takes `event.color` whenever
`event.borderColor` is truthy. The value of `borderColor` is never used, and
the border colour stays `undefined` when the event has no `color`. This is
modelled as written.

## Model

| member | source | states |
|---|---|---|
| JsText.Decimal | src/timeline/TimelineHours.tsx:41 | the decimal text of an hour is non-empty, all digits, with no leading zero |
| JsText.DecimalRoundTrip | src/timeline/TimelineHours.tsx:41 | reading the decimal text back as a number gives the hour |
| JsText.DecimalInjective | src/timeline/TimelineHours.tsx:41 | distinct numbers never share a decimal text |
| JsText.IntText | src/timeline/TimelineHours.tsx:41 | `${hour}` is the decimal text, with a leading minus sign for a negative hour |
| JsText.IntTextInjective | src/timeline/TimelineHours.tsx:41 | distinct integers never share a `${hour}` text |
| JsText.IntTextRoundTrip | src/timeline/TimelineHours.tsx:41 | parsing `${hour}` gives back the hour, negative hours included |
| JsText.JsRem12 | src/timeline/TimelineHours.tsx:41 | `hour % 12` agrees with the mathematical remainder for non-negative hours and takes the sign of a negative hour |
| TimelineHours.Range | src/timeline/TimelineHours.tsx:38 | `range(start, end)` has `abs(end-start)` elements: `start+i` counting up, or `start-i` counting down when `start > end` |
| TimelineHours.Hour12 | src/timeline/TimelineHours.tsx:41 | the clock number (`hour % 12`, or 12 when that is 0) is never 0; from hour 0 up it is `hour mod 12` with 12 for 0, in 1..12; a negative hour gives -11..-1 or 12 |
| TimelineHours.Label | src/timeline/TimelineHours.tsx:41 | a label has at least four characters; the 24-hour one ends in `":00"`; the 12-hour one ends in `" AM"` exactly when the hour is before 12 and in `" PM"` exactly when it is 12 or more, for every integer hour |
| TimelineHours.SlotTops | src/timeline/TimelineHours.tsx:44-51 | an hour other than `end` gets the three slots `60*h+15`, `60*h+30`, `60*h+45`; hour `end` would get none |
| TimelineHours.Entry | src/timeline/TimelineHours.tsx:39-53 | one hour's label and full-hour line share the offset `60*h`; its slots lie strictly between `60*h` and `60*(h+1)` |
| TimelineHours.Grid | src/timeline/TimelineHours.tsx:38-54 | `range(start, end).map(...)` has `abs(end-start)` entries for the hours `start+i` (or `start-i` counting down); no entry is hour `end`, every entry has three slots, and its label and line sit at `60*hour` |
| TimelineHours.RenderHourLinesAndSlots | src/timeline/TimelineHours.tsx:29-38 | without `start` and `end` props the grid has exactly 24 entries, hours 0 to 23 in order, lines at `60*i` |
| TimelineHours.GridAscending | src/timeline/TimelineHours.tsx:38-51 | with `start <= end` the grid is hours `start..end-1` ascending; hour `h` has its label and line at the absolute offset `60*h` and slots at `60*h+15`, `+30`, `+45` |
| TimelineHours.EndNeverListed | src/timeline/TimelineHours.tsx:38-44 | hour `end` never appears, so the `hour !== end` guard always holds and every entry has three slots |
| TimelineHours.AbsentFormatIs12Hour | src/timeline/TimelineHours.tsx:30-41 | an absent `format24h` prop gives the 12-hour labels |
| TimelineHours.Label24 | src/timeline/TimelineHours.tsx:41 | a 24-hour label is `${hour}` followed by `":00"`, and the hour parses back from it |
| TimelineHours.Label12 | src/timeline/TimelineHours.tsx:41 | from hour 0 up, a 12-hour label is the decimal text of the clock number, then `" AM"` before 12 and `" PM"` from 12 |
| TimelineHours.Label12Parts | src/timeline/TimelineHours.tsx:41 | a 12-hour label splits into the clock number's text and a three-character `" AM"`/`" PM"` suffix |
| TimelineHours.LabelExamples | src/timeline/TimelineHours.tsx:41 | 0 is `"0:00"` or `"12 AM"`, 9 is `"9:00"`, 16 is `"16:00"`, 12 is `"12 PM"`, 23 is `"11 PM"` |
| TimelineHours.Labels24Distinct | src/timeline/TimelineHours.tsx:41 | no two hours share a 24-hour label |
| TimelineHours.Labels12DistinctInDay | src/timeline/TimelineHours.tsx:41 | no two hours of a day (0 to 23) share a 12-hour label |
| TimelineHours.GridlinesAreHourLines | src/timeline/TimelineHours.tsx:40-51 | the lines of an ascending grid are, hour by hour, `60*h`, `60*h+15`, `60*h+30`, `60*h+45` |
| TimelineHours.HourLinesSorted | src/timeline/TimelineHours.tsx:40-51 | those offsets, hour by hour, strictly increase, four per hour, within `[60*start, 60*end)` |
| TimelineHours.GridlinesSorted | src/timeline/TimelineHours.tsx:40-51 | the flattened lines (hour line, then its slots, hour by hour) number four per hour, strictly increase and lie in `[60*start, 60*end)` |
| EventBlock.Truthy | src/timeline/EventBlock.tsx:95 | an optional string is truthy exactly when it is present and not `""` |
| EventBlock.Or | src/timeline/EventBlock.tsx:95 | JavaScript's `or` of an optional string and a fallback is the value when truthy, else the fallback, and is empty only when both are |
| EventBlock.TimePattern | src/timeline/EventBlock.tsx:75 | the pattern starts with `HH:mm` when `format24h` is true and with `hh:mm` otherwise; only the 12-hour one adds the `" A"` marker |
| EventBlock.BackgroundColor | src/timeline/EventBlock.tsx:47 | the background is `color` when truthy, else `#add8e6`, and is never empty |
| EventBlock.BorderLeftColor | src/timeline/EventBlock.tsx:44 | the left border is `#add8e6` unless `borderColor` is truthy, and then it is `color`; it is undefined exactly when `borderColor` is truthy and `color` is absent |
| EventBlock.TextColor | src/timeline/EventBlock.tsx:61-70 | the text colour is `textColor` when truthy, else `#555`, and is never empty |
| EventBlock.LineBudget | src/timeline/EventBlock.tsx:74 | the budget `n` is the number of whole 17-pixel lines that fit: `17n <= height < 17(n+1)` |
| EventBlock.LineBudgetUnique | src/timeline/EventBlock.tsx:74 | any `n` with `17n <= height < 17(n+1)` is the budget |
| EventBlock.LineBudgetMonotone | src/timeline/EventBlock.tsx:74 | a taller block never has a smaller budget |
| EventBlock.Render | src/timeline/EventBlock.tsx:36-111 | press reports the `index` prop; the box is the packed geometry unchanged; the title is one non-empty line; the summary is shown iff height >= 34 and the times iff height >= 51, so times imply summary; the background is never empty |
| EventBlock.TitleContent | src/timeline/EventBlock.tsx:94-95 | the title is one line: the event title when truthy, otherwise `"Event"` |
| EventBlock.SummaryContent | src/timeline/EventBlock.tsx:97-101 | a shown summary may take `budget-1` lines and is the event summary when truthy, otherwise `" "` |
| EventBlock.TimesContent | src/timeline/EventBlock.tsx:102-106 | a shown time range is one line, formats the event's own start and end, with `"HH:mm"` in 24-hour mode and `"hh:mm A"` otherwise |
| EventBlock.TallerShowsMore | src/timeline/EventBlock.tsx:97-106 | a taller block shows every part a shorter one shows, with at least as many summary lines |
| EventBlock.Colours | src/timeline/EventBlock.tsx:47-70 | background is `color` when truthy, else `#add8e6`; title, summary and times share `textColor` when truthy, else `#555` |
| EventBlock.BorderLeftColorCases | src/timeline/EventBlock.tsx:44 | the left border is `#add8e6` unless `borderColor` is truthy, and then it is `color`, which stays undefined if absent |
| EventBlock.BorderColorValueUnused | src/timeline/EventBlock.tsx:44 | changing `borderColor` to another value of the same truthiness changes nothing in the block |
| EventBlock.PressReportsBlockIndex | src/timeline/EventBlock.tsx:84-86 | pressing reports the block's `index` prop; the packed event's `index` and `id` do not affect the block |

## Left out

- Rendering and styling are not modelled: the style sheets, font sizes, paddings, shadows, the `'75%'` slot width and the `paddingTop: 20` wrapper. They are presentation only.
- The hooks (`useMemo`, `useCallback`, `React.memo`) are not modelled. They only cache values and do not change any output.
- The date text of the time range is not modelled, because it comes from the XDate library. The model keeps the source strings and the chosen pattern.
- The `renderEvent` override and the `onPress` callback are not modelled, because both are caller code. The model keeps only the index that a press reports.
- The event packing that computes `left`, `top`, `width` and `height`, and the unavailable-hours overlays, are not modelled. Both live in `./Packer`, and `./Packer` is not part of this model.
- Some props are declared but never read by the grid code: `date`, the long-press callbacks, `unavailableHours`, `unavailableHoursColor`, `width`, `numberOfDays`, `timelineLeftInset` and `testID`. They are not modelled.
- JsText.IntText: hours are taken to be safe integers (magnitude at most 2^53). From 1e21 up JavaScript writes a number in exponent form (`"1e+21"`), which the model does not.
- TimelineHours.Range: hours are taken to be safe integers (magnitude at most 2^53). Beyond that, lodash's `start += step` rounds back and repeats a value, which the model does not.
- Hours are integers only. A fractional `start` or `end`, which lodash `range` would step through, is not modelled.
- The block geometry is `real`. NaN, infinities and `-0` are not modelled.
