# Itinerary PDF layout, modelled in Dafny

This project models the layout pass of `generatePDF`, the routine that turns
a travel-itinerary document into a paginated PDF. It reads the document and
draws, top to bottom:

- a branded header: logo, tagline, a 40-strip blue-to-purple gradient banner, greeting and a trip table;
- one block per day, each with a timeline of activities grouped by morning, afternoon and evening;
- a flight list, a hotel table, a payment plan with an installment table, and a visa panel;
- finally, a footer on every page.

One mutable cursor `yPos` tracks where the next block goes. Before a block
of estimated height `h`, `checkPageBreak(h)` starts a new page and resets the
cursor to the top margin 20 when `yPos + h` would pass `pageHeight - 50`.

The model has these parts:

- `Itinerary`: the input document as datatypes. A missing list is empty and a missing object is `None`. Only three texts may be missing: a day's `date`, a flight's `date` and an activity's `description`. The source tests these with `||` or `if`, and a missing one is `""`. Every other text field is a required string.
- `Drawing`: the PDF document as a `Surface` class. It holds the page count, the current page and a log of abstract draw commands, each tagged with its page. `AddPage`, `SetPage` and `Draw` are its only operations.
- `Layout`: the cursor `(y, pages)` as values, with `AfterBreak` for `checkPageBreak` and one function per section saying where that section leaves the cursor.
- `Timeline`: the grouping of a day's activities by type, the commands of a day's timeline, and the timeline's height.
- `Gradient`: the banner's colour interpolation with `Math.round`.
- `Sections`: what each section draws, as command lists, and the log each section leaves given the cursor it starts from.
- `PdfGenerator`: the imperative renderer. The class `Renderer` holds `yPos` and the document, plus a ghost trace of every cursor position. Its invariant says the trace only moves down a page or to the top margin of the next page. One method per section and per callback of the source's `forEach` loops. Each method is proved to move the cursor as `Layout` says and to append to the log exactly what `Sections`, `Timeline` or `Gradient` says. `GeneratePdf` draws the content, then the footer on every page.

## Model

| member | source | states |
|---|---|---|
| Drawing.Surface.constructor | project/server/utils/pdfGenerator.js:6-8 | a new document has one page, which is current, and nothing drawn |
| Drawing.Surface.AddPage | project/server/utils/pdfGenerator.js:14 | appends one page and makes it current; draws nothing |
| Drawing.Surface.SetPage | project/server/utils/pdfGenerator.js:52 | makes an existing page current; page count and drawing unchanged |
| Drawing.Surface.Draw | project/server/utils/pdfGenerator.js:76-77 | the commands are appended in order, each tagged with the current page; every logged page exists |
| Itinerary.NatToString | project/server/utils/pdfGenerator.js:146 | a day number prints as a non-empty string of decimal digits |
| Itinerary.NatToStringValue | project/server/utils/pdfGenerator.js:146 | the printed digits read left to right spell the number, with no leading zero |
| Itinerary.IntToStringValue | project/server/utils/pdfGenerator.js:87 | `days`, `nights`, the number of travellers and a hotel's nights print as their decimal value, with a leading `-` when negative and no leading zero |
| Layout.AfterBreak | project/server/utils/pdfGenerator.js:12-17 | the cursor is unchanged exactly when `y + h <= pageHeight - 50`; otherwise it is at 20 on one page more; a break is a legal cursor step |
| Layout.MonotoneTrace | project/server/utils/pdfGenerator.js:9-17 | along any trace of cursor steps the page count never decreases and grows by at most one per step; on the same page `yPos` never decreases |
| Layout.DayStep | project/server/utils/pdfGenerator.js:229 | a day block advances by exactly `max(70, timeline height + 50)`, i.e. `timelineY - yPos + 15` with `timelineY` starting 35 below the block |
| Layout.AfterDays | project/server/utils/pdfGenerator.js:133-231 | the day blocks only move the cursor forward: onto a later page or further down the same one |
| Layout.AfterRows | project/server/utils/pdfGenerator.js:302-326 | a run of table or list rows only moves the cursor forward |
| Layout.DaysGrowWithoutBreak | project/server/utils/pdfGenerator.js:133-231 | with no page added, n days move the cursor down by at least 70 n |
| Layout.LongDaysBreak | project/server/utils/pdfGenerator.js:133-231 | days whose minimum steps cannot fit above the footer band force a new page |
| Layout.LongItineraryPaginates | project/server/utils/pdfGenerator.js:133-231 | an itinerary too long for the first page yields a document of more than one page |
| Timeline.OfKindKinds | project/server/utils/pdfGenerator.js:161 | every activity in a group has that group's type |
| Timeline.OfKindOrder | project/server/utils/pdfGenerator.js:161 | a group keeps the activities in their input order (a subsequence) |
| Timeline.OfKindCount | project/server/utils/pdfGenerator.js:161 | a group holds each activity of its type exactly as many times as the input does, and nothing else |
| Timeline.OfKindEmpty | project/server/utils/pdfGenerator.js:161-162 | a group is empty exactly when no activity has its type |
| Timeline.BulletsEnd | project/server/utils/pdfGenerator.js:172-180 | the bullets of a group move `timelineY` by 6 per activity and 4 more per description |
| Timeline.OfKindHeights | project/server/utils/pdfGenerator.js:161-226 | the three groups together weigh exactly the activities whose type is morning, afternoon or evening |
| Timeline.TimelineHeightSpec | project/server/utils/pdfGenerator.js:157-227 | a day's timeline ends 6 per grouped activity + 4 per description + 3 after a non-empty morning and after a non-empty afternoon group below its start |
| Timeline.BulletsHaveNoLabel | project/server/utils/pdfGenerator.js:172-180 | bullets draw no group heading |
| Timeline.GroupHeadings | project/server/utils/pdfGenerator.js:162-170 | a group draws its heading once when it has an activity and nothing when it is empty |
| Timeline.TimelineHeadings | project/server/utils/pdfGenerator.js:160-227 | the headings drawn are Morning, Afternoon, Evening in that order, each exactly when the day has an activity of that type |
| Gradient.Interpolate | project/server/utils/pdfGenerator.js:72-75 | the channel is the integer within one half of `a + (b - a) * i / n`, ties rounded up as `Math.round` does |
| Gradient.InterpolateEnds | project/server/utils/pdfGenerator.js:72-75 | strip 0 has the start value; strip n would have the end value |
| Gradient.InterpolateMonotone | project/server/utils/pdfGenerator.js:72-75 | a channel moves only towards its end value, strip after strip |
| Gradient.InterpolateBetween | project/server/utils/pdfGenerator.js:72-75 | a channel stays between its start and end values |
| Gradient.StripColour | project/server/utils/pdfGenerator.js:71-76 | strip 0 is (74,144,226); every strip has r in 74..84, g in 28..144, b in 156..226 |
| Gradient.GradientStripAt | project/server/utils/pdfGenerator.js:71-78 | strip i is its fill colour followed by a 1-high rectangle at `y + i`, for i = 0 .. 39 in order |
| Sections.DayDate | project/server/utils/pdfGenerator.js:151 | a day shows its date, or '27th November' when it has none; never empty |
| Sections.FlightDate | project/server/utils/pdfGenerator.js:256 | a flight shows its date, or "Thu 10 Jan'24" when it has none; never empty |
| Sections.TcsLabel | project/server/utils/pdfGenerator.js:355 | 'Collected' exactly when TCS was collected, else 'Not Collected' |
| Sections.RowTint | project/server/utils/pdfGenerator.js:305-309 | the row is tinted (248,240,255) exactly when its index is even, and white exactly when it is odd |
| Sections.HotelColumnX | project/server/utils/pdfGenerator.js:288-298 | hotel columns stand at x = 25, 55, 85, 115, 135, left to right |
| Sections.HotelHeaderRowCmds | project/server/utils/pdfGenerator.js:288-298 | the header row's five labels stand at the hotel column offsets |
| Sections.RowCmds | project/server/utils/pdfGenerator.js:244-387 | a flight row draws 6 commands, a hotel row 7, an installment row 5 |
| Sections.RowLog | project/server/utils/pdfGenerator.js:302-326 | a row logs as many entries as it has commands, all on the page its own page-break check leaves current |
| Sections.FlightRowTexts | project/server/utils/pdfGenerator.js:254-260 | a flight row shows the date or its placeholder at x 25 and "airline From origin To destination" at x 95, 9 below the row's top |
| Sections.RowsLogLength | project/server/utils/pdfGenerator.js:302-326 | n rows of k commands each log k n entries |
| Sections.RowsLogPrefix | project/server/utils/pdfGenerator.js:302-326 | the log of the first m rows is a prefix of the log of all rows |
| Sections.RowsLogAt | project/server/utils/pdfGenerator.js:302-326 | row i is logged right after rows 0 .. i-1, from where they left the cursor |
| Sections.HotelRowCells | project/server/utils/pdfGenerator.js:305-323 | a hotel row starts with its tint and has its five texts at the hotel column offsets |
| Sections.HotelRowSlice | project/server/utils/pdfGenerator.js:302-326 | hotel row i fills entries 7 i .. 7 i + 6 of the table's log |
| Sections.HotelRowLayout | project/server/utils/pdfGenerator.js:302-326 | in the drawn table, hotel row i's fill is tinted exactly when i is even, and its texts stand at 25, 55, 85, 115, 135 |
| Sections.InstallmentRowsTinted | project/server/utils/pdfGenerator.js:370-387 | in the drawn table, installment row i's fill is tinted exactly when i is even |
| Sections.FooterCmds | project/server/utils/pdfGenerator.js:20-46 | a footer is 8 commands: the separator line and seven texts |
| Sections.FooterOnEveryPage | project/server/utils/pdfGenerator.js:49-55 | the footer pass logs one full footer on each page 1 .. N, page by page in order, and nothing else |
| PdfGenerator.Renderer.constructor | project/server/utils/pdfGenerator.js:6-9 | the cursor is at 20 on page 1 of a new, empty document |
| PdfGenerator.Renderer.Advance | project/server/utils/pdfGenerator.js:62 | `yPos += d` on the same page, kept in the trace |
| PdfGenerator.Renderer.CheckPageBreak | project/server/utils/pdfGenerator.js:12-17 | on overflow, exactly one page is added and `yPos` becomes 20; otherwise nothing changes; nothing is drawn |
| PdfGenerator.Renderer.DrawGradient | project/server/utils/pdfGenerator.js:71-78 | the loop draws the 40 strips of `GradientStrips` on the current page, cursor unmoved |
| PdfGenerator.Renderer.DrawHeader | project/server/utils/pdfGenerator.js:57-130 | page 1 gets the logo, banner and trip table; the cursor ends 6 + 20 + 55 + 35 lower, with no page break |
| PdfGenerator.Renderer.DrawBullet | project/server/utils/pdfGenerator.js:172-179 | one activity's name 6 lower, and its description 4 further when it has one |
| PdfGenerator.Renderer.DrawGroup | project/server/utils/pdfGenerator.js:160-182 | the loop draws one group (or nothing when empty) and leaves `timelineY` where `Timeline.Group` says |
| PdfGenerator.Renderer.DrawTimeline | project/server/utils/pdfGenerator.js:156-227 | draws the three groups in order, each from where the previous ended |
| PdfGenerator.Renderer.DrawDay | project/server/utils/pdfGenerator.js:134-230 | a day block logs its badge and timeline after `checkPageBreak(80)` and moves the cursor by `DayStep` |
| PdfGenerator.Renderer.DrawDays | project/server/utils/pdfGenerator.js:133-231 | the loop draws the days in order, each from where the previous left the cursor |
| PdfGenerator.Renderer.DrawRow | project/server/utils/pdfGenerator.js:302-326 | one row: its page-break check, its commands, its step down |
| PdfGenerator.Renderer.DrawRows | project/server/utils/pdfGenerator.js:244-263 | the loop draws the rows in order, row i with index i, as `RowsLog` says |
| PdfGenerator.Renderer.DrawFlightNote | project/server/utils/pdfGenerator.js:265-268 | the baggage note 5 below the cursor, then +20 |
| PdfGenerator.Renderer.DrawFlights | project/server/utils/pdfGenerator.js:234-269 | the flight section as `FlightsLog` and `AfterFlights` say; nothing at all without flights |
| PdfGenerator.Renderer.DrawHotels | project/server/utils/pdfGenerator.js:272-328 | the hotel section as `HotelsLog` and `AfterHotels` say; nothing at all without hotels |
| PdfGenerator.Renderer.DrawInstallments | project/server/utils/pdfGenerator.js:359-388 | the installment table as `InstallmentsLog` says; nothing without installments |
| PdfGenerator.Renderer.DrawPaymentPanels | project/server/utils/pdfGenerator.js:333-356 | heading, total and TCS panels on the current page; the cursor moves +15, +15, +20 |
| PdfGenerator.Renderer.DrawPayment | project/server/utils/pdfGenerator.js:331-390 | the payment section as `PaymentLog` and `AfterPayment` say; nothing without a plan |
| PdfGenerator.Renderer.DrawVisa | project/server/utils/pdfGenerator.js:393-411 | the visa section as `VisaLog` and `AfterVisa` say; nothing without visa details |
| PdfGenerator.Renderer.DrawContent | project/server/utils/pdfGenerator.js:57-411 | header, days, flights, hotels, payment, visa in that order; the log is `ContentLog` and the cursor `AfterContent` |
| PdfGenerator.Renderer.AddFooter | project/server/utils/pdfGenerator.js:20-46 | one footer on the current page |
| PdfGenerator.Renderer.AddFooterToAllPages | project/server/utils/pdfGenerator.js:49-55 | the loop stamps a footer on pages 1 .. N in order and adds no page |
| PdfGenerator.GeneratePdf | project/server/utils/pdfGenerator.js:3-418 | the document has `AfterContent(...).pages` pages and its log is the content followed by one footer per page |

The renderer methods that move the cursor keep the invariant `Valid()`. It
says every position the cursor has taken forms a trace along which `yPos`
only grows on a page, and resets to 20 only when a page is added.
`Layout.MonotoneTrace` states what follows from that for any two points of
the trace. The drawing helpers `DrawGradient`, `DrawBullet`, `DrawGroup` and
`DrawTimeline` modify only the document: they keep `doc.Valid()` and cannot
move the cursor. `AddFooter` and `AddFooterToAllPages` also modify only the
document, and keep `Valid()`.

## Left out

- Fonts, font sizes, text colours, stroke colours, corner radii, circle radii and text alignment are not recorded. Only fill colours, shapes, positions and texts are.
- x positions computed with fractions of the page width are recorded as `Derived`, without their value: centred text, the trip table's fifth-width columns and the footer's middle column. Fixed integer x positions are exact. Those offset from the page width are exact only for an integer page width, as the page-size line below says.
- `toLocaleString()` is locale dependent, so it is a parameter `formatAmount`.
- The Promise wrapper, the `try`/`catch` with its console message, and the conversion of the document to a byte buffer are not modelled.
- The HTTP server and the browser-side API client are not part of this model.
- Malformed input is excluded by the datatypes. This covers a field of the wrong JSON type, a missing required text and a missing number. A missing `numberOfTravelers`, hotel `nights`, `totalAmount` or installment `amount` makes the source throw in `.toString()` or `.toLocaleString()` (lines 128, 321, 347, 383). Its `catch` then rejects the whole call, which is the routine's only error path. A missing `days`, `nights` or day number would be printed as "undefined" instead (lines 87, 146). Template literals would print a missing text as "undefined", for example in the flight line or the greeting. Direct `doc.text` calls, such as the hotel and installment cells, would hand `undefined` to the PDF library.
- JavaScript's falsy values for a day's or flight's `date` and an activity's `description` (undefined, null, "") are all represented by `""`.
- Numbers are printed as integers. The source prints numbers of 1e21 and above in exponent form, and non-integers with a decimal point; neither is modelled.
- Itinerary.IntToStringValue: the printed digits match the source only for magnitudes up to 2^53. Above that, JSON parsing rounds the value to a double, and JavaScript prints the shortest digits that round-trip, padded with zeros. For example, 2^60 prints as 1152921504606847000, while the model prints 1152921504606846976.
- Gradient.Interpolate: `Math.round` of a floating-point ratio is modelled as exact rounding of the rational value `a + (b - a) * i / 40`. A floating-point error that pushes a value across a half-way point is not modelled.
- Page width and height are integers, while the PDF library's A4 page is about 210.0015 by 297.00008. The page-break test compares an integer cursor with the page height minus 50, so only the whole part of the height matters there. The other page-relative coordinates lose the fraction: widths `pageWidth - 40` and `pageWidth - 80`, footer x `pageWidth - 20` and `pageWidth - 50`, and footer y `pageHeight - 40`. They are exact only relative to an integer page size, and so are the "exact" integer x positions above.
- Nothing is claimed about content staying out of the footer band. The height estimates passed to `checkPageBreak` (80, 60, 20, 12, 100, 40) are heuristic, and a long day timeline or table can run below `pageHeight - 50`.
