/** The vertical cursor `yPos` and the page count, and how each section of
    the document moves them (pdfGenerator.js lines 9-17 and 57-411). Only
    whole numbers are ever added to the cursor, so the arithmetic is exact. */
module Layout {
  import opened Itinerary
  import Timeline
  import Gradient

  /** The cursor on a fresh page. */
  const TopMargin := 20
  /** The band at the bottom of each page kept free for the footer. */
  const BottomReserve := 50

  datatype Cursor = Cursor(y: int, pages: nat)

  /** The first page, cursor at the top margin. */
  const Start := Cursor(TopMargin, 1)

  /** A block of height `h` drawn at `y` would reach into the footer band. */
  predicate Overflows(y: int, h: int, pageHeight: int)
  {
    y + h > pageHeight - BottomReserve
  }

  /** One move of the cursor: down (or not at all) on the same page, or to
      the top margin of a new page. */
  predicate Step(a: Cursor, b: Cursor)
  {
    (b.pages == a.pages && b.y >= a.y) || (b.pages == a.pages + 1 && b.y == TopMargin)
  }

  /** `b` is reached from `a` by moving forward: on a later page, or further
      down the same page. */
  predicate Later(a: Cursor, b: Cursor)
  {
    b.pages > a.pages || (b.pages == a.pages && b.y >= a.y)
  }

  /** Every move along the trace is a `Step`. */
  predicate Monotone(t: seq<Cursor>)
  {
    forall i | 0 < i < |t| :: Step(t[i - 1], t[i])
  }

  /** Along a trace of steps the page count never decreases, grows by at most
      one per step, and the cursor only goes up when the page changes. */
  lemma {:induction false} MonotoneTrace(t: seq<Cursor>, i: nat, j: nat)
    requires Monotone(t) && i <= j < |t|
    ensures Later(t[i], t[j])
    ensures t[j].pages <= t[i].pages + (j - i)
    decreases j
  {
    if i < j {
      MonotoneTrace(t, i, j - 1);
      assert Step(t[j - 1], t[j]);
    }
  }

  /** `checkPageBreak(h)`. */
  function AfterBreak(c: Cursor, h: int, pageHeight: int): (r: Cursor)
    ensures Step(c, r)
    ensures r == c <==> !Overflows(c.y, h, pageHeight)
    ensures !Overflows(r.y, h, pageHeight) || r == Cursor(TopMargin, c.pages + 1)
  {
    if Overflows(c.y, h, pageHeight) then Cursor(TopMargin, c.pages + 1) else c
  }

  /** `yPos += d`. */
  function Down(c: Cursor, d: nat): (r: Cursor)
  {
    Cursor(c.y + d, c.pages)
  }

  function Max(a: int, b: int): int
  {
    if a >= b then a else b
  }

  /** How far a day block moves the cursor: `Math.max(70, timelineY - yPos + 15)`
      with the timeline starting 35 below the block's top. */
  function DayStep(acts: seq<Activity>): (step: nat)
    ensures step >= 70 && step >= Timeline.TimelineHeight(acts) + 50
    ensures step == 70 || step == Timeline.TimelineHeight(acts) + 50
  {
    Max(70, Timeline.TimelineHeight(acts) + 50)
  }

  /** One day: `checkPageBreak(80)`, then the day's step. */
  function AfterDay(c: Cursor, day: DayPlan, pageHeight: int): Cursor
  {
    Down(AfterBreak(c, 80, pageHeight), DayStep(day.activities))
  }

  function AfterDays(c: Cursor, days: seq<DayPlan>, pageHeight: int): (r: Cursor)
    ensures Later(c, r)
    decreases |days|
  {
    if days == [] then c
    else AfterDay(AfterDays(c, days[..|days| - 1], pageHeight), days[|days| - 1], pageHeight)
  }

  /** A row of the flight list, the hotel table or the installment table. */
  datatype Row = FlightRow(flight: Flight) | HotelRow(hotel: Hotel) | InstallmentRow(installment: Installment)

  /** The height checked before a row: 20 for a flight, 12 for a table row. */
  function RowBreak(row: Row): int
  {
    if row.FlightRow? then 20 else 12
  }

  /** The cursor step after a row: 18 for a flight, 10 for a table row. */
  function RowStep(row: Row): nat
  {
    if row.FlightRow? then 18 else 10
  }

  function AfterRow(c: Cursor, row: Row, pageHeight: int): Cursor
  {
    Down(AfterBreak(c, RowBreak(row), pageHeight), RowStep(row))
  }

  function AfterRows(c: Cursor, rows: seq<Row>, pageHeight: int): (r: Cursor)
    ensures Later(c, r)
    decreases |rows|
  {
    if rows == [] then c
    else AfterRow(AfterRows(c, rows[..|rows| - 1], pageHeight), rows[|rows| - 1], pageHeight)
  }

  function FlightRows(flights: seq<Flight>): seq<Row>
  {
    seq(|flights|, i requires 0 <= i < |flights| => FlightRow(flights[i]))
  }

  function HotelRows(hotels: seq<Hotel>): seq<Row>
  {
    seq(|hotels|, i requires 0 <= i < |hotels| => HotelRow(hotels[i]))
  }

  function InstallmentRows(installments: seq<Installment>): seq<Row>
  {
    seq(|installments|, i requires 0 <= i < |installments| => InstallmentRow(installments[i]))
  }

  /** Logo (+6), tagline (+20), banner (+40 +15) and trip table (+35); no
      page-break check is made before any of them. */
  function AfterHeader(c: Cursor): Cursor
  {
    Down(Down(Down(Down(c, 6), 20), Gradient.Strips + 15), 35)
  }

  /** The flight section: `checkPageBreak(60)`, heading (+15), one row per
      flight, the baggage note (+20); nothing when there is no flight. */
  function AfterFlights(c: Cursor, flights: seq<Flight>, pageHeight: int): Cursor
  {
    if flights == [] then c
    else Down(AfterRows(Down(AfterBreak(c, 60, pageHeight), 15), FlightRows(flights), pageHeight), 20)
  }

  /** The hotel section: `checkPageBreak(80)`, heading (+15), header row (+10),
      one row per hotel, then +15; nothing when there is no hotel. */
  function AfterHotels(c: Cursor, hotels: seq<Hotel>, pageHeight: int): Cursor
  {
    if hotels == [] then c
    else Down(AfterRows(Down(Down(AfterBreak(c, 80, pageHeight), 15), 10), HotelRows(hotels), pageHeight), 15)
  }

  /** The installment table, when there are installments: +10 for its
      header row, then one row each. */
  function AfterInstallments(c: Cursor, installments: seq<Installment>, pageHeight: int): Cursor
  {
    if installments == [] then c
    else AfterRows(Down(c, 10), InstallmentRows(installments), pageHeight)
  }

  /** The payment section: `checkPageBreak(100)`, heading (+15), total (+15),
      TCS (+20), the installment table, then +15. */
  function AfterPayment(c: Cursor, plan: Option<PaymentPlan>, pageHeight: int): Cursor
  {
    match plan
    case None => c
    case Some(p) =>
      var panels := Down(Down(Down(AfterBreak(c, 100, pageHeight), 15), 15), 20);
      Down(AfterInstallments(panels, p.installments, pageHeight), 15)
  }

  /** The visa section: `checkPageBreak(40)`, heading (+15), panel (+35). */
  function AfterVisa(c: Cursor, visa: Option<VisaDetails>, pageHeight: int): Cursor
  {
    if visa.None? then c else Down(Down(AfterBreak(c, 40, pageHeight), 15), 35)
  }

  /** The cursor after all sections, before the footer pass. */
  function AfterContent(doc: Document, pageHeight: int): Cursor
  {
    var header := AfterHeader(Start);
    var days := AfterDays(header, doc.dailyItinerary, pageHeight);
    var flights := AfterFlights(days, doc.flights, pageHeight);
    var hotels := AfterHotels(flights, doc.hotels, pageHeight);
    var payment := AfterPayment(hotels, doc.paymentPlan, pageHeight);
    AfterVisa(payment, doc.visaDetails, pageHeight)
  }

  /** While no page is added, every day moves the cursor down by at least 70. */
  lemma {:induction false} DaysGrowWithoutBreak(c: Cursor, days: seq<DayPlan>, pageHeight: int)
    ensures AfterDays(c, days, pageHeight).pages == c.pages ==> AfterDays(c, days, pageHeight).y >= c.y + 70 * |days|
    decreases |days|
  {
    if days != [] {
      DaysGrowWithoutBreak(c, days[..|days| - 1], pageHeight);
    }
  }

  /** Days whose minimum steps cannot fit below `c` force a new page. */
  lemma {:induction false} LongDaysBreak(c: Cursor, days: seq<DayPlan>, pageHeight: int)
    requires |days| > 0 && Overflows(c.y + 70 * (|days| - 1), 80, pageHeight)
    ensures AfterDays(c, days, pageHeight).pages > c.pages
  {
    var init := days[..|days| - 1];
    DaysGrowWithoutBreak(c, init, pageHeight);
  }

  /** A daily itinerary too long for the first page makes the document span
      more than one page. */
  lemma LongItineraryPaginates(doc: Document, pageHeight: int)
    requires |doc.dailyItinerary| > 0
    requires Overflows(AfterHeader(Start).y + 70 * (|doc.dailyItinerary| - 1), 80, pageHeight)
    ensures AfterContent(doc, pageHeight).pages > 1
  {
    var header := AfterHeader(Start);
    LongDaysBreak(header, doc.dailyItinerary, pageHeight);
    var days := AfterDays(header, doc.dailyItinerary, pageHeight);
    var flights := AfterFlights(days, doc.flights, pageHeight);
    var hotels := AfterHotels(flights, doc.hotels, pageHeight);
    var payment := AfterPayment(hotels, doc.paymentPlan, pageHeight);
    assert Later(days, flights);
    assert Later(flights, hotels);
    assert Later(hotels, payment);
  }
}
