/** What each section of the itinerary draws (pdfGenerator.js lines 19-411),
    as lists of commands for a block whose top is at `y`, and the log each
    section leaves, page by page, given the cursor it starts from. */
module Sections {
  import opened Itinerary
  import opened Drawing
  import opened Layout
  import Timeline
  import Gradient

  // ---- Text chosen by small rules ----

  const PlaceholderDayDate := "27th November"
  const PlaceholderFlightDate := "Thu 10 Jan'24"

  /** `day.date || '27th November'`. */
  function DayDate(date: string): (shown: string)
    ensures shown != ""
    ensures date != "" ==> shown == date
    ensures date == "" ==> shown == PlaceholderDayDate
  {
    if date != "" then date else PlaceholderDayDate
  }

  /** `flight.date || 'Thu 10 Jan\'24'`. */
  function FlightDate(date: string): (shown: string)
    ensures shown != ""
    ensures date != "" ==> shown == date
    ensures date == "" ==> shown == PlaceholderFlightDate
  {
    if date != "" then date else PlaceholderFlightDate
  }

  /** The TCS panel's value. */
  function TcsLabel(collected: bool): (shown: string)
    ensures shown == "Collected" <==> collected
    ensures !collected ==> shown == "Not Collected"
  {
    if collected then "Collected" else "Not Collected"
  }

  /** Background of data row `index` of the hotel and installment tables. */
  function RowTint(index: nat): (c: Rgb)
    ensures c == RowTinted <==> index % 2 == 0
    ensures c == White <==> index % 2 == 1
  {
    if index % 2 == 0 then RowTinted else White
  }

  const HotelColumnWidths: seq<int> := [30, 30, 30, 20, 60]

  /** x of hotel column `j`: `xPos` starts at 25 and grows by each column's width. */
  function HotelColumnX(j: nat): (x: int)
    requires j < 5
    ensures x == [25, 55, 85, 115, 135][j]
    ensures j > 0 ==> x > HotelColumnX(j - 1)
    decreases j
  {
    if j == 0 then 25 else HotelColumnX(j - 1) + HotelColumnWidths[j - 1]
  }

  // ---- Header: logo, banner and trip table (lines 57-130) ----

  function BrandingCmds(y: int): seq<Cmd>
  {
    [Text("vigovia", Derived, y), Text("PLAN.PACK.GO", Derived, y + 6)]
  }

  function BannerTextCmds(trip: TripDetails, y: int): seq<Cmd>
  {
    var iconY := y + 37;
    [ Text("Hi, " + trip.customerName + "!", Derived, y + 12),
      Text(trip.destination + " Itinerary", Derived, y + 22),
      Text(IntToString(trip.days) + " Days " + IntToString(trip.nights) + " Nights", Derived, y + 30),
      Text("\U{2708}", Derived, iconY),
      Text("\U{1F3E8}", Derived, iconY),
      Text("\U{23F0}", Derived, iconY),
      Text("\U{1F697}", Derived, iconY),
      Text("\U{1F4C5}", Derived, iconY) ]
  }

  function TripTableCmds(trip: TripDetails, y: int, pageWidth: int): seq<Cmd>
  {
    [ Fill(LightGrey),
      Panel(20, y, pageWidth - 40, 20),
      Outline(20, y, pageWidth - 40, 20),
      Text("Departure From", At(25), y + 6),
      Text("Departure", Derived, y + 6),
      Text("Arrival", Derived, y + 6),
      Text("Destination", Derived, y + 6),
      Text("No. Of Travellers", Derived, y + 6),
      Text(trip.departureFrom, At(25), y + 14),
      Text(trip.departureDate, Derived, y + 14),
      Text(trip.arrivalDate, Derived, y + 14),
      Text(trip.destination, Derived, y + 14),
      Text(IntToString(trip.numberOfTravelers), Derived, y + 14) ]
  }

  /** Everything page 1 gets before the days, starting at `y`. */
  function HeaderCmds(trip: TripDetails, y: int, pageWidth: int): seq<Cmd>
  {
    var banner := y + 26;
    BrandingCmds(y)
    + Gradient.GradientStrips(Gradient.Strips, banner, pageWidth) + BannerTextCmds(trip, banner)
    + TripTableCmds(trip, banner + Gradient.Strips + 15, pageWidth)
  }

  // ---- Days (lines 132-231) ----

  function DayBadgeCmds(day: DayPlan, destination: string, y: int): seq<Cmd>
  {
    [ Fill(Purple),
      Panel(20, y, 30, 60),
      Text("Day", At(35), y + 20),
      Text(IntToString(day.day), At(35), y + 35),
      Text(DayDate(day.date), At(60), y + 15),
      Text("Arrival In " + destination + " & City", At(60), y + 22),
      Text("Exploration", At(60), y + 28) ]
  }

  /** One day block drawn from cursor `c`: after `checkPageBreak(80)`, its
      badge and its timeline, all on one page. */
  function DayLog(c: Cursor, day: DayPlan, destination: string, pageHeight: int): seq<Entry>
  {
    var b := AfterBreak(c, 80, pageHeight);
    Tag(b.pages, DayBadgeCmds(day, destination, b.y) + Timeline.DayTimeline(day.activities, b.y + 35).cmds)
  }

  function DaysLog(c: Cursor, days: seq<DayPlan>, destination: string, pageHeight: int): seq<Entry>
    decreases |days|
  {
    if days == [] then []
    else
      var init := days[..|days| - 1];
      DaysLog(c, init, destination, pageHeight)
      + DayLog(AfterDays(c, init, pageHeight), days[|days| - 1], destination, pageHeight)
  }

  // ---- Rows of the flight list and of the two tables ----

  function RowWidth(row: Row): nat
  {
    match row
    case FlightRow(_) => 6
    case HotelRow(_) => 7
    case InstallmentRow(_) => 5
  }

  /** The commands of row number `index` with its top at `y`. */
  function RowCmds(row: Row, index: nat, y: int, pageWidth: int, formatAmount: AmountFormat): (cmds: seq<Cmd>)
    ensures |cmds| == RowWidth(row)
  {
    match row
    case FlightRow(f) =>
      [ Fill(Lavender),
        Panel(20, y, pageWidth - 40, 15),
        Fill(Rgb(220, 200, 255)),
        Panel(20, y, 60, 15),
        Text(FlightDate(f.date), At(25), y + 9),
        Text(f.airline + " From " + f.origin + " To " + f.destination, At(95), y + 9) ]
    case HotelRow(h) =>
      [ Fill(RowTint(index)),
        Rect(20, y, pageWidth - 40, 10),
        Text(h.city, At(HotelColumnX(0)), y + 6),
        Text(h.checkIn, At(HotelColumnX(1)), y + 6),
        Text(h.checkOut, At(HotelColumnX(2)), y + 6),
        Text(IntToString(h.nights), At(HotelColumnX(3)), y + 6),
        Text(h.name, At(HotelColumnX(4)), y + 6) ]
    case InstallmentRow(i) =>
      [ Fill(RowTint(index)),
        Rect(20, y, pageWidth - 40, 10),
        Text(i.name, At(25), y + 6),
        Text("\U{20B9}" + formatAmount(i.amount), At(70), y + 6),
        Text(i.description, At(115), y + 6) ]
  }

  /** A flight row shows the flight's date (or the placeholder) at x 25 and
      "<airline> From <origin> To <destination>" at x 95, both 9 below its top. */
  lemma FlightRowTexts(f: Flight, index: nat, y: int, pageWidth: int, formatAmount: AmountFormat)
    ensures var cmds := RowCmds(FlightRow(f), index, y, pageWidth, formatAmount);
            && cmds[4] == Text(FlightDate(f.date), At(25), y + 9)
            && cmds[5] == Text(f.airline + " From " + f.origin + " To " + f.destination, At(95), y + 9)
  {
  }

  /** Row `index` drawn from cursor `c`: after the row's page-break check. */
  function RowLog(c: Cursor, row: Row, index: nat, pageWidth: int, pageHeight: int, formatAmount: AmountFormat): (log: seq<Entry>)
    ensures |log| == RowWidth(row)
    ensures forall k | 0 <= k < |log| :: log[k].page == AfterBreak(c, RowBreak(row), pageHeight).pages
  {
    var b := AfterBreak(c, RowBreak(row), pageHeight);
    Tag(b.pages, RowCmds(row, index, b.y, pageWidth, formatAmount))
  }

  function RowsLog(c: Cursor, rows: seq<Row>, pageWidth: int, pageHeight: int, formatAmount: AmountFormat): seq<Entry>
    decreases |rows|
  {
    if rows == [] then []
    else
      var init := rows[..|rows| - 1];
      RowsLog(c, init, pageWidth, pageHeight, formatAmount)
      + RowLog(AfterRows(c, init, pageHeight), rows[|rows| - 1], |init|, pageWidth, pageHeight, formatAmount)
  }

  lemma {:induction false} RowsLogLength(c: Cursor, rows: seq<Row>, pageWidth: int, pageHeight: int, formatAmount: AmountFormat, k: nat)
    requires forall j | 0 <= j < |rows| :: RowWidth(rows[j]) == k
    ensures |RowsLog(c, rows, pageWidth, pageHeight, formatAmount)| == k * |rows|
    decreases |rows|
  {
    if rows != [] {
      var n := |rows| - 1;
      var init := rows[..n];
      RowsLogLength(c, init, pageWidth, pageHeight, formatAmount, k);
      var last := RowLog(AfterRows(c, init, pageHeight), rows[n], n, pageWidth, pageHeight, formatAmount);
      assert RowsLog(c, rows, pageWidth, pageHeight, formatAmount) == RowsLog(c, init, pageWidth, pageHeight, formatAmount) + last;
      assert |last| == k;
      MulSucc(k, n);
    }
  }

  /** Proof step: one more row of width k adds k entries (keeps the
      solver off nonlinear arithmetic). */
  lemma MulSucc(k: int, n: int)
    ensures k * (n + 1) == k * n + k
  {
  }

  /** The rows before `m` leave a prefix of the log of all rows. */
  lemma {:induction false} RowsLogPrefix(c: Cursor, rows: seq<Row>, m: nat, pageWidth: int, pageHeight: int, formatAmount: AmountFormat)
    requires m <= |rows|
    ensures RowsLog(c, rows[..m], pageWidth, pageHeight, formatAmount) <= RowsLog(c, rows, pageWidth, pageHeight, formatAmount)
    decreases |rows|
  {
    if m < |rows| {
      var init := rows[..|rows| - 1];
      RowsLogPrefix(c, init, m, pageWidth, pageHeight, formatAmount);
      assert init[..m] == rows[..m];
    } else {
      assert rows[..m] == rows;
    }
  }

  /** Row i is drawn right after the rows before it, from where they left the
      cursor, after its own page-break check. */
  lemma RowsLogAt(c: Cursor, rows: seq<Row>, i: nat, pageWidth: int, pageHeight: int, formatAmount: AmountFormat)
    requires i < |rows|
    ensures var start := |RowsLog(c, rows[..i], pageWidth, pageHeight, formatAmount)|;
            var row := RowLog(AfterRows(c, rows[..i], pageHeight), rows[i], i, pageWidth, pageHeight, formatAmount);
            && start + |row| <= |RowsLog(c, rows, pageWidth, pageHeight, formatAmount)|
            && RowsLog(c, rows, pageWidth, pageHeight, formatAmount)[start .. start + |row|] == row
  {
    var init := rows[..i];
    var pre := RowsLog(c, init, pageWidth, pageHeight, formatAmount);
    var row := RowLog(AfterRows(c, init, pageHeight), rows[i], i, pageWidth, pageHeight, formatAmount);
    var upTo := rows[..i + 1];
    assert upTo[..|upTo| - 1] == init && upTo[|upTo| - 1] == rows[i] && |init| == i;
    assert RowsLog(c, upTo, pageWidth, pageHeight, formatAmount) == pre + row;
    RowsLogPrefix(c, rows, i + 1, pageWidth, pageHeight, formatAmount);
    PieceAt(pre, row, RowsLog(c, rows, pageWidth, pageHeight, formatAmount));
  }

  lemma HotelRowCells(h: Hotel, index: nat, y: int, pageWidth: int, formatAmount: AmountFormat)
    ensures var cmds := RowCmds(HotelRow(h), index, y, pageWidth, formatAmount);
            && cmds[0] == Fill(RowTint(index))
            && forall j | 2 <= j < 7 :: cmds[j].Text? && cmds[j].at == At(HotelColumnX(j - 2))
  {
  }

  /** Hotel row i's 7 entries sit at 7 * i, drawn after its own page-break check. */
  lemma HotelRowSlice(c: Cursor, hotels: seq<Hotel>, pageWidth: int, pageHeight: int, formatAmount: AmountFormat, i: nat)
    requires i < |hotels|
    ensures var log := RowsLog(c, HotelRows(hotels), pageWidth, pageHeight, formatAmount);
            var b := AfterBreak(AfterRows(c, HotelRows(hotels)[..i], pageHeight), 12, pageHeight);
            && |log| == 7 * |hotels|
            && log[7 * i .. 7 * i + 7] == Tag(b.pages, RowCmds(HotelRow(hotels[i]), i, b.y, pageWidth, formatAmount))
  {
    var rows := HotelRows(hotels);
    RowsLogLength(c, rows, pageWidth, pageHeight, formatAmount, 7);
    RowsLogLength(c, rows[..i], pageWidth, pageHeight, formatAmount, 7);
    RowsLogAt(c, rows, i, pageWidth, pageHeight, formatAmount);
    assert rows[i] == HotelRow(hotels[i]);
  }

  /** Hotel row i is drawn as 7 entries from 7 * i: its fill alternates with
      i, starting tinted, and its five texts stand at the hotel column offsets. */
  lemma HotelRowLayout(c: Cursor, hotels: seq<Hotel>, pageWidth: int, pageHeight: int, formatAmount: AmountFormat, i: nat)
    requires i < |hotels|
    ensures var log := RowsLog(c, HotelRows(hotels), pageWidth, pageHeight, formatAmount);
            && |log| == 7 * |hotels|
            && var row := log[7 * i .. 7 * i + 7];
            && row[0].cmd == Fill(RowTint(i))
            && forall j | 2 <= j < 7 :: row[j].cmd.Text? && row[j].cmd.at == At(HotelColumnX(j - 2))
  {
    var log := RowsLog(c, HotelRows(hotels), pageWidth, pageHeight, formatAmount);
    var b := AfterBreak(AfterRows(c, HotelRows(hotels)[..i], pageHeight), 12, pageHeight);
    var cmds := RowCmds(HotelRow(hotels[i]), i, b.y, pageWidth, formatAmount);
    HotelRowSlice(c, hotels, pageWidth, pageHeight, formatAmount, i);
    HotelRowCells(hotels[i], i, b.y, pageWidth, formatAmount);
    var row := log[7 * i .. 7 * i + 7];
    assert row == Tag(b.pages, cmds);
    forall j | 0 <= j < 7
      ensures row[j].cmd == cmds[j]
    {
    }
  }

  /** Installment rows: the fill alternates with the row's index, starting tinted. */
  lemma InstallmentRowsTinted(c: Cursor, installments: seq<Installment>, pageWidth: int, pageHeight: int, formatAmount: AmountFormat)
    ensures var log := RowsLog(c, InstallmentRows(installments), pageWidth, pageHeight, formatAmount);
            && |log| == 5 * |installments|
            && forall i | 0 <= i < |installments| :: log[5 * i].cmd == Fill(RowTint(i))
  {
    var rows := InstallmentRows(installments);
    var log := RowsLog(c, rows, pageWidth, pageHeight, formatAmount);
    RowsLogLength(c, rows, pageWidth, pageHeight, formatAmount, 5);
    forall i | 0 <= i < |installments|
      ensures log[5 * i].cmd == Fill(RowTint(i))
    {
      RowsLogLength(c, rows[..i], pageWidth, pageHeight, formatAmount, 5);
      RowsLogAt(c, rows, i, pageWidth, pageHeight, formatAmount);
      var b := AfterBreak(AfterRows(c, rows[..i], pageHeight), 12, pageHeight);
      var cmds := RowCmds(InstallmentRow(installments[i]), i, b.y, pageWidth, formatAmount);
      assert rows[i] == InstallmentRow(installments[i]);
      var row := RowLog(AfterRows(c, rows[..i], pageHeight), rows[i], i, pageWidth, pageHeight, formatAmount);
      assert row == Tag(b.pages, cmds);
      assert log[5 * i .. 5 * i + 5] == row;
      assert log[5 * i] == row[0] == Entry(b.pages, cmds[0]);
    }
  }

  // ---- Flights (lines 233-269) ----

  function FlightHeadingCmds(y: int): seq<Cmd>
  {
    [Text("Flight ", At(20), y), Text("Summary", At(42), y)]
  }

  const FlightNote := "Note: All Flights Include Meals, Seat Choice (Excluding XL), And 20kg/25Kg Checked Baggage."

  function FlightNoteCmds(y: int): seq<Cmd>
  {
    [Text(FlightNote, At(20), y + 5)]
  }

  function FlightsLog(c: Cursor, flights: seq<Flight>, pageWidth: int, pageHeight: int, formatAmount: AmountFormat): seq<Entry>
  {
    if flights == [] then []
    else
      var b := AfterBreak(c, 60, pageHeight);
      var rowsTop := Down(b, 15);
      var end := AfterRows(rowsTop, FlightRows(flights), pageHeight);
      Tag(b.pages, FlightHeadingCmds(b.y))
      + RowsLog(rowsTop, FlightRows(flights), pageWidth, pageHeight, formatAmount)
      + Tag(end.pages, FlightNoteCmds(end.y))
  }

  // ---- Hotels (lines 271-328) ----

  function HotelHeadingCmds(y: int): seq<Cmd>
  {
    [Text("Hotel ", At(20), y), Text("Bookings", At(40), y)]
  }

  function HotelHeaderRowCmds(y: int, pageWidth: int): (cmds: seq<Cmd>)
    ensures |cmds| == 7
    ensures forall j | 0 <= j < 5 :: cmds[2 + j].Text? && cmds[2 + j].at == At(HotelColumnX(j))
  {
    [ Fill(Purple),
      Panel(20, y, pageWidth - 40, 10),
      Text("City", At(HotelColumnX(0)), y + 6),
      Text("Check In", At(HotelColumnX(1)), y + 6),
      Text("Check Out", At(HotelColumnX(2)), y + 6),
      Text("Nights", At(HotelColumnX(3)), y + 6),
      Text("Hotel Name", At(HotelColumnX(4)), y + 6) ]
  }

  function HotelsLog(c: Cursor, hotels: seq<Hotel>, pageWidth: int, pageHeight: int, formatAmount: AmountFormat): seq<Entry>
  {
    if hotels == [] then []
    else
      var b := AfterBreak(c, 80, pageHeight);
      Tag(b.pages, HotelHeadingCmds(b.y) + HotelHeaderRowCmds(b.y + 15, pageWidth))
      + RowsLog(Down(Down(b, 15), 10), HotelRows(hotels), pageWidth, pageHeight, formatAmount)
  }

  // ---- Payment plan (lines 330-390) ----

  function PaymentHeadingCmds(y: int): seq<Cmd>
  {
    [Text("Payment ", At(20), y), Text("Plan", At(55), y)]
  }

  function TotalCmds(totalAmount: int, travellers: int, y: int, pageWidth: int, formatAmount: AmountFormat): seq<Cmd>
  {
    [ Fill(Lavender),
      Panel(20, y, pageWidth - 40, 12),
      Text("Total Amount", At(25), y + 7),
      Text("\U{20B9} " + formatAmount(totalAmount) + " For " + IntToString(travellers) + " Pax (Inclusive of GST)", At(110), y + 7) ]
  }

  function TcsCmds(collected: bool, y: int, pageWidth: int): seq<Cmd>
  {
    [ Fill(Lavender),
      Panel(20, y, pageWidth - 40, 12),
      Text("TCS", At(25), y + 7),
      Text(TcsLabel(collected), At(110), y + 7) ]
  }

  function InstallmentHeaderCmds(y: int, pageWidth: int): seq<Cmd>
  {
    [ Fill(Purple),
      Panel(20, y, pageWidth - 40, 10),
      Text("Installment", At(25), y + 6),
      Text("Amount", At(70), y + 6),
      Text("Due Date", At(115), y + 6) ]
  }

  /** The heading, total and TCS panels of a plan, the first at `y`. */
  function PaymentPanelCmds(plan: PaymentPlan, travellers: int, y: int, pageWidth: int, formatAmount: AmountFormat): seq<Cmd>
  {
    PaymentHeadingCmds(y)
    + TotalCmds(plan.totalAmount, travellers, y + 15, pageWidth, formatAmount)
    + TcsCmds(plan.tcsCollected, y + 30, pageWidth)
  }

  /** The installment table with its header row at `c`: nothing when there
      is no installment. */
  function InstallmentsLog(c: Cursor, installments: seq<Installment>, pageWidth: int, pageHeight: int, formatAmount: AmountFormat): seq<Entry>
  {
    if installments == [] then []
    else
      Tag(c.pages, InstallmentHeaderCmds(c.y, pageWidth))
      + RowsLog(Down(c, 10), InstallmentRows(installments), pageWidth, pageHeight, formatAmount)
  }

  function PaymentLog(c: Cursor, plan: Option<PaymentPlan>, travellers: int, pageWidth: int, pageHeight: int, formatAmount: AmountFormat): seq<Entry>
  {
    match plan
    case None => []
    case Some(p) =>
      var b := AfterBreak(c, 100, pageHeight);
      Tag(b.pages, PaymentPanelCmds(p, travellers, b.y, pageWidth, formatAmount))
      + InstallmentsLog(Cursor(b.y + 50, b.pages), p.installments, pageWidth, pageHeight, formatAmount)
  }

  // ---- Visa (lines 392-411) ----

  function VisaHeadingCmds(y: int): seq<Cmd>
  {
    [Text("Visa ", At(20), y), Text("Details", At(40), y)]
  }

  /** The grey panel with its top at `y`. */
  function VisaPanelCmds(visa: VisaDetails, y: int, pageWidth: int): seq<Cmd>
  {
    [ Fill(LightGrey),
      Panel(20, y, pageWidth - 40, 20),
      Text("Visa Type: " + visa.visaType, At(30), y + 8),
      Text("Validity: " + visa.validity, At(100), y + 8),
      Text("Processing Date: " + visa.processingDate, At(30), y + 15) ]
  }

  function VisaLog(c: Cursor, visa: Option<VisaDetails>, pageWidth: int, pageHeight: int): seq<Entry>
  {
    match visa
    case None => []
    case Some(v) =>
      var b := AfterBreak(c, 40, pageHeight);
      Tag(b.pages, VisaHeadingCmds(b.y) + VisaPanelCmds(v, b.y + 15, pageWidth))
  }

  // ---- The whole content pass ----

  function ContentLog(doc: Document, pageWidth: int, pageHeight: int, formatAmount: AmountFormat): seq<Entry>
  {
    var header := AfterHeader(Start);
    var days := AfterDays(header, doc.dailyItinerary, pageHeight);
    var flights := AfterFlights(days, doc.flights, pageHeight);
    var hotels := AfterHotels(flights, doc.hotels, pageHeight);
    var payment := AfterPayment(hotels, doc.paymentPlan, pageHeight);
    Tag(Start.pages, HeaderCmds(doc.tripDetails, Start.y, pageWidth))
    + DaysLog(header, doc.dailyItinerary, doc.tripDetails.destination, pageHeight)
    + FlightsLog(days, doc.flights, pageWidth, pageHeight, formatAmount)
    + HotelsLog(flights, doc.hotels, pageWidth, pageHeight, formatAmount)
    + PaymentLog(hotels, doc.paymentPlan, doc.tripDetails.numberOfTravelers, pageWidth, pageHeight, formatAmount)
    + VisaLog(payment, doc.visaDetails, pageWidth, pageHeight)
  }

  // ---- Footer (lines 19-55) ----

  const FooterSize := 8

  function FooterCmds(pageWidth: int, pageHeight: int): (cmds: seq<Cmd>)
    ensures |cmds| == FooterSize
    ensures cmds[0].Line? && forall j | 1 <= j < FooterSize :: cmds[j].Text?
  {
    var footerY := pageHeight - 40;
    [ Line(20, footerY - 5, pageWidth - 20, footerY - 5),
      Text("Vigovia Tech Pvt. Ltd", At(20), footerY),
      Text("Registered Office: Hd-109 Cinnabar Hills,", At(20), footerY + 4),
      Text("Links Business Park, Karnataka, India", At(20), footerY + 8),
      Text("Phone: +91-99X9999999", Derived, footerY),
      Text("Email ID: Contact@Vigovia.Com", Derived, footerY + 4),
      Text("vigovia", At(pageWidth - 50), footerY),
      Text("PLAN.PACK.GO", At(pageWidth - 50), footerY + 4) ]
  }

  /** The footer pass over pages 1 .. pages. */
  function FooterLog(pages: nat, pageWidth: int, pageHeight: int): seq<Entry>
    decreases pages
  {
    if pages == 0 then [] else FooterLog(pages - 1, pageWidth, pageHeight) + Tag(pages, FooterCmds(pageWidth, pageHeight))
  }

  /** The footer pass stamps one footer on every page, page by page in order. */
  lemma {:induction false} FooterOnEveryPage(pages: nat, pageWidth: int, pageHeight: int)
    ensures |FooterLog(pages, pageWidth, pageHeight)| == FooterSize * pages
    ensures forall p, j | 1 <= p <= pages && 0 <= j < FooterSize ::
              FooterLog(pages, pageWidth, pageHeight)[FooterSize * (p - 1) + j]
              == Entry(p, FooterCmds(pageWidth, pageHeight)[j])
    decreases pages
  {
    if pages > 0 {
      FooterOnEveryPage(pages - 1, pageWidth, pageHeight);
      var before := FooterLog(pages - 1, pageWidth, pageHeight);
      var cmds := FooterCmds(pageWidth, pageHeight);
      assert FooterLog(pages, pageWidth, pageHeight) == before + Tag(pages, cmds);
      forall p, j | 1 <= p <= pages && 0 <= j < FooterSize
        ensures FooterLog(pages, pageWidth, pageHeight)[FooterSize * (p - 1) + j] == Entry(p, cmds[j])
      {
        if p < pages {
          assert FooterSize * (p - 1) + j < |before|;
        } else {
          assert FooterSize * (p - 1) + j == |before| + j;
        }
      }
    }
  }
}
