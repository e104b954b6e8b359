/** The layout pass of `generatePDF` (pdfGenerator.js lines 3-425): the
    cursor `yPos` moving down the pages of a document, section by section,
    and the footer pass at the end. Each method is proved to move the cursor
    as `Layout` says and to draw what `Sections` says; a ghost trace keeps
    every position the cursor has taken. */
module PdfGenerator {
  import opened Itinerary
  import opened Drawing
  import opened Layout
  import opened Sections
  import Timeline
  import Gradient

  class Renderer {
    const doc: Surface
    const pageWidth: int
    const pageHeight: int
    var yPos: int
    /** Every cursor position so far, the current one last. */
    ghost var trace: seq<Cursor>

    /** The cursor as `Layout` sees it: `yPos` on the last page. */
    function Pos(): Cursor
      reads this, doc
    {
      Cursor(yPos, doc.pageCount)
    }

    /** The trace starts at the top margin of page 1, ends at the cursor, and
        every move along it goes down the page or to the top of a new one. */
    ghost predicate Valid()
      reads this, doc
    {
      doc.Valid()
      && doc.width == pageWidth && doc.height == pageHeight
      && |trace| > 0 && trace[0] == Start && trace[|trace| - 1] == Pos()
      && Monotone(trace)
    }

    /** `new jsPDF()` and `let yPos = 20`. */
    constructor(pageWidth: int, pageHeight: int)
      ensures Valid() && Pos() == Start && fresh(doc)
      ensures this.pageWidth == pageWidth && this.pageHeight == pageHeight
      ensures doc.currentPage == 1 && doc.log == []
    {
      doc := new Surface(pageWidth, pageHeight);
      this.pageWidth := pageWidth;
      this.pageHeight := pageHeight;
      yPos := TopMargin;
      trace := [Start];
    }

    /** `yPos += d`. */
    method Advance(d: nat)
      requires Valid()
      modifies this
      ensures Valid() && old(trace) <= trace
      ensures Pos() == Down(old(Pos()), d)
    {
      yPos := yPos + d;
      trace := trace + [Pos()];
    }

    /** `checkPageBreak(neededHeight)`: a new page, with the cursor back at the
        top margin, when the block would reach into the footer band. */
    method CheckPageBreak(neededHeight: int)
      requires Valid() && doc.currentPage == doc.pageCount
      modifies this, doc
      ensures Valid() && doc.currentPage == doc.pageCount && old(trace) <= trace
      ensures Pos() == AfterBreak(old(Pos()), neededHeight, pageHeight)
      ensures Overflows(old(yPos), neededHeight, pageHeight)
              ==> yPos == TopMargin && doc.pageCount == old(doc.pageCount) + 1
      ensures !Overflows(old(yPos), neededHeight, pageHeight)
              ==> yPos == old(yPos) && doc.pageCount == old(doc.pageCount)
      ensures doc.log == old(doc.log)
    {
      if yPos + neededHeight > pageHeight - BottomReserve {
        doc.AddPage();
        yPos := TopMargin;
      }
      trace := trace + [Pos()];
    }

    // ---- Header (lines 57-130) ----

    /** The banner's 40 one-unit strips from `yPos` down, each filled with
        its rounded colour; the cursor does not move. */
    method DrawGradient()
      requires doc.Valid()
      modifies doc
      ensures doc.Valid()
      ensures doc.pageCount == old(doc.pageCount) && doc.currentPage == old(doc.currentPage)
      ensures doc.log == old(doc.log) + Tag(doc.currentPage, Gradient.GradientStrips(Gradient.Strips, yPos, pageWidth))
    {
      var page := doc.currentPage;
      var log0 := doc.log;
      for i := 0 to Gradient.Strips
        invariant doc.Valid()
        invariant doc.pageCount == old(doc.pageCount) && doc.currentPage == page
        invariant doc.log == log0 + Tag(page, Gradient.GradientStrips(i, yPos, pageWidth))
      {
        var r := Gradient.Interpolate(74, 84, i, Gradient.Strips);
        var g := Gradient.Interpolate(144, 28, i, Gradient.Strips);
        var b := Gradient.Interpolate(226, 156, i, Gradient.Strips);
        var strip := [Fill(Rgb(r, g, b)), Rect(40, yPos + i, pageWidth - 80, 1)];
        doc.Draw(strip);
        DrawTwice(log0, page, Gradient.GradientStrips(i, yPos, pageWidth), strip);
      }
    }

    /** Logo, gradient banner with its text, and the trip table, all on the
        first page. */
    method DrawHeader(trip: TripDetails)
      requires Valid() && Pos() == Start
      modifies this, doc
      ensures Valid() && doc.currentPage == doc.pageCount && old(trace) <= trace
      ensures Pos() == AfterHeader(Start)
      ensures doc.log == old(doc.log) + Tag(Start.pages, HeaderCmds(trip, Start.y, pageWidth))
    {
      var top := yPos;
      var log0 := doc.log;
      doc.Draw([Text("vigovia", Derived, yPos)]);
      Advance(6);
      doc.Draw([Text("PLAN.PACK.GO", Derived, yPos)]);
      Advance(20);
      DrawTwice(log0, 1, [Text("vigovia", Derived, top)], [Text("PLAN.PACK.GO", Derived, top + 6)]);
      var branding := BrandingCmds(top);
      assert [Text("vigovia", Derived, top)] + [Text("PLAN.PACK.GO", Derived, top + 6)] == branding;
      DrawGradient();
      var gradient := Gradient.GradientStrips(Gradient.Strips, yPos, pageWidth);
      DrawTwice(log0, 1, branding, gradient);
      doc.Draw(BannerTextCmds(trip, yPos));
      DrawTwice(log0, 1, branding + gradient, BannerTextCmds(trip, yPos));
      var bannerDone := branding + gradient + BannerTextCmds(trip, yPos);
      Advance(Gradient.Strips + 15);
      doc.Draw(TripTableCmds(trip, yPos, pageWidth));
      DrawTwice(log0, 1, bannerDone, TripTableCmds(trip, yPos, pageWidth));
      Advance(35);
    }

    // ---- Days (lines 132-231) ----

    /** The callback of one group's `forEach`: the activity's name 6 below
        `y`, and its description 4 further down when it has one. */
    method DrawBullet(activity: Activity, y: int) returns (timelineY: int)
      requires doc.Valid()
      modifies doc
      ensures doc.Valid()
      ensures doc.pageCount == old(doc.pageCount) && doc.currentPage == old(doc.currentPage)
      ensures timelineY == Timeline.Bullet(activity, y).end
      ensures doc.log == old(doc.log) + Tag(doc.currentPage, Timeline.Bullet(activity, y).cmds)
    {
      var log0 := doc.log;
      timelineY := y + 6;
      var name := Text("\U{2022} " + activity.name, At(Timeline.TimelineX + 8), timelineY);
      doc.Draw([name]);
      if activity.description != "" {
        timelineY := timelineY + 4;
        var description := Text("  " + activity.description, At(Timeline.TimelineX + 8), timelineY);
        doc.Draw([description]);
        DrawTwice(log0, doc.currentPage, [name], [description]);
        assert [name] + [description] == [name, description];
      }
    }

    /** One time-of-day group of the timeline, drawn from `timelineY = y`:
        nothing when empty, else its heading and one bullet per activity. */
    method DrawGroup(heading: string, g: seq<Activity>, y: int, last: bool) returns (timelineY: int)
      requires doc.Valid()
      modifies doc
      ensures doc.Valid()
      ensures doc.pageCount == old(doc.pageCount) && doc.currentPage == old(doc.currentPage)
      ensures timelineY == Timeline.Group(heading, g, y, last).end
      ensures doc.log == old(doc.log) + Tag(doc.currentPage, Timeline.Group(heading, g, y, last).cmds)
    {
      timelineY := y;
      if g != [] {
        var page := doc.currentPage;
        var log0 := doc.log;
        var head := Timeline.GroupHead(heading, y, last);
        doc.Draw(head);
        var log1 := doc.log;
        for i := 0 to |g|
          invariant doc.Valid()
          invariant doc.pageCount == old(doc.pageCount) && doc.currentPage == page
          invariant timelineY == Timeline.Bullets(g[..i], y).end
          invariant doc.log == log1 + Tag(page, Timeline.Bullets(g[..i], y).cmds)
        {
          var before := Timeline.Bullets(g[..i], y);
          timelineY := DrawBullet(g[i], timelineY);
          DrawTwice(log1, page, before.cmds, Timeline.Bullet(g[i], before.end).cmds);
          assert g[..i + 1][..i] == g[..i];
        }
        assert g[..|g|] == g;
        DrawTwice(log0, page, head, Timeline.Bullets(g, y).cmds);
        if !last {
          timelineY := timelineY + 3;
        }
      }
    }

    /** The day's timeline, drawn from `timelineY = y`: the morning, afternoon
        and evening groups in that order, each from where the previous ended. */
    method DrawTimeline(acts: seq<Activity>, y: int) returns (timelineY: int)
      requires doc.Valid()
      modifies doc
      ensures doc.Valid()
      ensures doc.pageCount == old(doc.pageCount) && doc.currentPage == old(doc.currentPage)
      ensures timelineY == Timeline.DayTimeline(acts, y).end
      ensures doc.log == old(doc.log) + Tag(doc.currentPage, Timeline.DayTimeline(acts, y).cmds)
    {
      var log0, page := doc.log, doc.currentPage;
      var m := Timeline.Group("Morning", Timeline.OfKind(acts, Timeline.Morning), y, false);
      timelineY := DrawGroup("Morning", Timeline.OfKind(acts, Timeline.Morning), y, false);
      var a := Timeline.Group("Afternoon", Timeline.OfKind(acts, Timeline.Afternoon), timelineY, false);
      timelineY := DrawGroup("Afternoon", Timeline.OfKind(acts, Timeline.Afternoon), timelineY, false);
      var e := Timeline.Group("Evening", Timeline.OfKind(acts, Timeline.Evening), timelineY, true);
      timelineY := DrawGroup("Evening", Timeline.OfKind(acts, Timeline.Evening), timelineY, true);
      DrawTwice(log0, page, m.cmds, a.cmds);
      DrawTwice(log0, page, m.cmds + a.cmds, e.cmds);
    }

    /** One day block: `checkPageBreak(80)`, the day badge, the morning,
        afternoon and evening groups, then `yPos += max(70, timelineY - yPos + 15)`. */
    method DrawDay(day: DayPlan, destination: string)
      requires Valid() && doc.currentPage == doc.pageCount
      modifies this, doc
      ensures Valid() && doc.currentPage == doc.pageCount && old(trace) <= trace
      ensures Pos() == AfterDay(old(Pos()), day, pageHeight)
      ensures doc.log == old(doc.log) + DayLog(old(Pos()), day, destination, pageHeight)
    {
      var log0 := doc.log;
      CheckPageBreak(80);
      var page := doc.currentPage;
      var badge := DayBadgeCmds(day, destination, yPos);
      doc.Draw(badge);
      var timelineY := DrawTimeline(day.activities, yPos + 35);
      DrawTwice(log0, page, badge, Timeline.DayTimeline(day.activities, yPos + 35).cmds);
      Timeline.TimelineHeightSpec(day.activities, yPos + 35);
      Advance(Max(70, timelineY - yPos + 15));
    }

    /** The `forEach` over the daily itinerary. */
    method DrawDays(days: seq<DayPlan>, destination: string)
      requires Valid() && doc.currentPage == doc.pageCount
      modifies this, doc
      ensures Valid() && doc.currentPage == doc.pageCount && old(trace) <= trace
      ensures Pos() == AfterDays(old(Pos()), days, pageHeight)
      ensures doc.log == old(doc.log) + DaysLog(old(Pos()), days, destination, pageHeight)
    {
      var start := Pos();
      var log0 := doc.log;
      ghost var trace0 := trace;
      for i := 0 to |days|
        invariant Valid() && doc.currentPage == doc.pageCount && trace0 <= trace
        invariant Pos() == AfterDays(start, days[..i], pageHeight)
        invariant doc.log == log0 + DaysLog(start, days[..i], destination, pageHeight)
      {
        AppendTwice(log0, DaysLog(start, days[..i], destination, pageHeight),
                    DayLog(Pos(), days[i], destination, pageHeight));
        DrawDay(days[i], destination);
        assert days[..i + 1][..i] == days[..i];
      }
      assert days[..|days|] == days;
    }

    // ---- Rows of the flight list and of the hotel and installment tables ----

    /** The callback of a list's or table's `forEach((item, index) => ...)`:
        the row's page-break check, its commands, and its step down. */
    method DrawRow(row: Row, index: nat, formatAmount: AmountFormat)
      requires Valid() && doc.currentPage == doc.pageCount
      modifies this, doc
      ensures Valid() && doc.currentPage == doc.pageCount && old(trace) <= trace
      ensures Pos() == AfterRow(old(Pos()), row, pageHeight)
      ensures doc.log == old(doc.log) + RowLog(old(Pos()), row, index, pageWidth, pageHeight, formatAmount)
    {
      CheckPageBreak(RowBreak(row));
      doc.Draw(RowCmds(row, index, yPos, pageWidth, formatAmount));
      Advance(RowStep(row));
    }

    /** The `forEach` over the flights, the hotels or the installments. */
    method DrawRows(rows: seq<Row>, formatAmount: AmountFormat)
      requires Valid() && doc.currentPage == doc.pageCount
      modifies this, doc
      ensures Valid() && doc.currentPage == doc.pageCount && old(trace) <= trace
      ensures Pos() == AfterRows(old(Pos()), rows, pageHeight)
      ensures doc.log == old(doc.log) + RowsLog(old(Pos()), rows, pageWidth, pageHeight, formatAmount)
    {
      var start := Pos();
      var log0 := doc.log;
      ghost var trace0 := trace;
      for i := 0 to |rows|
        invariant Valid() && doc.currentPage == doc.pageCount && trace0 <= trace
        invariant Pos() == AfterRows(start, rows[..i], pageHeight)
        invariant doc.log == log0 + RowsLog(start, rows[..i], pageWidth, pageHeight, formatAmount)
      {
        AppendTwice(log0, RowsLog(start, rows[..i], pageWidth, pageHeight, formatAmount),
                    RowLog(Pos(), rows[i], i, pageWidth, pageHeight, formatAmount));
        DrawRow(rows[i], i, formatAmount);
        assert rows[..i + 1][..i] == rows[..i];
      }
      assert rows[..|rows|] == rows;
    }

    // ---- Flights (lines 233-269) ----

    /** The baggage note under the flight list, then `yPos += 20`. */
    method DrawFlightNote()
      requires Valid()
      modifies this, doc
      ensures Valid() && doc.currentPage == old(doc.currentPage) && old(trace) <= trace
      ensures Pos() == Down(old(Pos()), 20)
      ensures doc.log == old(doc.log) + Tag(doc.currentPage, FlightNoteCmds(old(yPos)))
    {
      doc.Draw(FlightNoteCmds(yPos));
      Advance(20);
    }

    method DrawFlights(flights: seq<Flight>, formatAmount: AmountFormat)
      requires Valid() && doc.currentPage == doc.pageCount
      modifies this, doc
      ensures Valid() && doc.currentPage == doc.pageCount && old(trace) <= trace
      ensures Pos() == AfterFlights(old(Pos()), flights, pageHeight)
      ensures doc.log == old(doc.log) + FlightsLog(old(Pos()), flights, pageWidth, pageHeight, formatAmount)
    {
      if flights != [] {
        var log0 := doc.log;
        CheckPageBreak(60);
        var heading := Tag(doc.currentPage, FlightHeadingCmds(yPos));
        doc.Draw(FlightHeadingCmds(yPos));
        Advance(15);
        var rowsTop := Pos();
        DrawRows(FlightRows(flights), formatAmount);
        var rows := RowsLog(rowsTop, FlightRows(flights), pageWidth, pageHeight, formatAmount);
        var note := Tag(doc.currentPage, FlightNoteCmds(yPos));
        DrawFlightNote();
        AppendTwice(log0, heading, rows);
        AppendTwice(log0, heading + rows, note);
      }
    }

    // ---- Hotels (lines 271-328) ----

    method DrawHotels(hotels: seq<Hotel>, formatAmount: AmountFormat)
      requires Valid() && doc.currentPage == doc.pageCount
      modifies this, doc
      ensures Valid() && doc.currentPage == doc.pageCount && old(trace) <= trace
      ensures Pos() == AfterHotels(old(Pos()), hotels, pageHeight)
      ensures doc.log == old(doc.log) + HotelsLog(old(Pos()), hotels, pageWidth, pageHeight, formatAmount)
    {
      if hotels != [] {
        var log0 := doc.log;
        CheckPageBreak(80);
        var page := doc.currentPage;
        var heading := HotelHeadingCmds(yPos);
        doc.Draw(heading);
        Advance(15);
        var headerRow := HotelHeaderRowCmds(yPos, pageWidth);
        doc.Draw(headerRow);
        Advance(10);
        DrawTwice(log0, page, heading, headerRow);
        var rowsTop := Pos();
        DrawRows(HotelRows(hotels), formatAmount);
        AppendTwice(log0, Tag(page, heading + headerRow), RowsLog(rowsTop, HotelRows(hotels), pageWidth, pageHeight, formatAmount));
        Advance(15);
      }
    }

    // ---- Payment plan (lines 330-390) ----

    /** The installment table: its header row, then one row per installment;
        nothing when there is none. */
    method DrawInstallments(installments: seq<Installment>, formatAmount: AmountFormat)
      requires Valid() && doc.currentPage == doc.pageCount
      modifies this, doc
      ensures Valid() && doc.currentPage == doc.pageCount && old(trace) <= trace
      ensures Pos() == AfterInstallments(old(Pos()), installments, pageHeight)
      ensures doc.log == old(doc.log) + InstallmentsLog(old(Pos()), installments, pageWidth, pageHeight, formatAmount)
    {
      if installments != [] {
        var log0 := doc.log;
        var header := Tag(doc.currentPage, InstallmentHeaderCmds(yPos, pageWidth));
        doc.Draw(InstallmentHeaderCmds(yPos, pageWidth));
        Advance(10);
        var rowsTop := Pos();
        DrawRows(InstallmentRows(installments), formatAmount);
        AppendTwice(log0, header, RowsLog(rowsTop, InstallmentRows(installments), pageWidth, pageHeight, formatAmount));
      }
    }

    /** The heading, total and TCS panels of a plan: +15, +15 and +20. */
    method DrawPaymentPanels(p: PaymentPlan, travellers: int, formatAmount: AmountFormat)
      requires Valid()
      modifies this, doc
      ensures Valid() && doc.currentPage == old(doc.currentPage) && old(trace) <= trace
      ensures Pos() == Down(Down(Down(old(Pos()), 15), 15), 20)
      ensures doc.log == old(doc.log) + Tag(doc.currentPage, PaymentPanelCmds(p, travellers, old(yPos), pageWidth, formatAmount))
    {
      var log0 := doc.log;
      var page := doc.currentPage;
      var heading := PaymentHeadingCmds(yPos);
      doc.Draw(heading);
      Advance(15);
      var total := TotalCmds(p.totalAmount, travellers, yPos, pageWidth, formatAmount);
      doc.Draw(total);
      Advance(15);
      var tcs := TcsCmds(p.tcsCollected, yPos, pageWidth);
      doc.Draw(tcs);
      Advance(20);
      DrawTwice(log0, page, heading, total);
      DrawTwice(log0, page, heading + total, tcs);
    }

    method DrawPayment(plan: Option<PaymentPlan>, travellers: int, formatAmount: AmountFormat)
      requires Valid() && doc.currentPage == doc.pageCount
      modifies this, doc
      ensures Valid() && doc.currentPage == doc.pageCount && old(trace) <= trace
      ensures Pos() == AfterPayment(old(Pos()), plan, pageHeight)
      ensures doc.log == old(doc.log) + PaymentLog(old(Pos()), plan, travellers, pageWidth, pageHeight, formatAmount)
    {
      if plan.Some? {
        var p := plan.value;
        var log0 := doc.log;
        CheckPageBreak(100);
        var panels := Tag(doc.currentPage, PaymentPanelCmds(p, travellers, yPos, pageWidth, formatAmount));
        DrawPaymentPanels(p, travellers, formatAmount);
        var tableTop := Pos();
        DrawInstallments(p.installments, formatAmount);
        AppendTwice(log0, panels, InstallmentsLog(tableTop, p.installments, pageWidth, pageHeight, formatAmount));
        Advance(15);
      }
    }

    // ---- Visa (lines 392-411) ----

    method DrawVisa(visa: Option<VisaDetails>)
      requires Valid() && doc.currentPage == doc.pageCount
      modifies this, doc
      ensures Valid() && doc.currentPage == doc.pageCount && old(trace) <= trace
      ensures Pos() == AfterVisa(old(Pos()), visa, pageHeight)
      ensures doc.log == old(doc.log) + VisaLog(old(Pos()), visa, pageWidth, pageHeight)
    {
      if visa.Some? {
        var log0 := doc.log;
        CheckPageBreak(40);
        var page := doc.currentPage;
        var heading := VisaHeadingCmds(yPos);
        doc.Draw(heading);
        Advance(15);
        var panel := VisaPanelCmds(visa.value, yPos, pageWidth);
        doc.Draw(panel);
        DrawTwice(log0, page, heading, panel);
        Advance(35);
      }
    }

    /** All sections, from the top of the first page. */
    method DrawContent(data: Document, formatAmount: AmountFormat)
      requires Valid() && Pos() == Start
      modifies this, doc
      ensures Valid() && doc.currentPage == doc.pageCount && old(trace) <= trace
      ensures Pos() == AfterContent(data, pageHeight)
      ensures doc.log == old(doc.log) + ContentLog(data, pageWidth, pageHeight, formatAmount)
    {
      var log0 := doc.log;
      var trip := data.tripDetails;
      var header := Tag(Start.pages, HeaderCmds(trip, Start.y, pageWidth));
      DrawHeader(trip);
      var days := DaysLog(Pos(), data.dailyItinerary, trip.destination, pageHeight);
      DrawDays(data.dailyItinerary, trip.destination);
      var flights := FlightsLog(Pos(), data.flights, pageWidth, pageHeight, formatAmount);
      DrawFlights(data.flights, formatAmount);
      var hotels := HotelsLog(Pos(), data.hotels, pageWidth, pageHeight, formatAmount);
      DrawHotels(data.hotels, formatAmount);
      var payment := PaymentLog(Pos(), data.paymentPlan, trip.numberOfTravelers, pageWidth, pageHeight, formatAmount);
      DrawPayment(data.paymentPlan, trip.numberOfTravelers, formatAmount);
      var visa := VisaLog(Pos(), data.visaDetails, pageWidth, pageHeight);
      DrawVisa(data.visaDetails);
      AppendTwice(log0, header, days);
      AppendTwice(log0, header + days, flights);
      AppendTwice(log0, header + days + flights, hotels);
      AppendTwice(log0, header + days + flights + hotels, payment);
      AppendTwice(log0, header + days + flights + hotels + payment, visa);
    }

    // ---- Footer (lines 19-55) ----

    /** `addFooter()` on the current page. */
    method AddFooter()
      requires Valid()
      modifies doc
      ensures Valid()
      ensures doc.pageCount == old(doc.pageCount) && doc.currentPage == old(doc.currentPage)
      ensures doc.log == old(doc.log) + Tag(doc.currentPage, FooterCmds(pageWidth, pageHeight))
    {
      doc.Draw(FooterCmds(pageWidth, pageHeight));
    }

    /** `setPage(i)` then `addFooter()` for i = 1 .. the number of pages. */
    method AddFooterToAllPages()
      requires Valid()
      modifies doc
      ensures Valid()
      ensures doc.pageCount == old(doc.pageCount) && doc.currentPage == doc.pageCount
      ensures doc.log == old(doc.log) + FooterLog(doc.pageCount, pageWidth, pageHeight)
    {
      var totalPages := doc.pageCount;
      var log0 := doc.log;
      for i := 1 to totalPages + 1
        invariant Valid() && doc.pageCount == totalPages
        invariant i > 1 ==> doc.currentPage == i - 1
        invariant doc.log == log0 + FooterLog(i - 1, pageWidth, pageHeight)
      {
        AppendTwice(log0, FooterLog(i - 1, pageWidth, pageHeight), Tag(i, FooterCmds(pageWidth, pageHeight)));
        doc.SetPage(i);
        AddFooter();
      }
    }
  }

  /** `generatePDF(data)` up to the byte stream: draws every section, then
      the footers, and gives back the document. */
  method GeneratePdf(data: Document, pageWidth: int, pageHeight: int, formatAmount: AmountFormat) returns (pdf: Surface)
    ensures fresh(pdf) && pdf.Valid()
    ensures pdf.width == pageWidth && pdf.height == pageHeight
    ensures pdf.pageCount == AfterContent(data, pageHeight).pages
    ensures pdf.currentPage == pdf.pageCount
    ensures pdf.log == ContentLog(data, pageWidth, pageHeight, formatAmount) + FooterLog(pdf.pageCount, pageWidth, pageHeight)
  {
    var renderer := new Renderer(pageWidth, pageHeight);
    renderer.DrawContent(data, formatAmount);
    renderer.AddFooterToAllPages();
    pdf := renderer.doc;
    assert [] + ContentLog(data, pageWidth, pageHeight, formatAmount) == ContentLog(data, pageWidth, pageHeight, formatAmount);
  }
}
