/** A day's activity timeline (pdfGenerator.js lines 156-227): the activities
    are grouped by type, the groups are drawn morning, afternoon, evening, each
    only when it has an activity, and a local cursor `timelineY` moves down. */
module Timeline {
  import opened Itinerary
  import opened Drawing

  const Morning := "morning"
  const Afternoon := "afternoon"
  const Evening := "evening"

  /** x of the timeline's dots; labels stand 5 and bullets 8 to its right. */
  const TimelineX := 60

  /** `acts.filter(a => a.type === kind)`. */
  function OfKind(acts: seq<Activity>, kind: string): seq<Activity>
    decreases |acts|
  {
    if acts == [] then []
    else
      var last := acts[|acts| - 1];
      OfKind(acts[..|acts| - 1], kind) + (if last.kind == kind then [last] else [])
  }

  /** `g` is `s` with some elements left out and the others kept in order. */
  predicate IsSubsequence<T(==)>(g: seq<T>, s: seq<T>)
    decreases |s|
  {
    || g == []
    || (s != [] &&
        ((g[|g| - 1] == s[|s| - 1] && IsSubsequence(g[..|g| - 1], s[..|s| - 1]))
         || IsSubsequence(g, s[..|s| - 1])))
  }

  /** Every activity in a group has the group's type. */
  lemma {:induction false} OfKindKinds(acts: seq<Activity>, kind: string)
    ensures forall a | a in OfKind(acts, kind) :: a.kind == kind
    decreases |acts|
  {
    if acts != [] {
      OfKindKinds(acts[..|acts| - 1], kind);
    }
  }

  /** A group keeps the day's order. */
  lemma {:induction false} OfKindOrder(acts: seq<Activity>, kind: string)
    ensures IsSubsequence(OfKind(acts, kind), acts)
    decreases |acts|
  {
    if acts != [] {
      var init, last := acts[..|acts| - 1], acts[|acts| - 1];
      OfKindOrder(init, kind);
      var g := OfKind(acts, kind);
      if last.kind == kind {
        assert g[..|g| - 1] == OfKind(init, kind);
        assert g[|g| - 1] == last;
      } else {
        assert g == OfKind(init, kind);
      }
    }
  }

  /** A group holds each activity of its type as often as the day does, and
      nothing else. */
  lemma {:induction false} OfKindCount(acts: seq<Activity>, kind: string)
    ensures forall a :: multiset(OfKind(acts, kind))[a] == if a.kind == kind then multiset(acts)[a] else 0
    decreases |acts|
  {
    if acts != [] {
      var init, last := acts[..|acts| - 1], acts[|acts| - 1];
      OfKindCount(init, kind);
      assert acts == init + [last];
      assert multiset(acts) == multiset(init) + multiset{last};
      if last.kind == kind {
        assert multiset(OfKind(acts, kind)) == multiset(OfKind(init, kind)) + multiset{last};
      } else {
        assert OfKind(acts, kind) == OfKind(init, kind);
      }
    }
  }

  /** Drawn commands and the value of `timelineY` after them. */
  datatype Run = Run(cmds: seq<Cmd>, end: int)

  /** One activity: the cursor moves 6 down for its name and 4 more for a
      description, when there is one. */
  function Bullet(a: Activity, y: int): Run
  {
    var y1 := y + 6;
    var name := Text("\U{2022} " + a.name, At(TimelineX + 8), y1);
    if a.description != "" then
      Run([name, Text("  " + a.description, At(TimelineX + 8), y1 + 4)], y1 + 4)
    else
      Run([name], y1)
  }

  /** The `forEach` over one group's activities. */
  function Bullets(g: seq<Activity>, y: int): Run
    decreases |g|
  {
    if g == [] then Run([], y)
    else
      var r := Bullets(g[..|g| - 1], y);
      var b := Bullet(g[|g| - 1], r.end);
      Run(r.cmds + b.cmds, b.end)
  }

  /** A group's heading: dot, connecting line (not for the last group), label. */
  function GroupHead(heading: string, y: int, last: bool): seq<Cmd>
  {
    [Fill(Purple), Dot(TimelineX, y)]
    + (if last then [] else [Line(TimelineX, y, TimelineX, y + 12)])
    + [Text(heading, At(TimelineX + 5), y + 1)]
  }

  /** One group; nothing at all when it is empty, and a 3-unit gap after it
      unless it is the last (evening) group. */
  function Group(heading: string, g: seq<Activity>, y: int, last: bool): Run
  {
    if g == [] then Run([], y)
    else
      var b := Bullets(g, y);
      Run(GroupHead(heading, y, last) + b.cmds, if last then b.end else b.end + 3)
  }

  /** The whole timeline of a day, starting with `timelineY = y`. */
  function DayTimeline(acts: seq<Activity>, y: int): Run
  {
    var m := Group("Morning", OfKind(acts, Morning), y, false);
    var a := Group("Afternoon", OfKind(acts, Afternoon), m.end, false);
    var e := Group("Evening", OfKind(acts, Evening), a.end, true);
    Run(m.cmds + a.cmds + e.cmds, e.end)
  }

  // ---- The timeline's height, stated activity by activity ----

  function ActivityHeight(a: Activity): nat
  {
    if a.description != "" then 10 else 6
  }

  predicate OnTimeline(a: Activity)
  {
    a.kind == Morning || a.kind == Afternoon || a.kind == Evening
  }

  predicate HasKind(acts: seq<Activity>, kind: string)
  {
    exists i | 0 <= i < |acts| :: acts[i].kind == kind
  }

  /** Sum of the heights of all activities, in any group. */
  function Heights(g: seq<Activity>): nat
    decreases |g|
  {
    if g == [] then 0 else Heights(g[..|g| - 1]) + ActivityHeight(g[|g| - 1])
  }

  /** Sum of the heights of the activities that belong to one of the groups. */
  function ScheduledHeight(acts: seq<Activity>): nat
    decreases |acts|
  {
    if acts == [] then 0
    else
      var last := acts[|acts| - 1];
      ScheduledHeight(acts[..|acts| - 1]) + (if OnTimeline(last) then ActivityHeight(last) else 0)
  }

  /** The height a day's timeline takes: 6 per grouped activity, 4 more per
      description, and 3 after a non-empty morning or afternoon group. */
  function TimelineHeight(acts: seq<Activity>): nat
  {
    ScheduledHeight(acts)
    + (if HasKind(acts, Morning) then 3 else 0)
    + (if HasKind(acts, Afternoon) then 3 else 0)
  }

  lemma {:induction false} BulletsEnd(g: seq<Activity>, y: int)
    ensures Bullets(g, y).end == y + Heights(g)
    decreases |g|
  {
    if g != [] {
      BulletsEnd(g[..|g| - 1], y);
    }
  }

  lemma {:induction false} OfKindHeights(acts: seq<Activity>)
    ensures Heights(OfKind(acts, Morning)) + Heights(OfKind(acts, Afternoon)) + Heights(OfKind(acts, Evening))
            == ScheduledHeight(acts)
    decreases |acts|
  {
    if acts != [] {
      var init, last := acts[..|acts| - 1], acts[|acts| - 1];
      OfKindHeights(init);
      forall k | k in [Morning, Afternoon, Evening]
        ensures Heights(OfKind(acts, k)) == Heights(OfKind(init, k)) + if last.kind == k then ActivityHeight(last) else 0
      {
        var g := OfKind(init, k);
        if last.kind == k {
          assert (g + [last])[..|g|] == g;
        } else {
          assert OfKind(acts, k) == g;
        }
      }
    }
  }

  lemma {:induction false} OfKindEmpty(acts: seq<Activity>, kind: string)
    ensures OfKind(acts, kind) == [] <==> !HasKind(acts, kind)
    decreases |acts|
  {
    if acts != [] {
      var init := acts[..|acts| - 1];
      OfKindEmpty(init, kind);
      if HasKind(init, kind) {
        var i :| 0 <= i < |init| && init[i].kind == kind;
        assert acts[i].kind == kind;
      }
      if HasKind(acts, kind) && acts[|acts| - 1].kind != kind {
        var i :| 0 <= i < |acts| && acts[i].kind == kind;
        assert init[i].kind == kind;
      }
    }
  }

  /** The drawn timeline ends exactly `TimelineHeight` below where it began. */
  lemma TimelineHeightSpec(acts: seq<Activity>, y: int)
    ensures DayTimeline(acts, y).end == y + TimelineHeight(acts)
  {
    var m, a, e := OfKind(acts, Morning), OfKind(acts, Afternoon), OfKind(acts, Evening);
    var rm := Group("Morning", m, y, false);
    var ra := Group("Afternoon", a, rm.end, false);
    BulletsEnd(m, y);
    BulletsEnd(a, rm.end);
    BulletsEnd(e, ra.end);
    OfKindHeights(acts);
    OfKindEmpty(acts, Morning);
    OfKindEmpty(acts, Afternoon);
  }

  // ---- Which group headings appear ----

  /** The group headings among `cmds`, in drawing order. */
  function Headings(cmds: seq<Cmd>): seq<string>
    decreases |cmds|
  {
    if cmds == [] then []
    else
      var c := cmds[|cmds| - 1];
      Headings(cmds[..|cmds| - 1]) + (if c.Text? && c.at == At(TimelineX + 5) then [c.s] else [])
  }

  lemma {:induction false} HeadingsAppend(a: seq<Cmd>, b: seq<Cmd>)
    ensures Headings(a + b) == Headings(a) + Headings(b)
    decreases |b|
  {
    if b == [] {
      assert a + b == a;
    } else {
      var init := b[..|b| - 1];
      assert (a + b)[..|a + b| - 1] == a + init;
      assert (a + b)[|a + b| - 1] == b[|b| - 1];
      HeadingsAppend(a, init);
    }
  }

  lemma {:induction false} BulletsHaveNoLabel(g: seq<Activity>, y: int)
    ensures Headings(Bullets(g, y).cmds) == []
    decreases |g|
  {
    if g != [] {
      var r := Bullets(g[..|g| - 1], y);
      var b := Bullet(g[|g| - 1], r.end);
      BulletsHaveNoLabel(g[..|g| - 1], y);
      HeadingsAppend(r.cmds, b.cmds);
      assert Headings([b.cmds[0]]) == [];
      if |b.cmds| == 2 {
        assert b.cmds[..1] == [b.cmds[0]];
        assert Headings(b.cmds) == Headings([b.cmds[0]]);
      } else {
        assert b.cmds == [b.cmds[0]];
      }
    }
  }

  lemma GroupHeadings(heading: string, g: seq<Activity>, y: int, last: bool)
    ensures Headings(Group(heading, g, y, last).cmds) == if g == [] then [] else [heading]
  {
    if g != [] {
      var head := GroupHead(heading, y, last);
      BulletsHaveNoLabel(g, y);
      HeadingsAppend(head, Bullets(g, y).cmds);
      var dots := [Fill(Purple), Dot(TimelineX, y)];
      assert Headings([Fill(Purple)]) == [];
      assert dots[..1] == [Fill(Purple)];
      assert Headings(dots) == [];
      var lines: seq<Cmd> := if last then [] else [Line(TimelineX, y, TimelineX, y + 12)];
      if !last {
        assert (dots + lines)[..2] == dots;
      } else {
        assert dots + lines == dots;
      }
      assert Headings(dots + lines) == [];
      assert head == dots + lines + [Text(heading, At(TimelineX + 5), y + 1)];
      assert head[..|head| - 1] == dots + lines;
    }
  }

  /** The headings drawn are Morning, Afternoon, Evening in that order, each
      exactly when the day has an activity of that type. */
  lemma TimelineHeadings(acts: seq<Activity>, y: int)
    ensures Headings(DayTimeline(acts, y).cmds)
            == (if HasKind(acts, Morning) then ["Morning"] else [])
             + (if HasKind(acts, Afternoon) then ["Afternoon"] else [])
             + (if HasKind(acts, Evening) then ["Evening"] else [])
  {
    var m, a, e := OfKind(acts, Morning), OfKind(acts, Afternoon), OfKind(acts, Evening);
    var rm := Group("Morning", m, y, false);
    var ra := Group("Afternoon", a, rm.end, false);
    var re := Group("Evening", e, ra.end, true);
    GroupHeadings("Morning", m, y, false);
    GroupHeadings("Afternoon", a, rm.end, false);
    GroupHeadings("Evening", e, ra.end, true);
    HeadingsAppend(rm.cmds + ra.cmds, re.cmds);
    HeadingsAppend(rm.cmds, ra.cmds);
    OfKindEmpty(acts, Morning);
    OfKindEmpty(acts, Afternoon);
    OfKindEmpty(acts, Evening);
  }
}
