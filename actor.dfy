/**
 * The overlay variant that follows the player: where its anchor lies on the
 * canvas, and which drawing calls one frame makes for the drops in flight.
 * Fonts, colours and the animator that moves the drops are abstracted: each
 * in-flight entry carries the text, colour, offsets and alpha the animator
 * and the font metrics give it.
 */
module ActorOverlay {
  import opened Wrappers

  /** The largest height above the player's tile the anchor is lifted to. */
  const MaxZOffset: int := 140

  datatype Point = Point(x: int, y: int)

  /** The local player as this overlay sees it: its logical height, and the
      host's projection onto the canvas of a text location lifted by a given
      height (absent when the point is not on screen). */
  datatype Player = Player(logicalHeight: int, project: int -> Option<Point>)

  /** The height offset of the anchor: the player's height, capped. */
  function ZOffset(logicalHeight: int): (z: int)
    ensures z <= MaxZOffset && z <= logicalHeight
    ensures z == logicalHeight || z == MaxZOffset
  {
    if logicalHeight < MaxZOffset then logicalHeight else MaxZOffset
  }

  /** The anchor of one frame: the projected point moved right by
      `offsetX` and up by `offsetY` (canvas y grows downwards). */
  function Anchor(player: Option<Player>, offsetX: int, offsetY: int): (a: Option<Point>)
    ensures player.None? ==> a.None?
    ensures player.Some? ==>
              (a.None? <==> player.value.project(ZOffset(player.value.logicalHeight)).None?)
    ensures a.Some? ==>
              player.Some? &&
              var p := player.value.project(ZOffset(player.value.logicalHeight));
              p.Some? && a.value.x == p.value.x + offsetX && a.value.y == p.value.y - offsetY
  {
    match player
    case None => None
    case Some(pl) =>
      match pl.project(ZOffset(pl.logicalHeight))
      case None => None
      case Some(p) => Some(Point(p.x + offsetX, p.y - offsetY))
  }

  datatype Rgba = Rgba(r: int, g: int, b: int, a: int)

  /** A handle on a skill icon bitmap. */
  datatype Icon = Icon(id: int)

  /** A drop in flight as the renderer reads it: the animation frame
      (negative once finished), its offsets from the anchor, the text and
      style colour chosen for it, its alpha and its icons. */
  datatype InFlight = InFlight(frame: int, xOffset: int, yOffset: int, text: string,
                               color: Rgba, alpha: int, icons: seq<Icon>)

  /** Font metrics: the maximum ascent, and the half width of a text,
      by which it is shifted left to be centred. */
  datatype Metrics = Metrics(maxAscent: int, halfWidth: string -> int)

  datatype DrawCmd =
    | DrawString(text: string, x: int, y: int, color: Rgba)
    | DrawIcons(icons: seq<Icon>, x: int, y: int, alpha: int)

  /** The three calls that draw one entry: its shadow, its text, its icons. */
  function EntryCommands(e: InFlight, anchorX: int, anchorY: int, m: Metrics): (cmds: seq<DrawCmd>)
    ensures |cmds| == 3 && cmds[0].DrawString? && cmds[1].DrawString? && cmds[2].DrawIcons?
    ensures cmds[1].text == e.text && cmds[1].color == Rgba(e.color.r, e.color.g, e.color.b, e.alpha)
    ensures cmds[1].x == anchorX + e.xOffset - m.halfWidth(e.text) && cmds[1].y == anchorY + e.yOffset
    ensures cmds[0] == DrawString(e.text, cmds[1].x + 1, cmds[1].y + 1, Rgba(0, 0, 0, e.alpha))
    ensures cmds[2] == DrawIcons(e.icons, cmds[1].x - 2, cmds[1].y - m.maxAscent, e.alpha)
  {
    var x := e.xOffset + anchorX - m.halfWidth(e.text);
    var y := e.yOffset + anchorY;
    [DrawString(e.text, x + 1, y + 1, Rgba(0, 0, 0, e.alpha)),
     DrawString(e.text, x, y, Rgba(e.color.r, e.color.g, e.color.b, e.alpha)),
     DrawIcons(e.icons, x - 2, y - m.maxAscent, e.alpha)]
  }

  /** The calls one frame makes for `entries`, in list order. */
  function DrawPlan(entries: seq<InFlight>, anchorX: int, anchorY: int, m: Metrics): seq<DrawCmd>
    decreases |entries|
  {
    if entries == [] then []
    else
      var e := entries[|entries| - 1];
      DrawPlan(entries[..|entries| - 1], anchorX, anchorY, m) +
      (if e.frame < 0 then [] else EntryCommands(e, anchorX, anchorY, m))
  }

  /** The entries that are still animating (frame not negative), in order. */
  function Live(entries: seq<InFlight>): (r: seq<InFlight>)
    ensures |r| <= |entries|
    ensures forall e :: e in r <==> e in entries && e.frame >= 0
    decreases |entries|
  {
    if entries == [] then []
    else
      var e := entries[|entries| - 1];
      Live(entries[..|entries| - 1]) + (if e.frame < 0 then [] else [e])
  }

  /** A frame draws exactly the live entries, three calls each, in order. */
  lemma {:induction false} DrawPlanDrawsLiveEntries(entries: seq<InFlight>, anchorX: int, anchorY: int, m: Metrics)
    ensures |DrawPlan(entries, anchorX, anchorY, m)| == 3 * |Live(entries)|
    ensures forall k :: 0 <= k < |Live(entries)| ==>
              DrawPlan(entries, anchorX, anchorY, m)[3 * k .. 3 * k + 3] ==
              EntryCommands(Live(entries)[k], anchorX, anchorY, m)
    decreases |entries|
  {
    if entries != [] {
      var n := |entries| - 1;
      var init := entries[..n];
      DrawPlanDrawsLiveEntries(init, anchorX, anchorY, m);
      var plan, live := DrawPlan(init, anchorX, anchorY, m), Live(init);
      if entries[n].frame >= 0 {
        var cmds := EntryCommands(entries[n], anchorX, anchorY, m);
        assert DrawPlan(entries, anchorX, anchorY, m) == plan + cmds;
        assert Live(entries) == live + [entries[n]];
        forall k | 0 <= k < |live| + 1
          ensures (plan + cmds)[3 * k .. 3 * k + 3] == EntryCommands((live + [entries[n]])[k], anchorX, anchorY, m)
        {
          SliceOfAppend(plan, cmds, k);
        }
      } else {
        assert DrawPlan(entries, anchorX, anchorY, m) == plan + [] == plan;
        assert Live(entries) == live + [] == live;
      }
    }
  }

  lemma SliceOfAppend(plan: seq<DrawCmd>, cmds: seq<DrawCmd>, k: int)
    requires |plan| % 3 == 0 && |cmds| == 3 && 0 <= k <= |plan| / 3
    ensures (plan + cmds)[3 * k .. 3 * k + 3] == if 3 * k < |plan| then plan[3 * k .. 3 * k + 3] else cmds
  {
  }

  /** Drawing a concatenation draws the first part, then the second. */
  lemma {:induction false} DrawPlanAppend(a: seq<InFlight>, b: seq<InFlight>, anchorX: int, anchorY: int, m: Metrics)
    ensures DrawPlan(a + b, anchorX, anchorY, m) == DrawPlan(a, anchorX, anchorY, m) + DrawPlan(b, anchorX, anchorY, m)
    decreases |b|
  {
    if b == [] {
      assert a + b == a;
    } else {
      var n := |b| - 1;
      assert (a + b)[..|a + b| - 1] == a + b[..n];
      DrawPlanAppend(a, b[..n], anchorX, anchorY, m);
    }
  }

  /** A frame whose entries have all finished draws nothing. */
  lemma {:induction false} FinishedEntriesDrawNothing(entries: seq<InFlight>, anchorX: int, anchorY: int, m: Metrics)
    requires forall i :: 0 <= i < |entries| ==> entries[i].frame < 0
    ensures DrawPlan(entries, anchorX, anchorY, m) == []
    decreases |entries|
  {
    if entries != [] {
      FinishedEntriesDrawNothing(entries[..|entries| - 1], anchorX, anchorY, m);
    }
  }

  /** The draw loop: skips finished entries and, for each other one, draws
      the shadow one pixel right and down, then the coloured text, then the
      icons two pixels left of the text and one ascent above its baseline. */
  method DrawXpDrops(entries: seq<InFlight>, anchorX: int, anchorY: int, m: Metrics) returns (cmds: seq<DrawCmd>)
    ensures cmds == DrawPlan(entries, anchorX, anchorY, m)
  {
    cmds := [];
    for i := 0 to |entries|
      invariant cmds == DrawPlan(entries[..i], anchorX, anchorY, m)
    {
      assert entries[..i + 1][..i] == entries[..i];
      var e := entries[i];
      if e.frame < 0 {
        continue;
      }
      var x := e.xOffset + anchorX - m.halfWidth(e.text);
      var y := e.yOffset + anchorY;
      cmds := cmds + [DrawString(e.text, x + 1, y + 1, Rgba(0, 0, 0, e.alpha))];
      cmds := cmds + [DrawString(e.text, x, y, Rgba(e.color.r, e.color.g, e.color.b, e.alpha))];
      cmds := cmds + [DrawIcons(e.icons, x - 2, y - m.maxAscent, e.alpha)];
    }
    assert entries[..|entries|] == entries;
  }

  /** One frame. Without an anchor (no player, or its point is off screen)
      the frame returns early: the animator's `update` step does not run,
      so the entries stay as they were, and nothing is drawn. Otherwise the
      entries are advanced by `update` and then drawn around the anchor. */
  method Render(player: Option<Player>, offsetX: int, offsetY: int, entries: seq<InFlight>,
                update: seq<InFlight> -> seq<InFlight>, m: Metrics)
    returns (anchor: Option<Point>, after: seq<InFlight>, cmds: seq<DrawCmd>)
    ensures anchor == Anchor(player, offsetX, offsetY)
    ensures anchor.None? ==> after == entries && cmds == []
    ensures anchor.Some? ==> after == update(entries)
    ensures anchor.Some? ==> cmds == DrawPlan(after, anchor.value.x, anchor.value.y, m)
  {
    if player.None? {
      return None, entries, [];
    }
    var point := player.value.project(ZOffset(player.value.logicalHeight));
    if point.None? {
      return None, entries, [];
    }
    var p := Point(point.value.x + offsetX, point.value.y - offsetY);
    anchor := Some(p);
    after := update(entries);
    cmds := DrawXpDrops(after, p.x, p.y, m);
  }
}
