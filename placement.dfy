/** Where the tooltip goes: the geometry of each side, the viewport test, and
    the side that the placement fallback of Tooltip.js finally settles on. */
module Placement {
  import opened Modifiers

  datatype Side = Top | Bottom | Left | Right

  /** The word used for a side in modifiers and class names. */
  function SideName(side: Side): string {
    match side
    case Top => "top"
    case Bottom => "bottom"
    case Left => "left"
    case Right => "right"
  }

  /** The class list preAlign gives the tooltip for a position. */
  function ClassName(position: string): string {
    "p-tooltip p-component p-tooltip-" + position
  }

  function SideClass(side: Side): string {
    ClassName(SideName(side))
  }

  /** The four side classes are pairwise different (their suffixes have
      different lengths), so the class name determines the side. */
  lemma SideClassInjective(a: Side, b: Side)
    ensures SideClass(a) == SideClass(b) <==> a == b
  {
  }

  datatype Size = Size(width: real, height: real)
  datatype Rect = Rect(left: real, top: real, width: real, height: real)
  datatype Point = Point(left: real, top: real)

  /** What the DOM measures while the tooltip is aligned: the host's bounding
      client rectangle (with its outer width and height), the window scroll,
      the viewport, and the tooltip's outer size under each class it can carry
      (the side classes give the tooltip different padding). The size under a
      class is taken to be the same wherever the tooltip stands: parked at
      (-999, -999) by preAlign or at its final position. */
  datatype Layout = Layout(
    host: Rect,
    scrollLeft: real,
    scrollTop: real,
    viewport: Size,
    tipTop: Size,
    tipBottom: Size,
    tipLeft: Size,
    tipRight: Size,
    tipBare: Size)

  /** getOuterWidth/getOuterHeight of the tooltip under a given class list. */
  function MeasureTip(layout: Layout, className: string): Size {
    if className == SideClass(Top) then layout.tipTop
    else if className == SideClass(Bottom) then layout.tipBottom
    else if className == SideClass(Left) then layout.tipLeft
    else if className == SideClass(Right) then layout.tipRight
    else layout.tipBare
  }

  function TipSize(layout: Layout, side: Side): Size {
    MeasureTip(layout, SideClass(side))
  }

  /** getHostOffset: the host's position in document coordinates, that is its
      client position moved by the window scroll. */
  function HostOffset(layout: Layout): (p: Point)
    ensures p.left - layout.scrollLeft == layout.host.left
    ensures p.top - layout.scrollTop == layout.host.top
  {
    Point(layout.host.left + layout.scrollLeft, layout.host.top + layout.scrollTop)
  }

  /** The tooltip's top-left corner, in document coordinates, for each side
      (alignTop, alignBottom, alignLeft, alignRight). */
  function Position(side: Side, layout: Layout): (p: Point)
    // top: the tooltip's bottom edge meets the host's top edge
    ensures side == Top ==> p.top + TipSize(layout, Top).height == HostOffset(layout).top
    // bottom: the tooltip's top edge meets the host's bottom edge
    ensures side == Bottom ==> p.top == HostOffset(layout).top + layout.host.height
    // left: the tooltip's right edge meets the host's left edge
    ensures side == Left ==> p.left + TipSize(layout, Left).width == HostOffset(layout).left
    // right: the tooltip's left edge meets the host's right edge
    ensures side == Right ==> p.left == HostOffset(layout).left + layout.host.width
    // above or below, the centres line up horizontally
    ensures side == Top || side == Bottom ==>
      p.left + TipSize(layout, side).width / 2.0 == HostOffset(layout).left + layout.host.width / 2.0
    // beside, the centres line up vertically
    ensures side == Left || side == Right ==>
      p.top + TipSize(layout, side).height / 2.0 == HostOffset(layout).top + layout.host.height / 2.0
  {
    var offset := HostOffset(layout);
    var tip := TipSize(layout, side);
    match side
    case Top => Point(offset.left + (layout.host.width - tip.width) / 2.0, offset.top - tip.height)
    case Bottom => Point(offset.left + (layout.host.width - tip.width) / 2.0, offset.top + layout.host.height)
    case Left => Point(offset.left - tip.width, offset.top + (layout.host.height - tip.height) / 2.0)
    case Right => Point(offset.left + layout.host.width, offset.top + (layout.host.height - tip.height) / 2.0)
  }

  /** The tooltip container's inline style and class list. A position that was
      never written is None. */
  datatype TipStyle = TipStyle(left: Option<real>, top: Option<real>, className: string)

  /** The tooltip as alignTop/Bottom/Left/Right leave it. */
  function Placed(side: Side, layout: Layout): TipStyle {
    var p := Position(side, layout);
    TipStyle(Some(p.left), Some(p.top), SideClass(side))
  }

  /** The tooltip's bounding client rectangle. The container is absolutely
      positioned in the document body, so its viewport position is its style
      position less the window scroll. */
  function ClientRect(style: TipStyle, layout: Layout): Rect
    requires style.left.Some? && style.top.Some?
  {
    var size := MeasureTip(layout, style.className);
    Rect(style.left.value - layout.scrollLeft, style.top.value - layout.scrollTop, size.width, size.height)
  }

  /** `r` lies within [0, viewport.width] x [0, viewport.height]. */
  predicate Inside(r: Rect, viewport: Size) {
    0.0 <= r.left && r.left + r.width <= viewport.width &&
    0.0 <= r.top && r.top + r.height <= viewport.height
  }

  /** isOutOfBounds: some edge of the tooltip leaves the viewport. */
  function IsOutOfBounds(style: TipStyle, layout: Layout): (r: bool)
    requires style.left.Some? && style.top.Some?
    ensures r <==> !Inside(ClientRect(style, layout), layout.viewport)
  {
    var rect := ClientRect(style, layout);
    rect.left + rect.width > layout.viewport.width || rect.left < 0.0 ||
    rect.top < 0.0 || rect.top + rect.height > layout.viewport.height
  }

  /** The tooltip placed on `side` is within the viewport. */
  predicate Fits(side: Side, layout: Layout) {
    !IsOutOfBounds(Placed(side, layout), layout)
  }

  /** The tooltip, centred on the host along one axis, stays within
      [0, extent] on that axis. */
  predicate CentredWithin(start: real, hostExtent: real, tipExtent: real, extent: real) {
    0.0 <= start + (hostExtent - tipExtent) / 2.0 && start + (hostExtent + tipExtent) / 2.0 <= extent
  }

  /** Fitting on a side means there is room for the tooltip between the host
      and that edge of the viewport, and room for it across. For a given
      position of the host in the viewport, the window scroll plays no part. */
  lemma FitsGeometry(side: Side, layout: Layout)
    ensures var h := layout.host; var v := layout.viewport; var t := TipSize(layout, side);
      Fits(side, layout) <==>
        match side
        case Top => t.height <= h.top <= v.height && CentredWithin(h.left, h.width, t.width, v.width)
        case Bottom => 0.0 <= h.top + h.height && h.top + h.height + t.height <= v.height &&
                       CentredWithin(h.left, h.width, t.width, v.width)
        case Left => t.width <= h.left <= v.width && CentredWithin(h.top, h.height, t.height, v.height)
        case Right => 0.0 <= h.left + h.width && h.left + h.width + t.width <= v.width &&
                      CentredWithin(h.top, h.height, t.height, v.height)
  {
  }

  /** The side the modifiers ask for: top beats left, left beats bottom, and
      without any of the three the tooltip goes to the right. */
  function Preferred(flags: Flags): Side {
    if Has(flags, "top") then Top
    else if Has(flags, "left") then Left
    else if Has(flags, "bottom") then Bottom
    else Right
  }

  function Opposite(side: Side): Side {
    match side
    case Top => Bottom
    case Bottom => Top
    case Left => Right
    case Right => Left
  }

  /** The sides align tries, in order: above or below, the preferred side and
      its opposite; beside, those two and then top and bottom. */
  function Attempts(preferred: Side): seq<Side> {
    if preferred == Top || preferred == Bottom then [preferred, Opposite(preferred)]
    else [preferred, Opposite(preferred), Top, Bottom]
  }

  /** The first side in `sides` on which the tooltip fits, if any. */
  function FirstFit(sides: seq<Side>, layout: Layout): (r: Option<Side>)
    ensures r.None? <==> forall i :: 0 <= i < |sides| ==> !Fits(sides[i], layout)
    ensures r.Some? ==> Fits(r.value, layout)
    ensures r.Some? ==>
      exists i :: 0 <= i < |sides| && sides[i] == r.value && forall j :: 0 <= j < i ==> !Fits(sides[j], layout)
  {
    if sides == [] then None
    else if Fits(sides[0], layout) then Some(sides[0])
    else
      var r := FirstFit(sides[1..], layout);
      assert forall i :: 0 < i < |sides| ==> sides[i] == sides[1..][i - 1];
      if r.Some? then
        var i :| 0 <= i < |sides[1..]| && sides[1..][i] == r.value &&
          Fits(r.value, layout) && forall j :: 0 <= j < i ==> !Fits(sides[1..][j], layout);
        assert sides[i + 1] == r.value;
        r
      else r
  }

  /** The side align finally leaves the tooltip on: the first attempt that
      fits, or the preferred side when none does. */
  function Chosen(flags: Flags, layout: Layout): Side {
    var preferred := Preferred(flags);
    match FirstFit(Attempts(preferred), layout)
    case Some(side) => side
    case None => preferred
  }

  /** Precedence of the modifiers. */
  lemma PreferredPrecedence(flags: Flags)
    ensures Preferred(flags) == Top <==> Has(flags, "top")
    ensures Preferred(flags) == Left <==> !Has(flags, "top") && Has(flags, "left")
    ensures Preferred(flags) == Bottom <==> !Has(flags, "top") && !Has(flags, "left") && Has(flags, "bottom")
    ensures Preferred(flags) == Right <==> !Has(flags, "top") && !Has(flags, "left") && !Has(flags, "bottom")
  {
  }

  /** Only `top`, `left` and `bottom` are read; in particular a `right`
      modifier changes nothing. */
  lemma PreferredReadsThreeFlags(flags: Flags, key: string, b: bool)
    requires key != "top" && key != "left" && key != "bottom"
    ensures Preferred(flags[key := b]) == Preferred(flags)
  {
  }

  /** With `top` or `bottom`: the preferred side if it fits, else the
      opposite side if that fits, else back to the preferred side. */
  lemma ChosenVertical(flags: Flags, layout: Layout)
    requires Preferred(flags) == Top || Preferred(flags) == Bottom
    ensures var p := Preferred(flags);
      Chosen(flags, layout) ==
        if Fits(p, layout) then p
        else if Fits(Opposite(p), layout) then Opposite(p)
        else p
  {
    var p := Preferred(flags);
    var a := Attempts(p);
    assert a[1..] == [Opposite(p)];
    if !Fits(p, layout) {
      assert FirstFit(a, layout) == FirstFit(a[1..], layout);
      if !Fits(Opposite(p), layout) {
        assert FirstFit(a[1..], layout) == FirstFit(a[1..][1..], layout);
        assert a[1..][1..] == [];
      }
    }
  }

  /** With `left`, or by default on the right: the preferred side, then its
      opposite, then top, then bottom; when none fits, the preferred side. */
  lemma ChosenSideways(flags: Flags, layout: Layout)
    requires Preferred(flags) == Left || Preferred(flags) == Right
    ensures var p := Preferred(flags);
      Chosen(flags, layout) ==
        if Fits(p, layout) then p
        else if Fits(Opposite(p), layout) then Opposite(p)
        else if Fits(Top, layout) then Top
        else if Fits(Bottom, layout) then Bottom
        else p
  {
    var p := Preferred(flags);
    var a0 := Attempts(p);
    var a1 := [Opposite(p), Top, Bottom];
    var a2 := [Top, Bottom];
    var a3 := [Bottom];
    assert a0[1..] == a1 && a1[1..] == a2 && a2[1..] == a3 && a3[1..] == [];
    if !Fits(p, layout) {
      assert FirstFit(a0, layout) == FirstFit(a1, layout);
      if !Fits(Opposite(p), layout) {
        assert FirstFit(a1, layout) == FirstFit(a2, layout);
        if !Fits(Top, layout) {
          assert FirstFit(a2, layout) == FirstFit(a3, layout);
          if !Fits(Bottom, layout) {
            assert FirstFit(a3, layout) == FirstFit([], layout);
          }
        }
      }
    }
  }

  /** The chosen side is always one of the attempts; when some attempt fits,
      the chosen side fits and every earlier attempt does not; when none fits,
      it is the preferred side. */
  lemma ChosenIsFirstFit(flags: Flags, layout: Layout)
    ensures var a := Attempts(Preferred(flags)); var c := Chosen(flags, layout);
      (exists i :: 0 <= i < |a| && a[i] == c) &&
      ((exists i :: 0 <= i < |a| && Fits(a[i], layout)) ==>
         Fits(c, layout) && exists i :: 0 <= i < |a| && a[i] == c && forall j :: 0 <= j < i ==> !Fits(a[j], layout)) &&
      ((forall i :: 0 <= i < |a| ==> !Fits(a[i], layout)) ==> c == Preferred(flags))
  {
    var a := Attempts(Preferred(flags));
    assert a[0] == Preferred(flags);
  }

  /** A tooltip that prefers top or bottom never ends up beside the host. */
  lemma VerticalStaysVertical(flags: Flags, layout: Layout)
    requires Preferred(flags) == Top || Preferred(flags) == Bottom
    ensures Chosen(flags, layout) == Top || Chosen(flags, layout) == Bottom
  {
  }

  /** For a given position of the host in the viewport, the window scroll
      does not change whether a side fits: the scroll getHostOffset adds is
      taken off again in the tooltip's client rectangle. */
  lemma FitsIgnoresScroll(side: Side, layout: Layout, scrollLeft: real, scrollTop: real)
    ensures Fits(side, layout) == Fits(side, layout.(scrollLeft := scrollLeft, scrollTop := scrollTop))
  {
  }

  /** Two layouts on which the same sides fit give the same first fit. */
  lemma FirstFitAgrees(sides: seq<Side>, layout: Layout, other: Layout)
    requires forall side :: Fits(side, layout) == Fits(side, other)
    ensures FirstFit(sides, layout) == FirstFit(sides, other)
  {
  }

  /** For a given position of the host in the viewport, the side chosen
      does not depend on the window scroll. */
  lemma ChosenIgnoresScroll(flags: Flags, layout: Layout, scrollLeft: real, scrollTop: real)
    ensures Chosen(flags, layout) == Chosen(flags, layout.(scrollLeft := scrollLeft, scrollTop := scrollTop))
  {
    var moved := layout.(scrollLeft := scrollLeft, scrollTop := scrollTop);
    forall side ensures Fits(side, layout) == Fits(side, moved) {
      FitsIgnoresScroll(side, layout, scrollLeft, scrollTop);
    }
    FirstFitAgrees(Attempts(Preferred(flags)), layout, moved);
  }

  /** An object argument `{position: s}` with no modifiers asks for side `s`. */
  lemma PositionArgPrefers(side: Side)
    ensures Preferred(GetModifiers(None, ObjectArg([("position", SideName(side))]))) == side
  {
  }
}
