/**
 * Properties of SimplePropertyDrawer's operations: the width limit of
 * DrawField, how fields, labels, spaces and foldouts advance the cursor and
 * grow the current frame, and the height one pass reports.
 */
module SimpleDrawerProperties {
  import opened Layout
  import opened SimpleDrawer
  import LayoutProperties

  /** DrawField restores the cached field width before recording, so the width limit leaves no trace. */
  lemma DrawFieldIgnoresLimit(s: DrawerState, h: real, limitFieldWidth: int, screenWidth: int)
    requires |s.frames| > 0
    ensures FieldDrawn(s, h, limitFieldWidth, screenWidth) == FieldDrawn(s, h, 0, screenWidth)
  {
  }

  /**
   * With a field width inside the screen bound, DrawField keeps that width
   * and: in a Vertical frame moves down by the host height plus the line gap
   * and adds it to the frame's height; in a Horizontal frame moves right by
   * the field width, adds it to the frame's width and keeps the taller height.
   */
  lemma DrawFieldAdvances(s: DrawerState, h: real, limitFieldWidth: int, screenWidth: int)
    requires |s.frames| > 0 && 0.0 < FieldWidth(s) <= (screenWidth - ScreenMargin) as real
    ensures var r := FieldDrawn(s, h, limitFieldWidth, screenWidth);
            var t := Top(s.frames);
            var fw := FieldWidth(s);
            && r == s.(frames := r.frames, cursor := r.cursor, storedFieldWidth := fw)
            && |r.frames| == |s.frames| && r.frames[..|r.frames| - 1] == s.frames[..|s.frames| - 1]
            && FieldWidth(r) == fw && r.cursor.width == fw && r.cursor.height == s.cursor.height
            && (t.direction == Vertical ==>
                  r.cursor.x == s.cursor.x && r.cursor.y == s.cursor.y + h + LineSpaceHeight &&
                  Top(r.frames) == t.(height := t.height + h + LineSpaceHeight, width := Max(fw, t.width)))
            && (t.direction == Horizontal ==>
                  r.cursor.x == s.cursor.x + fw && r.cursor.y == s.cursor.y &&
                  Top(r.frames) == t.(height := Max(h, t.height), width := t.width + fw))
  {
  }

  /**
   * DrawLabel records max(fixed height, font size), remembers it as the last
   * field height, and leaves the cursor's height as it found it.
   */
  lemma DrawLabelKeepsCursorHeight(s: DrawerState, fontSize: int, fixedHeight: int)
    requires |s.frames| > 0
    ensures var r := LabelDrawn(s, fontSize, fixedHeight);
            var t := Top(s.frames);
            var h := LabelHeightFor(fontSize, fixedHeight);
            && r.cursor.height == s.cursor.height && r.cursor.width == s.cursor.width
            && r.lastFieldHeight == h && h >= fontSize as real
            && r == s.(frames := r.frames, cursor := r.cursor, lastFieldHeight := h)
            && (t.direction == Vertical ==>
                  r.cursor.y == s.cursor.y + h + LineSpaceHeight && Top(r.frames).height == t.height + h + LineSpaceHeight)
            && (t.direction == Horizontal ==>
                  r.cursor.x == s.cursor.x + FieldWidth(s) && Top(r.frames).height == Max(h, t.height))
  {
  }

  /** DrawSpace(h) moves down by h in either direction and remembers h as the last field height. */
  lemma DrawSpaceMovesDown(s: DrawerState, h: int)
    requires |s.frames| > 0
    ensures var r := SpaceDrawn(s, h);
            var t := Top(s.frames);
            && r.cursor == s.cursor.(y := s.cursor.y + h as real)
            && r.lastFieldHeight == h as real
            && (t.direction == Vertical ==> Top(r.frames).height == t.height + h as real)
            && (t.direction == Horizontal ==> Top(r.frames).height == Max(h as real, t.height))
  {
  }

  /**
   * A closed foldout takes one default space (16); an open one with an
   * empty callback takes 16 + 3 + 3, of which only the 16 is remembered.
   */
  lemma FoldoutHeights(s: DrawerState, body: seq<Op>, screenWidth: int)
    requires |s.frames| > 0 && Top(s.frames).direction == Vertical
    ensures var closed := FoldoutDrawn(s, false, body, screenWidth);
            && closed.Some? && |closed.value.frames| == |s.frames|
            && Top(closed.value.frames).height == Top(s.frames).height + 16.0
            && closed.value.cursor.y == s.cursor.y + 16.0
            && closed.value.lastFieldHeight == 16.0
    ensures var open := FoldoutDrawn(s, true, [], screenWidth);
            && open.Some? && |open.value.frames| == |s.frames|
            && Top(open.value.frames).height == Top(s.frames).height + 22.0
            && open.value.cursor.y == s.cursor.y + 22.0
            && open.value.lastFieldHeight == 16.0
  {
  }

  /**
   * An open foldout brackets its callback with two spaces of 3 that are not
   * remembered as the last field height: the callback starts 19 below and
   * the foldout ends 3 below where the callback left the cursor.
   */
  lemma OpenFoldoutBracketsBody(s: DrawerState, body: seq<Op>, screenWidth: int)
    requires |s.frames| > 0
    ensures var inner := Run(Spaced(Spaced(s, DefaultSpaceHeight, true), FoldoutEndSpace, false), body, screenWidth);
            var r := FoldoutDrawn(s, true, body, screenWidth);
            && (r.Some? <==> inner.Some? && |inner.value.frames| > 0)
            && (r.Some? ==>
                  r.value.cursor == inner.value.cursor.(y := inner.value.cursor.y + 3.0) &&
                  r.value.lastFieldHeight == inner.value.lastFieldHeight &&
                  Top(r.value.frames) == AdjustedHeight(Top(inner.value.frames), 3.0))
  {
  }

  /**
   * One pass on an empty stack: BeginProperty, one DrawField of host height
   * h, EndProperty. The root frame is closed, the accumulated height is
   * h + 4 and GetPropertyHeight reports h + 4 + 16.
   */
  lemma SingleFieldPass(s: DrawerState, position: Rect, h: real, limitFieldWidth: int, screenWidth: int)
    requires s.frames == []
    ensures var begun := PropertyBegun(s, position);
            var drawn := FieldDrawn(begun, h, limitFieldWidth, screenWidth);
            var r := PropertyEnded(drawn, VerticalEndError);
            && r.frames == [] && r.log == s.log
            && r.propertyHeight == h + LineSpaceHeight
            && ReportedHeight(r) == h + LineSpaceHeight + DefaultPositionHeight
            && r.cursor.y == position.y + h + LineSpaceHeight
  {
    var begun := PropertyBegun(s, position);
    LayoutProperties.BeginPropertyPushesRoot(s, position);
    var drawn := FieldDrawn(begun, h, limitFieldWidth, screenWidth);
    assert |drawn.frames| == 1 && Top(drawn.frames).direction == Vertical;
    assert Top(drawn.frames).height == h + LineSpaceHeight;
    LayoutProperties.EndPropertyAddsTopHeight(drawn, VerticalEndError);
  }

  /** A pass with nothing drawn reports one default line. */
  lemma EmptyPass(s: DrawerState, position: Rect)
    requires s.frames == []
    ensures var r := PropertyEnded(PropertyBegun(s, position), VerticalEndError);
            r.frames == [] && r.propertyHeight == 0.0 && ReportedHeight(r) == DefaultPositionHeight
  {
    LayoutProperties.BeginPropertyPushesRoot(s, position);
    LayoutProperties.EndPropertyAddsTopHeight(PropertyBegun(s, position), VerticalEndError);
  }

  /** EndVertical cannot close the root that BeginProperty pushed: with only the root open it logs the error. */
  lemma EndVerticalAtRootLogs(s: DrawerState, position: Rect)
    requires s.frames == []
    ensures var b := PropertyBegun(s, position);
            Ended(b, Vertical, 1, VerticalEndError) == b.(log := b.log + [VerticalEndError])
  {
    assert Find(PropertyBegun(s, position).frames, Vertical, 1) == None;
  }

  /** Running two callbacks one after the other is running their concatenation; a failure in the first skips the second. */
  lemma {:induction false} RunAppend(s: DrawerState, a: seq<Op>, b: seq<Op>, screenWidth: int)
    ensures Run(s, a + b, screenWidth) ==
            match Run(s, a, screenWidth)
            case None => None
            case Some(m) => Run(m, b, screenWidth)
    decreases |a|
  {
    if a == [] {
      assert a + b == b;
    } else {
      assert (a + b)[0] == a[0] && (a + b)[1..] == a[1..] + b;
      match Step(s, a[0], screenWidth)
      case None =>
      case Some(next) => RunAppend(next, a[1..], b, screenWidth);
    }
  }
}
