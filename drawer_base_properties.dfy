/**
 * Properties of PropertyDrawerBase's operations: fields sized by the
 * fieldHeight getter, labels at least that tall, DrawSpace always 16, and a
 * reported height that subtracts the last field, label or space.
 */
module DrawerBaseProperties {
  import opened Layout
  import opened DrawerBase
  import LayoutProperties

  /** The public DrawSpace ignores its argument: every call spaces by 16 and remembers 16. */
  lemma DrawSpaceIgnoresArgument(s: DrawerState, a: int, b: int)
    requires |s.frames| > 0
    ensures SpaceDrawn(s, a) == SpaceDrawn(s, b)
    ensures var r := SpaceDrawn(s, a);
            && r.cursor == s.cursor.(y := s.cursor.y + 16.0)
            && r.lastFieldHeight == 16.0
            && (Top(s.frames).direction == Vertical ==> Top(r.frames).height == Top(s.frames).height + 16.0)
  {
  }

  /**
   * DrawField records a field as tall as the fieldHeight getter: in a
   * Vertical frame down by that height plus the line gap, in a Horizontal
   * frame right by the field width. It does not touch the last field height.
   */
  lemma DrawFieldUsesFieldHeight(s: DrawerState)
    requires |s.frames| > 0
    ensures var r := FieldDrawn(s);
            var t := Top(s.frames);
            var fh := StoredOrStartHeight(s);
            var fw := FieldWidth(s);
            && r == s.(frames := r.frames, cursor := r.cursor)
            && r.lastFieldHeight == s.lastFieldHeight
            && |r.frames| == |s.frames| && r.frames[..|r.frames| - 1] == s.frames[..|s.frames| - 1]
            && (t.direction == Vertical ==>
                  r.cursor == s.cursor.(y := s.cursor.y + fh + LineSpaceHeight) &&
                  Top(r.frames) == t.(height := t.height + fh + LineSpaceHeight, width := Max(fw, t.width)))
            && (t.direction == Horizontal ==>
                  r.cursor == s.cursor.(x := s.cursor.x + fw) &&
                  Top(r.frames) == t.(height := Max(fh, t.height), width := t.width + fw))
  {
  }

  /** After SetFieldHeight(h), a field in a Vertical frame adds h + 4 (h below 1 stands for 16). */
  lemma {:induction false} SetFieldHeightSizesFields(s: DrawerState, h: real)
    requires |s.frames| > 0 && Top(s.frames).direction == Vertical
    ensures var r := FieldDrawn(FieldHeightSet(s, h));
            var used := if h >= 1.0 then h else DefaultPositionHeight;
            && Top(r.frames).height == Top(s.frames).height + used + LineSpaceHeight
            && r.cursor.y == s.cursor.y + used + LineSpaceHeight
            && r.cursor.height == used
  {
    var sized := FieldHeightSet(s, h);
    DrawFieldUsesFieldHeight(sized);
  }

  /**
   * DrawLabel records max(fieldHeight, font size), remembers it as the
   * last field height, and leaves the cursor's height as it found it.
   */
  lemma DrawLabelKeepsCursorHeight(s: DrawerState, fontSize: int)
    requires |s.frames| > 0
    ensures var r := LabelDrawn(s, fontSize);
            var t := Top(s.frames);
            var h := LabelHeightFor(s, fontSize);
            && r.cursor.height == s.cursor.height && r.cursor.width == s.cursor.width
            && r.lastFieldHeight == h && h >= StoredOrStartHeight(s)
            && r == s.(frames := r.frames, cursor := r.cursor, lastFieldHeight := h)
            && (t.direction == Vertical ==>
                  r.cursor.y == s.cursor.y + h + LineSpaceHeight && Top(r.frames).height == t.height + h + LineSpaceHeight)
            && (t.direction == Horizontal ==>
                  r.cursor.x == s.cursor.x + FieldWidth(s) && Top(r.frames).height == Max(h, t.height))
  {
  }

  /**
   * A closed foldout takes one default space (16); an open one with an
   * empty callback takes 16 + 3 + 3, of which only the 16 is remembered.
   */
  lemma FoldoutHeights(s: DrawerState, body: seq<Op>, screenWidth: int)
    requires |s.frames| > 0 && Top(s.frames).direction == Vertical
    ensures var closed := FoldoutDrawn(s, false, body, screenWidth);
            && closed.Some? && |closed.value.frames| == |s.frames|
            && Top(closed.value.frames).height == Top(s.frames).height + 16.0
            && closed.value.cursor.y == s.cursor.y + 16.0
            && closed.value.lastFieldHeight == 16.0
    ensures var open := FoldoutDrawn(s, true, [], screenWidth);
            && open.Some? && |open.value.frames| == |s.frames|
            && Top(open.value.frames).height == Top(s.frames).height + 22.0
            && open.value.cursor.y == s.cursor.y + 22.0
            && open.value.lastFieldHeight == 16.0
  {
  }

  /**
   * One pass on an empty stack that draws a single label: the label's own
   * height cancels in GetPropertyHeight, which reports the host's height
   * plus the line gap, whatever the font size.
   */
  lemma SingleLabelPass(s: DrawerState, position: Rect, fontSize: int, hostHeight: real)
    requires s.frames == []
    ensures var begun := PropertyBegun(s, position);
            var r := PropertyEnded(LabelDrawn(begun, fontSize), VerticalEndError);
            && r.frames == [] && r.log == s.log
            && r.propertyHeight == LabelHeightFor(begun, fontSize) + LineSpaceHeight
            && ReportedHeight(r, hostHeight) == hostHeight + LineSpaceHeight
  {
    var begun := PropertyBegun(s, position);
    LayoutProperties.BeginPropertyPushesRoot(s, position);
    var drawn := LabelDrawn(begun, fontSize);
    DrawLabelKeepsCursorHeight(begun, fontSize);
    assert |drawn.frames| == 1 && Top(drawn.frames).direction == Vertical;
    LayoutProperties.EndPropertyAddsTopHeight(drawn, VerticalEndError);
  }

  /**
   * One pass on an empty stack that draws a single field: DrawField does
   * not update the last field height and BeginProperty does not reset it,
   * so GetPropertyHeight subtracts whatever the previous pass left there.
   */
  lemma SingleFieldPass(s: DrawerState, position: Rect, hostHeight: real)
    requires s.frames == []
    ensures var begun := PropertyBegun(s, position);
            var r := PropertyEnded(FieldDrawn(begun), VerticalEndError);
            var fh := StoredOrStartHeight(begun);
            && r.frames == [] && r.log == s.log
            && r.propertyHeight == fh + LineSpaceHeight
            && ReportedHeight(r, hostHeight) == hostHeight + fh + LineSpaceHeight - s.lastFieldHeight
  {
    var begun := PropertyBegun(s, position);
    LayoutProperties.BeginPropertyPushesRoot(s, position);
    var drawn := FieldDrawn(begun);
    DrawFieldUsesFieldHeight(begun);
    assert |drawn.frames| == 1 && Top(drawn.frames).direction == Vertical;
    LayoutProperties.EndPropertyAddsTopHeight(drawn, VerticalEndError);
  }

  /**
   * An open foldout brackets its callback with two spaces of 3 that are not
   * remembered as the last field height: the callback starts 19 below and
   * the foldout ends 3 below where the callback left the cursor.
   */
  lemma OpenFoldoutBracketsBody(s: DrawerState, body: seq<Op>, screenWidth: int)
    requires |s.frames| > 0
    ensures var inner := Run(Spaced(Spaced(s, DefaultSpaceHeight, true), FoldoutEndSpace, false), body, screenWidth);
            var r := FoldoutDrawn(s, true, body, screenWidth);
            && (r.Some? <==> inner.Some? && |inner.value.frames| > 0)
            && (r.Some? ==>
                  r.value.cursor == inner.value.cursor.(y := inner.value.cursor.y + 3.0) &&
                  r.value.lastFieldHeight == inner.value.lastFieldHeight &&
                  Top(r.value.frames) == AdjustedHeight(Top(inner.value.frames), 3.0))
  {
  }

  /** Running two callbacks one after the other is running their concatenation; a failure in the first skips the second. */
  lemma {:induction false} RunAppend(s: DrawerState, a: seq<Op>, b: seq<Op>, screenWidth: int)
    ensures Run(s, a + b, screenWidth) ==
            match Run(s, a, screenWidth)
            case None => None
            case Some(m) => Run(m, b, screenWidth)
    decreases |a|
  {
    if a == [] {
      assert a + b == b;
    } else {
      assert (a + b)[0] == a[0] && (a + b)[1..] == a[1..] + b;
      match Step(s, a[0], screenWidth)
      case None =>
      case Some(next) => RunAppend(next, a[1..], b, screenWidth);
    }
  }
}
