/**
 * Properties of the layout stack shared by both drawers: what closing a
 * frame does to the stack and the cursor, the protection of the root frame,
 * the round trip of an empty group, and the sums and maxima a run of fields
 * leaves in a Vertical or Horizontal frame.
 */
module LayoutProperties {
  import opened Layout

  /** The result of an end call when nothing matches, and the depth it leaves. */
  lemma EndDepth(s: DrawerState, dir: Direction, stop: nat, error: string)
    ensures var r := Ended(s, dir, stop, error);
            && r == s.(frames := r.frames, cursor := r.cursor, log := r.log)
            && (Find(s.frames, dir, stop).None? ==> r == s.(log := s.log + [error]))
            && (Find(s.frames, dir, stop).Some? ==> |r.frames| == |s.frames| - 1 && r.log == s.log)
  {
  }

  /**
   * Closing with a stop index of 1, or looking for a direction the root does
   * not have, never removes the root frame: it stays at index 0 with its
   * origin and direction.
   */
  lemma RootSurvives(s: DrawerState, dir: Direction, stop: nat, error: string)
    requires |s.frames| > 0 && (stop >= 1 || s.frames[0].direction != dir)
    ensures var r := Ended(s, dir, stop, error);
            && |r.frames| > 0
            && r.frames[0].x == s.frames[0].x && r.frames[0].y == s.frames[0].y
            && r.frames[0].direction == s.frames[0].direction
  {
    match Find(s.frames, dir, stop)
    case None =>
    case Some(i) =>
      assert i > 0;
      var rest := s.frames[..i] + s.frames[i + 1..];
      assert rest[0] == s.frames[0];
  }

  /**
   * When the closed frame is the top and has a parent, the cursor moves:
   * under a Vertical parent to the parent's x and down by the closed frame's
   * height, under a Horizontal parent right by its width and to the parent's
   * y. Otherwise it stays. Its width and height never change.
   */
  lemma EndMovesCursor(s: DrawerState, dir: Direction, stop: nat, error: string)
    ensures var r := Ended(s, dir, stop, error);
            && r.cursor.width == s.cursor.width && r.cursor.height == s.cursor.height
            && (match Find(s.frames, dir, stop)
                case None => r.cursor == s.cursor
                case Some(i) =>
                  if 0 < i && i == |s.frames| - 1 then
                    var parent := s.frames[i - 1];
                    if parent.direction == Vertical then
                      r.cursor.x == parent.x && r.cursor.y == s.cursor.y + s.frames[i].height
                    else
                      r.cursor.x == s.cursor.x + s.frames[i].width && r.cursor.y == parent.y
                  else r.cursor == s.cursor)
  {
  }

  /**
   * Closing the top frame (not the root) folds its extents into its parent
   * by the parent's growth rule: under a Vertical parent the heights add and
   * the wider width wins; under a Horizontal parent the widths add and the
   * taller height wins. Nothing below the parent changes.
   */
  lemma {:induction false} CloseTopFoldsIntoParent(s: DrawerState, dir: Direction, stop: nat, error: string)
    requires |s.frames| > 1 && Top(s.frames).direction == dir && stop < |s.frames|
    ensures var r := Ended(s, dir, stop, error);
            var n := |s.frames|;
            var closed := s.frames[n - 1];
            var parent := s.frames[n - 2];
            && r.frames[..n - 2] == s.frames[..n - 2]
            && |r.frames| == n - 1
            && r.frames[n - 2] == Fold(parent, closed.width, closed.height)
            && (parent.direction == Vertical ==>
                  r.frames[n - 2].height == parent.height + closed.height &&
                  r.frames[n - 2].width == Max(closed.width, parent.width))
            && (parent.direction == Horizontal ==>
                  r.frames[n - 2].width == parent.width + closed.width &&
                  r.frames[n - 2].height == Max(closed.height, parent.height))
  {
    var n := |s.frames|;
    assert Find(s.frames, dir, stop) == Some(n - 1);
    assert s.frames[..n - 1] + s.frames[n..] == s.frames[..n - 1];
  }

  /**
   * Closing a frame that is not the top (the search skipped frames of the
   * other direction): the cursor stays, the closed frame's extents are
   * dropped, and the top folds its own extents into itself, so a Vertical
   * top doubles its height and a Horizontal top doubles its width.
   */
  lemma {:induction false} CloseBelowTopFoldsTopIntoItself(s: DrawerState, dir: Direction, stop: nat, error: string)
    requires Find(s.frames, dir, stop).Some?
    requires 0 < Find(s.frames, dir, stop).value < |s.frames| - 1
    ensures var r := Ended(s, dir, stop, error);
            var i := Find(s.frames, dir, stop).value;
            var top := Top(s.frames);
            && r.cursor == s.cursor
            && r.frames == s.frames[..i] + s.frames[i + 1..|s.frames| - 1] + [Fold(top, top.width, top.height)]
            && (top.direction == Vertical ==> Top(r.frames).height == 2.0 * top.height && Top(r.frames).width == top.width)
            && (top.direction == Horizontal ==> Top(r.frames).width == 2.0 * top.width && Top(r.frames).height == top.height)
  {
    var i := Find(s.frames, dir, stop).value;
    var rest := s.frames[..i] + s.frames[i + 1..];
    assert rest[|rest| - 1] == Top(s.frames);
    assert rest[..|rest| - 1] == s.frames[..i] + s.frames[i + 1..|s.frames| - 1];
  }

  /** Closing the root (index 0) removes it and folds nothing; the cursor stays. */
  lemma CloseRootFoldsNothing(s: DrawerState, dir: Direction, stop: nat, error: string)
    requires Find(s.frames, dir, stop) == Some(0)
    ensures var r := Ended(s, dir, stop, error);
            r.frames == s.frames[1..] && r.cursor == s.cursor
  {
  }

  /**
   * Begin followed by the matching end closes the group just opened: the
   * stack is as before (folding a 0 by 0 frame changes nothing when the
   * parent's extents are not negative) and only the cursor snaps to the
   * parent's x (Vertical parent) or y (Horizontal parent).
   */
  lemma {:induction false} BeginEndRoundTrip(s: DrawerState, dir: Direction, stop: nat, error: string)
    requires stop <= |s.frames|
    requires |s.frames| > 0 ==> Top(s.frames).width >= 0.0 && Top(s.frames).height >= 0.0
    ensures var r := Ended(Begun(s, dir), dir, stop, error);
            && r == s.(cursor := r.cursor)
            && (|s.frames| == 0 ==> r.cursor == s.cursor)
            && (|s.frames| > 0 && Top(s.frames).direction == Vertical ==> r.cursor == s.cursor.(x := Top(s.frames).x))
            && (|s.frames| > 0 && Top(s.frames).direction == Horizontal ==> r.cursor == s.cursor.(y := Top(s.frames).y))
  {
    var b := Begun(s, dir);
    var n := |s.frames|;
    assert Find(b.frames, dir, stop) == Some(n);
    assert b.frames[..n] + b.frames[n + 1..] == s.frames;
  }

  /** n BeginVertical calls. */
  function Opened(s: DrawerState, n: nat): DrawerState
  {
    if n == 0 then s else Begun(Opened(s, n - 1), Vertical)
  }

  /** n EndVertical calls. */
  function Closed(s: DrawerState, n: nat, error: string): DrawerState
    decreases n
  {
    if n == 0 then s else Closed(Ended(s, Vertical, 1, error), n - 1, error)
  }

  /** n BeginVertical calls push n empty Vertical frames at the cursor and change nothing else. */
  lemma {:induction false} OpenedShape(s: DrawerState, n: nat)
    ensures var r := Opened(s, n);
            && r == s.(frames := r.frames)
            && |r.frames| == |s.frames| + n
            && r.frames[..|s.frames|] == s.frames
            && forall k :: |s.frames| <= k < |r.frames| ==>
                 r.frames[k] == FrameValue(s.cursor.x, s.cursor.y, 0.0, 0.0, Vertical)
  {
    if n > 0 {
      OpenedShape(s, n - 1);
    }
  }

  /** EndVertical undoes the innermost of n (at least two) nested empty groups exactly, cursor included. */
  lemma {:induction false} EndUndoesInnerBegin(s: DrawerState, n: nat, error: string)
    requires n >= 2
    ensures Ended(Opened(s, n), Vertical, 1, error) == Opened(s, n - 1)
  {
    var t := Opened(s, n - 1);
    OpenedShape(s, n - 1);
    var b := Opened(s, n);
    var m := |t.frames|;
    assert b.frames == t.frames + [FrameValue(t.cursor.x, t.cursor.y, 0.0, 0.0, Vertical)];
    assert t.frames[m - 1] == FrameValue(s.cursor.x, s.cursor.y, 0.0, 0.0, Vertical);
    assert Find(b.frames, Vertical, 1) == Some(m);
    assert b.frames[..m] + b.frames[m + 1..] == t.frames;
  }

  lemma ClosedUnfold(s: DrawerState, n: nat, error: string)
    requires n >= 1
    ensures Closed(s, n, error) == Closed(Ended(s, Vertical, 1, error), n - 1, error)
  {
  }

  /** Closing n nested empty groups ends where closing one does. */
  lemma {:induction false} UnwindToOne(s: DrawerState, n: nat, error: string)
    requires n >= 1
    ensures Closed(Opened(s, n), n, error) == Closed(Opened(s, 1), 1, error)
    decreases n
  {
    if n > 1 {
      var nested := Opened(s, n);
      ClosedUnfold(nested, n, error);
      EndUndoesInnerBegin(s, n, error);
      assert Ended(nested, Vertical, 1, error) == Opened(s, n - 1);
      UnwindToOne(s, n - 1, error);
    }
  }

  /**
   * Opening n nested Vertical groups inside a root and closing them all
   * with EndVertical leaves the stack, the log and every size as they were;
   * only the cursor snaps to the enclosing frame's x (or y).
   */
  lemma NestedEmptyGroupsUnwind(s: DrawerState, n: nat, error: string)
    requires n >= 1 && |s.frames| > 0
    requires Top(s.frames).width >= 0.0 && Top(s.frames).height >= 0.0
    ensures var r := Closed(Opened(s, n), n, error);
            && r == s.(cursor := r.cursor)
            && (Top(s.frames).direction == Vertical ==> r.cursor == s.cursor.(x := Top(s.frames).x))
            && (Top(s.frames).direction == Horizontal ==> r.cursor == s.cursor.(y := Top(s.frames).y))
  {
    UnwindToOne(s, n, error);
    assert Opened(s, 1) == Begun(s, Vertical);
    assert Closed(Opened(s, 1), 1, error) == Ended(Begun(s, Vertical), Vertical, 1, error);
    BeginEndRoundTrip(s, Vertical, 1, error);
  }

  function Sum(hs: seq<real>): real
  {
    if hs == [] then 0.0 else hs[0] + Sum(hs[1..])
  }

  /** One field or label recorded per height in hs, in order. */
  function RecordedAll(s: DrawerState, hs: seq<real>): (r: DrawerState)
    requires |s.frames| > 0
    ensures |r.frames| == |s.frames|
    decreases |hs|
  {
    if hs == [] then s else RecordedAll(Recorded(s, hs[0]), hs[1..])
  }

  /** One recorded field, spelled out per direction; the field width is kept for the next field. */
  lemma RecordStep(s: DrawerState, h: real)
    requires |s.frames| > 0
    ensures var r := Recorded(s, h);
            var t := Top(s.frames);
            var fw := FieldWidth(s);
            && FieldWidth(r) == fw
            && (t.direction == Vertical ==>
                  r.cursor == s.cursor.(y := s.cursor.y + h + LineSpaceHeight) &&
                  Top(r.frames) == t.(height := t.height + h + LineSpaceHeight, width := Max(fw, t.width)))
            && (t.direction == Horizontal ==>
                  r.cursor == s.cursor.(x := s.cursor.x + fw) &&
                  Top(r.frames) == t.(height := Max(h, t.height), width := t.width + fw))
  {
  }

  /**
   * In a Vertical frame a run of fields adds each height plus the line gap
   * to the frame's height and moves the cursor down by the same total; the
   * frame's width becomes the larger of its width and the field width.
   */
  lemma {:induction false} VerticalRecordsSum(s: DrawerState, hs: seq<real>)
    requires |s.frames| > 0 && Top(s.frames).direction == Vertical
    ensures var r := RecordedAll(s, hs);
            var t := Top(s.frames);
            var total := Sum(hs) + |hs| as real * LineSpaceHeight;
            && r == s.(frames := r.frames, cursor := r.cursor)
            && r.frames[..|r.frames| - 1] == s.frames[..|s.frames| - 1]
            && Top(r.frames).height == t.height + total
            && Top(r.frames).width == (if hs == [] then t.width else Max(FieldWidth(s), t.width))
            && Top(r.frames).x == t.x && Top(r.frames).y == t.y && Top(r.frames).direction == Vertical
            && r.cursor == s.cursor.(y := s.cursor.y + total)
    decreases |hs|
  {
    if hs != [] {
      var s1 := Recorded(s, hs[0]);
      RecordStep(s, hs[0]);
      VerticalRecordsSum(s1, hs[1..]);
    }
  }

  /**
   * In a Horizontal frame a run of fields adds one field width per field to
   * the frame's width and moves the cursor right by the same total.
   */
  lemma {:induction false} HorizontalRecordsWidth(s: DrawerState, hs: seq<real>)
    requires |s.frames| > 0 && Top(s.frames).direction == Horizontal
    ensures var r := RecordedAll(s, hs);
            var t := Top(s.frames);
            var total := |hs| as real * FieldWidth(s);
            && r == s.(frames := r.frames, cursor := r.cursor)
            && r.frames[..|r.frames| - 1] == s.frames[..|s.frames| - 1]
            && Top(r.frames).width == t.width + total
            && Top(r.frames).x == t.x && Top(r.frames).y == t.y && Top(r.frames).direction == Horizontal
            && r.cursor == s.cursor.(x := s.cursor.x + total)
    decreases |hs|
  {
    if hs != [] {
      var s1 := Recorded(s, hs[0]);
      RecordStep(s, hs[0]);
      HorizontalRecordsWidth(s1, hs[1..]);
    }
  }

  /**
   * In a Horizontal frame the frame's height after a run of fields is the
   * largest of its height and the fields' heights.
   */
  lemma {:induction false} HorizontalRecordsMax(s: DrawerState, hs: seq<real>)
    requires |s.frames| > 0 && Top(s.frames).direction == Horizontal
    ensures var h := Top(RecordedAll(s, hs).frames).height;
            && Top(RecordedAll(s, hs).frames).direction == Horizontal
            && h >= Top(s.frames).height
            && (forall k :: 0 <= k < |hs| ==> h >= hs[k])
            && (h == Top(s.frames).height || exists k :: 0 <= k < |hs| && h == hs[k])
    decreases |hs|
  {
    if hs != [] {
      var s1 := Recorded(s, hs[0]);
      RecordStep(s, hs[0]);
      HorizontalRecordsMax(s1, hs[1..]);
      assert RecordedAll(s, hs) == RecordedAll(s1, hs[1..]);
      var h := Top(RecordedAll(s, hs).frames).height;
      var h1 := Top(s1.frames).height;
      assert h1 == Max(hs[0], Top(s.frames).height);
      forall k | 0 <= k < |hs| ensures h >= hs[k] {
        if k > 0 {
          assert hs[k] == hs[1..][k - 1];
        }
      }
      if h != Top(s.frames).height {
        if h == h1 {
          assert h == hs[0];
        } else {
          var k :| 0 <= k < |hs[1..]| && h == hs[1..][k];
          assert h == hs[k + 1];
        }
      }
    }
  }

  /**
   * A Vertical group drawn inside the Vertical root advances the cursor
   * twice: the field moves it down once, and EndVertical moves it down again
   * by the group's height, which already holds that field.
   */
  lemma NestedVerticalAdvancesTwice(s: DrawerState, h: real, error: string)
    requires |s.frames| == 1 && s.frames[0].direction == Vertical
    ensures Ended(Recorded(Begun(s, Vertical), h), Vertical, 1, error).cursor.y
            == s.cursor.y + 2.0 * (h + LineSpaceHeight)
  {
    assert Find(Recorded(Begun(s, Vertical), h).frames, Vertical, 1) == Some(1);
  }

  /**
   * The fieldWidth getter after SetFieldWidth(w): w itself when it lies in
   * (0, Screen.width - 25]; the bound itself when w is wider; the start
   * width when w is not positive.
   */
  lemma FieldWidthRoundTrip(s: DrawerState, w: real, screenWidth: int)
    ensures 0.0 < w <= (screenWidth - ScreenMargin) as real ==> FieldWidth(FieldWidthSet(s, w, screenWidth)) == w
    ensures w <= 0.0 ==> FieldWidth(FieldWidthSet(s, w, screenWidth)) == s.start.width
    ensures ScreenMargin < screenWidth && w > (screenWidth - ScreenMargin) as real ==>
              FieldWidth(FieldWidthSet(s, w, screenWidth)) == (screenWidth - ScreenMargin) as real
    ensures FieldWidthSet(FieldWidthSet(s, w, screenWidth), w, screenWidth) == FieldWidthSet(s, w, screenWidth)
  {
  }

  /** EndProperty adds the height the top frame had before it was closed; a lone root leaves an empty stack. */
  lemma EndPropertyAddsTopHeight(s: DrawerState, error: string)
    requires |s.frames| > 0
    ensures var r := PropertyEnded(s, error);
            && r.propertyHeight == s.propertyHeight + Top(s.frames).height
            && (|s.frames| == 1 && s.frames[0].direction == Vertical ==>
                  r.frames == [] && r.cursor == s.cursor && r.log == s.log)
  {
  }

  /** BeginProperty pushes exactly one Vertical root at the position, with the cursor 16 high. */
  lemma BeginPropertyPushesRoot(s: DrawerState, position: Rect)
    ensures var r := PropertyBegun(s, position);
            && r.frames == s.frames + [FrameValue(position.x, position.y, 0.0, 0.0, Vertical)]
            && r.cursor == position.(height := DefaultPositionHeight) && r.start == r.cursor
            && r.propertyHeight == 0.0 && r.log == s.log
  {
  }
}
