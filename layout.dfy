/**
 * The nested layout stack shared by both property drawers: the frame class
 * (LayoutDirectionRect), its growth rules, the value-level view of a drawer's
 * layout state, and the downward search that closes a frame.
 *
 * Sizes and coordinates are `real`: the source's floats are only added,
 * maxed and compared, so no rounding is involved.
 */
module Layout {

  datatype Option<T> = None | Some(value: T)

  /** LayoutDirection. */
  datatype Direction = Horizontal | Vertical

  /** A host rectangle (x, y, width, height). */
  datatype Rect = Rect(x: real, y: real, width: real, height: real)

  /** The value of one LayoutDirectionRect at a given moment. */
  datatype FrameValue = FrameValue(x: real, y: real, width: real, height: real, direction: Direction)

  /**
   * Everything the layout operations of a drawer read or write:
   * the frame stack (bottom first), currentPosition, startPosition,
   * propertyHeight, _fieldWidth, the stored height (_labelHeight in
   * SimplePropertyDrawer, _fieldHeight in PropertyDrawerBase),
   * _lastFieldHeight and the messages sent to the error log.
   */
  datatype DrawerState = DrawerState(
    frames: seq<FrameValue>,
    cursor: Rect,
    start: Rect,
    propertyHeight: real,
    storedFieldWidth: real,
    storedHeight: real,
    lastFieldHeight: real,
    log: seq<string>)

  const DefaultPositionHeight: real := 16.0
  const LineSpaceHeight: real := 4.0
  const DefaultSpaceHeight: int := 16
  const DefaultFontSize: int := 12
  const FoldoutEndSpace: int := 3
  /** Screen.width minus this margin bounds the field width. */
  const ScreenMargin: int := 25

  /** The state of a freshly constructed drawer: every number 0, an empty stack. */
  const Initial := DrawerState([], Rect(0.0, 0.0, 0.0, 0.0), Rect(0.0, 0.0, 0.0, 0.0), 0.0, 0.0, 0.0, 0.0, [])

  /** The source's `(a > b) ? a : b`. */
  function Max(a: real, b: real): (r: real)
    ensures r >= a && r >= b && (r == a || r == b)
  {
    if a > b then a else b
  }

  /** Mathf.Clamp: the lower bound is compared first; when max < min a value below min gives min and any other gives max. */
  function Clamp(value: real, min: real, max: real): (r: real)
    ensures min <= max ==> min <= r <= max
    ensures min <= value <= max ==> r == value
    ensures value < min ==> r == min
    ensures min <= value && value > max ==> r == max
  {
    if value < min then min else if value > max then max else value
  }

  /** AdjustHeight: a Vertical frame sums heights, a Horizontal frame keeps the largest. */
  function AdjustedHeight(f: FrameValue, h: real): (r: FrameValue)
    ensures r.x == f.x && r.y == f.y && r.width == f.width && r.direction == f.direction
    ensures f.direction == Vertical ==> r.height - f.height == h
    ensures f.direction == Horizontal ==>
              r.height >= f.height && r.height >= h && (r.height == f.height || r.height == h)
    ensures h >= 0.0 ==> r.height >= f.height
  {
    if f.direction == Horizontal then f.(height := Max(h, f.height))
    else f.(height := f.height + h)
  }

  /** AdjustWidth: a Horizontal frame sums widths, a Vertical frame keeps the largest. */
  function AdjustedWidth(f: FrameValue, w: real): (r: FrameValue)
    ensures r.x == f.x && r.y == f.y && r.height == f.height && r.direction == f.direction
    ensures f.direction == Horizontal ==> r.width - f.width == w
    ensures f.direction == Vertical ==>
              r.width >= f.width && r.width >= w && (r.width == f.width || r.width == w)
    ensures w >= 0.0 ==> r.width >= f.width
  {
    if f.direction == Vertical then f.(width := Max(w, f.width))
    else f.(width := f.width + w)
  }

  /** AdjustWidth(w) followed by AdjustHeight(h) on one frame. */
  function Fold(f: FrameValue, w: real, h: real): (r: FrameValue)
    ensures r.x == f.x && r.y == f.y && r.direction == f.direction
    ensures f.direction == Vertical ==> r.height == f.height + h && r.width == Max(w, f.width)
    ensures f.direction == Horizontal ==> r.width == f.width + w && r.height == Max(h, f.height)
  {
    AdjustedHeight(AdjustedWidth(f, w), h)
  }

  function Top(frames: seq<FrameValue>): FrameValue
    requires |frames| > 0
  {
    frames[|frames| - 1]
  }

  /** The frame a Begin call pushes: at the cursor's origin, 0 by 0. */
  function Begun(s: DrawerState, dir: Direction): (r: DrawerState)
    ensures r.frames == s.frames + [FrameValue(s.cursor.x, s.cursor.y, 0.0, 0.0, dir)]
    ensures r.(frames := s.frames) == s
  {
    s.(frames := s.frames + [FrameValue(s.cursor.x, s.cursor.y, 0.0, 0.0, dir)])
  }

  /**
   * The downward search of the end calls: the highest index at or above
   * `stop` whose frame has direction `dir`, or None.
   */
  function Find(frames: seq<FrameValue>, dir: Direction, stop: nat): (r: Option<nat>)
    ensures r.Some? ==> stop <= r.value < |frames| && frames[r.value].direction == dir
    ensures r.Some? ==> forall j :: r.value < j < |frames| ==> frames[j].direction != dir
    ensures r.None? <==> forall j :: stop <= j < |frames| ==> frames[j].direction != dir
    decreases |frames|
  {
    if |frames| <= stop then None
    else if frames[|frames| - 1].direction == dir then Some(|frames| - 1)
    else Find(frames[..|frames| - 1], dir, stop)
  }

  /**
   * The cursor after closing frame i: only when i is the top and has a
   * parent does the cursor move, along the axis the parent lays out.
   */
  function ClosedCursor(frames: seq<FrameValue>, cursor: Rect, i: nat): (r: Rect)
    requires i < |frames|
    ensures r.width == cursor.width && r.height == cursor.height
    ensures !(0 < i && i == |frames| - 1) ==> r == cursor
    ensures 0 < i && i == |frames| - 1 && frames[i - 1].direction == Vertical ==>
              r.x == frames[i - 1].x && r.y == cursor.y + frames[i].height
    ensures 0 < i && i == |frames| - 1 && frames[i - 1].direction == Horizontal ==>
              r.x == cursor.x + frames[i].width && r.y == frames[i - 1].y
  {
    if 0 < i && i == |frames| - 1 then
      var parent := frames[i - 1];
      if parent.direction == Vertical then
        Rect(parent.x, cursor.y + Top(frames).height, cursor.width, cursor.height)
      else
        Rect(cursor.x + Top(frames).width, parent.y, cursor.width, cursor.height)
    else cursor
  }

  /**
   * The stack after closing frame i: frame i is removed, and unless i is 0
   * the new top folds in the extents of the frame that was the top
   * before the removal (frame i itself only when i was the top).
   */
  function ClosedFrames(frames: seq<FrameValue>, i: nat): (r: seq<FrameValue>)
    requires i < |frames|
    ensures |r| == |frames| - 1
  {
    var rest := frames[..i] + frames[i + 1..];
    if i == 0 then rest
    else rest[|rest| - 1 := Fold(rest[|rest| - 1], Top(frames).width, Top(frames).height)]
  }

  /** InternalEndVertical(stop) / EndHorizontal: close the nearest matching frame or log `error`. */
  function Ended(s: DrawerState, dir: Direction, stop: nat, error: string): (r: DrawerState)
    ensures r == s.(frames := r.frames, cursor := r.cursor, log := r.log)
    ensures Find(s.frames, dir, stop).None? ==> r.frames == s.frames && r.cursor == s.cursor && r.log == s.log + [error]
    ensures Find(s.frames, dir, stop).Some? ==> |r.frames| == |s.frames| - 1 && r.log == s.log
  {
    match Find(s.frames, dir, stop)
    case None => s.(log := s.log + [error])
    case Some(i) => s.(frames := ClosedFrames(s.frames, i), cursor := ClosedCursor(s.frames, s.cursor, i))
  }

  /** BeginProperty: reset the height, force the position's height to 16, start there, push the root. */
  function PropertyBegun(s: DrawerState, position: Rect): (r: DrawerState)
    ensures r.frames == s.frames + [FrameValue(position.x, position.y, 0.0, 0.0, Vertical)]
    ensures r.cursor == position.(height := DefaultPositionHeight) && r.start == r.cursor
    ensures r == s.(frames := r.frames, cursor := r.cursor, start := r.start, propertyHeight := 0.0)
  {
    var p := position.(height := DefaultPositionHeight);
    Begun(s.(propertyHeight := 0.0, cursor := p, start := p), Vertical)
  }

  /** EndProperty: close the nearest Vertical frame (down to index 0) and add the old top's height. */
  function PropertyEnded(s: DrawerState, error: string): (r: DrawerState)
    requires |s.frames| > 0
    ensures r.propertyHeight == s.propertyHeight + Top(s.frames).height
    ensures r == s.(frames := r.frames, cursor := r.cursor, log := r.log, propertyHeight := r.propertyHeight)
    ensures s.frames[0].direction == Vertical ==> |r.frames| == |s.frames| - 1 && r.log == s.log
  {
    var r := Ended(s, Vertical, 0, error);
    r.(propertyHeight := r.propertyHeight + Top(s.frames).height)
  }

  /** The fieldWidth getter: the stored width, or the start width when it is not positive. */
  function FieldWidth(s: DrawerState): (r: real)
    ensures r > 0.0 || r == s.start.width
    ensures s.storedFieldWidth > 0.0 ==> r == s.storedFieldWidth
    ensures s.storedFieldWidth <= 0.0 ==> r == s.start.width
  {
    if s.storedFieldWidth > 0.0 then s.storedFieldWidth else s.start.width
  }

  /** The labelHeight / fieldHeight getter: the stored height, or the start height when it is not positive. */
  function StoredOrStartHeight(s: DrawerState): (r: real)
    ensures r > 0.0 || r == s.start.height
    ensures s.storedHeight > 0.0 ==> r == s.storedHeight
    ensures s.storedHeight <= 0.0 ==> r == s.start.height
  {
    if s.storedHeight > 0.0 then s.storedHeight else s.start.height
  }

  /** SetFieldWidth: clamp to [0, Screen.width - 25], store, and size the cursor by the result. */
  function FieldWidthSet(s: DrawerState, width: real, screenWidth: int): (r: DrawerState)
    ensures r == s.(storedFieldWidth := r.storedFieldWidth, cursor := s.cursor.(width := r.cursor.width))
    ensures screenWidth >= ScreenMargin ==> 0.0 <= r.storedFieldWidth <= (screenWidth - ScreenMargin) as real
    ensures 0.0 <= width <= (screenWidth - ScreenMargin) as real ==> r.storedFieldWidth == width
    ensures width < 0.0 ==> r.storedFieldWidth == 0.0
    ensures screenWidth >= ScreenMargin && width > (screenWidth - ScreenMargin) as real ==>
              r.storedFieldWidth == (screenWidth - ScreenMargin) as real
    ensures r.cursor.width == FieldWidth(r)
  {
    var w := Clamp(width, 0.0, (screenWidth - ScreenMargin) as real);
    s.(storedFieldWidth := w, cursor := s.cursor.(width := if w > 0.0 then w else s.start.width))
  }

  /** SetFieldHeight: a height below 1 becomes 16; store it and size the cursor by it. */
  function FieldHeightSet(s: DrawerState, height: real): (r: DrawerState)
    ensures r == s.(storedHeight := r.storedHeight, cursor := s.cursor.(height := r.storedHeight))
    ensures r.storedHeight >= 1.0 && StoredOrStartHeight(r) == r.storedHeight
    ensures height >= 1.0 ==> r.storedHeight == height
    ensures height < 1.0 ==> r.storedHeight == DefaultPositionHeight
  {
    var h := if height < 1.0 then DefaultPositionHeight else height;
    s.(storedHeight := h, cursor := s.cursor.(height := h))
  }

  /**
   * The bookkeeping after drawing a field or label of height h: in a
   * Vertical frame move down by h plus the line gap and add that to the
   * frame's height; in a Horizontal frame move right by the field width and
   * max the frame's height with h; then AdjustWidth(fieldWidth).
   */
  function Recorded(s: DrawerState, h: real): (r: DrawerState)
    requires |s.frames| > 0
    ensures |r.frames| == |s.frames| && r.frames[..|r.frames| - 1] == s.frames[..|s.frames| - 1]
    ensures r == s.(frames := r.frames, cursor := r.cursor)
    ensures r.cursor.width == s.cursor.width && r.cursor.height == s.cursor.height
  {
    var top := Top(s.frames);
    var fw := FieldWidth(s);
    if top.direction == Vertical then
      s.(cursor := s.cursor.(y := s.cursor.y + h + LineSpaceHeight),
         frames := s.frames[|s.frames| - 1 := AdjustedWidth(AdjustedHeight(top, h + LineSpaceHeight), fw)])
    else
      s.(cursor := s.cursor.(x := s.cursor.x + fw),
         frames := s.frames[|s.frames| - 1 := AdjustedWidth(AdjustedHeight(top, h), fw)])
  }

  /** Recording does not depend on the cursor's height, which it leaves as it found it. */
  lemma RecordedKeepsCursorHeight(s: DrawerState, h: real, height: real)
    requires |s.frames| > 0
    ensures var shrunk := s.(cursor := s.cursor.(height := height));
            Recorded(shrunk, h) == Recorded(s, h).(cursor := Recorded(s, h).cursor.(height := height))
  {
  }

  /**
   * The private DrawSpace(aCacheHeight, aHeight): move down by h in either
   * direction, AdjustHeight(h), and remember h as the last field height
   * when asked to.
   */
  function Spaced(s: DrawerState, h: int, cache: bool): (r: DrawerState)
    requires |s.frames| > 0
    ensures |r.frames| == |s.frames| && r.frames[..|r.frames| - 1] == s.frames[..|s.frames| - 1]
    ensures r.cursor == s.cursor.(y := s.cursor.y + h as real)
    ensures Top(r.frames) == AdjustedHeight(Top(s.frames), h as real)
    ensures r.lastFieldHeight == if cache then h as real else s.lastFieldHeight
    ensures r == s.(frames := r.frames, cursor := r.cursor, lastFieldHeight := r.lastFieldHeight)
  {
    s.(cursor := s.cursor.(y := s.cursor.y + h as real),
       frames := s.frames[|s.frames| - 1 := AdjustedHeight(Top(s.frames), h as real)],
       lastFieldHeight := if cache then h as real else s.lastFieldHeight)
  }

  /** AddSize: AdjustWidth(w) then AdjustHeight(h) on the current frame; the cursor stays. */
  function SizeAdded(s: DrawerState, w: int, h: int): (r: DrawerState)
    requires |s.frames| > 0
    ensures |r.frames| == |s.frames| && r.frames[..|r.frames| - 1] == s.frames[..|s.frames| - 1]
    ensures Top(r.frames) == Fold(Top(s.frames), w as real, h as real)
    ensures r == s.(frames := r.frames)
  {
    s.(frames := s.frames[|s.frames| - 1 := Fold(Top(s.frames), w as real, h as real)])
  }

  /** One LayoutDirectionRect: a fixed origin and direction, and extents that grow. */
  class Frame {
    const x: real
    const y: real
    const direction: Direction
    var width: real
    var height: real

    constructor (x: real, y: real, direction: Direction)
      ensures View() == FrameValue(x, y, 0.0, 0.0, direction)
    {
      this.x := x;
      this.y := y;
      this.direction := direction;
      width := 0.0;
      height := 0.0;
    }

    function View(): FrameValue
      reads this
    {
      FrameValue(x, y, width, height, direction)
    }

    method AdjustHeight(h: real)
      modifies this
      ensures View() == AdjustedHeight(old(View()), h)
    {
      if direction == Horizontal {
        height := if h > height then h else height;
      } else if direction == Vertical {
        height := height + h;
      }
    }

    method AdjustWidth(w: real)
      modifies this
      ensures View() == AdjustedWidth(old(View()), w)
    {
      if direction == Vertical {
        width := if w > width then w else width;
      } else if direction == Horizontal {
        width := width + w;
      }
    }
  }

  /** The values of a stack of frames, bottom first. */
  ghost function Views(stack: seq<Frame>): (r: seq<FrameValue>)
    reads stack
    ensures |r| == |stack|
  {
    seq(|stack|, i requires 0 <= i < |stack| reads stack => stack[i].View())
  }

  /** No frame object occurs twice: List.Remove(stack[i]) then removes exactly index i. */
  ghost predicate Distinct(stack: seq<Frame>)
  {
    forall i, j :: 0 <= i < j < |stack| ==> stack[i] != stack[j]
  }

  /**
   * The loop shared by InternalEndVertical and EndHorizontal: scan down from
   * the top to `stop` for a frame of direction `dir`; move the cursor if it
   * is the top, remove it, and fold the old top's extents into the new top.
   */
  method EndGroup(stack: seq<Frame>, cursor: Rect, dir: Direction, stop: nat)
    returns (remaining: seq<Frame>, moved: Rect, found: bool)
    requires Distinct(stack)
    modifies stack
    ensures Distinct(remaining) && forall f :: f in remaining ==> f in stack
    ensures found == Find(old(Views(stack)), dir, stop).Some?
    ensures found ==>
              var i := Find(old(Views(stack)), dir, stop).value;
              Views(remaining) == ClosedFrames(old(Views(stack)), i) &&
              moved == ClosedCursor(old(Views(stack)), cursor, i)
    ensures !found ==> remaining == stack && moved == cursor && Views(stack) == old(Views(stack))
  {
    ghost var views := Views(stack);
    var i := |stack| - 1;
    while i >= stop
      invariant -1 <= i < |stack| && views == Views(stack)
      invariant forall j :: i < j < |stack| ==> views[j].direction != dir
      decreases i
    {
      if stack[i].direction == dir {
        assert views[i].direction == dir;
        assert Find(views, dir, stop) == Some(i);
        remaining, moved := CloseFrame(stack, cursor, i);
        found := true;
        return;
      }
      i := i - 1;
    }
    assert Find(views, dir, stop).None?;
    remaining, moved, found := stack, cursor, false;
  }

  /**
   * The body of the search once frame i matched: reposition the cursor if
   * frame i is the top (reference equality with the current frame), read the
   * top's extents, remove frame i and fold those extents into the new top.
   */
  method CloseFrame(stack: seq<Frame>, cursor: Rect, i: nat) returns (remaining: seq<Frame>, moved: Rect)
    requires i < |stack| && Distinct(stack)
    modifies stack
    ensures Distinct(remaining) && forall f :: f in remaining ==> f in stack
    ensures Views(remaining) == ClosedFrames(old(Views(stack)), i)
    ensures moved == ClosedCursor(old(Views(stack)), cursor, i)
  {
    ghost var views := Views(stack);
    moved := Reposition(stack, cursor, i);
    var top := stack[|stack| - 1];
    var width := top.width;
    var height := top.height;
    assert width == Top(views).width && height == Top(views).height;
    remaining := stack[..i] + stack[i + 1..];
    RemovedViews(stack, i);
    ghost var rest := Views(remaining);
    assert rest == views[..i] + views[i + 1..];
    if i != 0 {
      FoldIntoTop(remaining, width, height);
    }
    assert Views(remaining) == ClosedFrames(views, i);
  }

  /**
   * The cursor update at the head of the search body: only when frame i is
   * the current (top) frame and has a parent, by the parent's direction.
   */
  method Reposition(stack: seq<Frame>, cursor: Rect, i: nat) returns (moved: Rect)
    requires i < |stack| && Distinct(stack)
    ensures moved == ClosedCursor(Views(stack), cursor, i)
  {
    var top := stack[|stack| - 1];
    assert top == stack[i] <==> i == |stack| - 1;
    moved := cursor;
    if i > 0 && top == stack[i] {
      if stack[i - 1].direction == Vertical {
        moved := Rect(stack[i - 1].x, cursor.y + top.height, cursor.width, cursor.height);
      } else if stack[i - 1].direction == Horizontal {
        moved := Rect(cursor.x + top.width, stack[i - 1].y, cursor.width, cursor.height);
      }
    }
  }

  /** AdjustWidth then AdjustHeight on the top frame object; the frames below are other objects and keep their values. */
  method FoldIntoTop(stack: seq<Frame>, width: real, height: real)
    requires |stack| > 0 && Distinct(stack)
    modifies stack[|stack| - 1]
    ensures Views(stack) == old(Views(stack))[|stack| - 1 := Fold(old(Views(stack))[|stack| - 1], width, height)]
  {
    var current := stack[|stack| - 1];
    current.AdjustWidth(width);
    current.AdjustHeight(height);
    assert forall j :: 0 <= j < |stack| - 1 ==> stack[j] != current;
  }

  /** Removing index i keeps the other frames, their order and their distinctness. */
  lemma RemovedViews(stack: seq<Frame>, i: nat)
    requires i < |stack| && Distinct(stack)
    ensures Distinct(stack[..i] + stack[i + 1..])
    ensures forall f :: f in stack[..i] + stack[i + 1..] ==> f in stack
    ensures Views(stack[..i] + stack[i + 1..]) == Views(stack)[..i] + Views(stack)[i + 1..]
  {
    var rest := stack[..i] + stack[i + 1..];
    forall a, b | 0 <= a < b < |rest| ensures rest[a] != rest[b] {
      var a', b' := if a < i then a else a + 1, if b < i then b else b + 1;
      assert rest[a] == stack[a'] && rest[b] == stack[b'];
    }
  }
}
