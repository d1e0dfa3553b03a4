/**
 * SimplePropertyDrawer: a property drawer whose field heights come from the
 * host (EditorGUI.GetPropertyHeight, passed in here as a parameter) and whose
 * labels may carry a fixed height.
 *
 * The value-level functions say what each operation does to a DrawerState;
 * the class SimplePropertyDrawer performs the same operations in place on
 * its frame objects and fields, and each method is proved to take State()
 * to the function's result.
 */
module SimpleDrawer {
  import opened Layout

  const VerticalEndError: string := "[SimplePropertyDrawer] - End of stack occured before vertical layout could end."
  const HorizontalEndError: string := "[SimplePropertyDrawer] - End of stack occured before horizontal layout could end."

  /** GetPropertyHeight: the accumulated height plus one default line height. */
  function ReportedHeight(s: DrawerState): (r: real)
    ensures r - s.propertyHeight == DefaultPositionHeight
  {
    s.propertyHeight + DefaultPositionHeight
  }

  /**
   * DrawField with host height h: set the width limit (twice, as the source
   * does), restore the cached field width, then record the field.
   */
  function FieldDrawn(s: DrawerState, h: real, limitFieldWidth: int, screenWidth: int): (r: DrawerState)
    requires |s.frames| > 0
    ensures |r.frames| == |s.frames| && r.frames[..|r.frames| - 1] == s.frames[..|s.frames| - 1]
    ensures r == s.(frames := r.frames, cursor := r.cursor, storedFieldWidth := r.storedFieldWidth)
    ensures r.cursor.height == s.cursor.height
    ensures Top(s.frames).direction == Vertical ==>
              r.cursor.y == s.cursor.y + h + LineSpaceHeight &&
              Top(r.frames).height == Top(s.frames).height + h + LineSpaceHeight
    ensures Top(s.frames).direction == Horizontal ==>
              r.cursor.y == s.cursor.y && Top(r.frames).height == Max(h, Top(s.frames).height)
  {
    var cached := FieldWidth(s);
    var limited :=
      if limitFieldWidth != 0 then
        FieldWidthSet(FieldWidthSet(s, limitFieldWidth as real, screenWidth), limitFieldWidth as real, screenWidth)
      else s;
    Recorded(FieldWidthSet(limited, cached, screenWidth), h)
  }

  /** The height a label takes: the larger of its fixed height and its font size. */
  function LabelHeightFor(fontSize: int, fixedHeight: int): (r: real)
    ensures r >= fontSize as real && r >= fixedHeight as real
    ensures r == fontSize as real || r == fixedHeight as real
  {
    if fixedHeight > fontSize then fixedHeight as real else fontSize as real
  }

  /** DrawLabel: record the label's height and remember it as the last field height. */
  function LabelDrawn(s: DrawerState, fontSize: int, fixedHeight: int): (r: DrawerState)
    requires |s.frames| > 0
    ensures |r.frames| == |s.frames| && r.frames[..|r.frames| - 1] == s.frames[..|s.frames| - 1]
    ensures r == s.(frames := r.frames, cursor := r.cursor, lastFieldHeight := r.lastFieldHeight)
    ensures r.lastFieldHeight == LabelHeightFor(fontSize, fixedHeight)
    ensures r.cursor.width == s.cursor.width && r.cursor.height == s.cursor.height
  {
    var h := LabelHeightFor(fontSize, fixedHeight);
    Recorded(s, h).(lastFieldHeight := h)
  }

  /** The public DrawSpace(aHeight). */
  function SpaceDrawn(s: DrawerState, h: int): (r: DrawerState)
    requires |s.frames| > 0
    ensures |r.frames| == |s.frames|
    ensures r == s.(frames := r.frames, cursor := r.cursor, lastFieldHeight := r.lastFieldHeight)
    ensures r.cursor == s.cursor.(y := s.cursor.y + h as real) && r.lastFieldHeight == h as real
  {
    Spaced(s, h, true)
  }

  /**
   * The layout operations a foldout callback may perform. An operation that
   * reads the current frame throws (index out of range) on an empty stack;
   * Step and Run then give None.
   */
  datatype Op =
    | BeginVertical
    | EndVertical
    | BeginHorizontal
    | EndHorizontal
    | DrawField(fieldHeight: real, limitFieldWidth: int)
    | DrawLabel(fontSize: int, fixedHeight: int)
    | DrawSpace(spaceHeight: int)
    | AddSize(addedWidth: int, addedHeight: int)
    | DrawFoldout(foldout: bool, body: seq<Op>)
    | SetFieldWidth(width: real)
    | SetFieldHeight(height: real)

  /** DrawFoldout: a default space; when open, 3, the callback's operations, 3. */
  function FoldoutDrawn(s: DrawerState, foldout: bool, body: seq<Op>, screenWidth: int): (r: Option<DrawerState>)
    requires |s.frames| > 0
    ensures !foldout ==> r.Some? && r.value.cursor.y == s.cursor.y + DefaultSpaceHeight as real
    ensures !foldout ==> r.Some? && r.value.lastFieldHeight == DefaultSpaceHeight as real
    ensures r.Some? ==> |r.value.frames| > 0
    decreases body, 1
  {
    var header := SpaceDrawn(s, DefaultSpaceHeight);
    if !foldout then Some(header)
    else
      match Run(Spaced(header, FoldoutEndSpace, false), body, screenWidth)
      case None => None
      case Some(inner) =>
        if |inner.frames| == 0 then None else Some(Spaced(inner, FoldoutEndSpace, false))
  }

  /**
   * One operation of a foldout callback. The stack operations and the
   * setters never fail; every drawing operation fails on an empty stack.
   */
  function Step(s: DrawerState, op: Op, screenWidth: int): (r: Option<DrawerState>)
    ensures (op.BeginVertical? || op.EndVertical? || op.BeginHorizontal? || op.EndHorizontal? ||
             op.SetFieldWidth? || op.SetFieldHeight?) ==> r.Some?
    ensures (|s.frames| == 0 && (op.DrawField? || op.DrawLabel? || op.DrawSpace? || op.AddSize? || op.DrawFoldout?))
            ==> r.None?
    decreases op, 0
  {
    match op
    case BeginVertical => Some(Begun(s, Vertical))
    case EndVertical => Some(Ended(s, Vertical, 1, VerticalEndError))
    case BeginHorizontal => Some(Begun(s, Horizontal))
    case EndHorizontal => Some(Ended(s, Horizontal, 0, HorizontalEndError))
    case SetFieldWidth(w) => Some(FieldWidthSet(s, w, screenWidth))
    case SetFieldHeight(h) => Some(FieldHeightSet(s, h))
    case DrawField(h, limit) => if |s.frames| == 0 then None else Some(FieldDrawn(s, h, limit, screenWidth))
    case DrawLabel(fontSize, fixedHeight) => if |s.frames| == 0 then None else Some(LabelDrawn(s, fontSize, fixedHeight))
    case DrawSpace(h) => if |s.frames| == 0 then None else Some(SpaceDrawn(s, h))
    case AddSize(w, h) => if |s.frames| == 0 then None else Some(SizeAdded(s, w, h))
    case DrawFoldout(foldout, body) => if |s.frames| == 0 then None else FoldoutDrawn(s, foldout, body, screenWidth)
  }

  /** A callback's operations in order; the first that fails aborts the rest. */
  function Run(s: DrawerState, ops: seq<Op>, screenWidth: int): (r: Option<DrawerState>)
    ensures ops == [] ==> r == Some(s)
    ensures ops != [] && Step(s, ops[0], screenWidth).None? ==> r.None?
    decreases ops, 0
  {
    if ops == [] then Some(s)
    else
      match Step(s, ops[0], screenWidth)
      case None => None
      case Some(next) => Run(next, ops[1..], screenWidth)
  }

  class SimplePropertyDrawer {
    var stack: seq<Frame>
    var currentPosition: Rect
    var startPosition: Rect
    var propertyHeight: real
    var storedFieldWidth: real
    var storedLabelHeight: real
    var lastFieldHeight: real
    /** The messages sent to Debug.LogError. */
    var log: seq<string>

    ghost predicate Valid()
      reads this
    {
      Distinct(stack)
    }

    /** The frame objects on the stack. */
    ghost function Footprint(): set<Frame>
      reads this
    {
      set f | f in stack
    }

    ghost function State(): DrawerState
      reads this, stack
    {
      DrawerState(Views(stack), currentPosition, startPosition, propertyHeight,
                  storedFieldWidth, storedLabelHeight, lastFieldHeight, log)
    }

    constructor ()
      ensures Valid() && State() == Initial
    {
      stack := [];
      currentPosition := Rect(0.0, 0.0, 0.0, 0.0);
      startPosition := Rect(0.0, 0.0, 0.0, 0.0);
      propertyHeight := 0.0;
      storedFieldWidth := 0.0;
      storedLabelHeight := 0.0;
      lastFieldHeight := 0.0;
      log := [];
    }

    /** The fieldWidth getter. */
    function FieldWidth(): (r: real)
      reads this, stack
      ensures r == Layout.FieldWidth(State())
    {
      if storedFieldWidth > 0.0 then storedFieldWidth else startPosition.width
    }

    /** The labelHeight getter. */
    function LabelHeight(): (r: real)
      reads this, stack
      ensures r == StoredOrStartHeight(State())
    {
      if storedLabelHeight > 0.0 then storedLabelHeight else startPosition.height
    }

    /** The maxWidth getter: the width the property was given at BeginProperty. */
    function MaxWidth(): (r: real)
      reads this, stack
      ensures r == State().start.width
    {
      startPosition.width
    }

    function GetPropertyHeight(): (r: real)
      reads this, stack
      ensures r == ReportedHeight(State())
    {
      propertyHeight + DefaultPositionHeight
    }

    method SetFieldWidth(width: real, screenWidth: int)
      requires Valid()
      modifies this
      ensures Valid() && stack == old(stack)
      ensures State() == FieldWidthSet(old(State()), width, screenWidth)
    {
      var w := Clamp(width, 0.0, (screenWidth - ScreenMargin) as real);
      storedFieldWidth := w;
      currentPosition := currentPosition.(width := if w > 0.0 then w else MaxWidth());
    }

    method SetFieldHeight(height: real)
      requires Valid()
      modifies this
      ensures Valid() && stack == old(stack)
      ensures State() == FieldHeightSet(old(State()), height)
    {
      var h := height;
      if h < 1.0 {
        h := DefaultPositionHeight;
      }
      storedLabelHeight := h;
      currentPosition := currentPosition.(height := h);
    }

    /** BeginProperty; returns the caller's position with its height forced to 16 (a ref parameter in the source). */
    method BeginProperty(position: Rect) returns (adjusted: Rect)
      requires Valid()
      modifies this
      ensures Valid() && fresh(Footprint() - old(Footprint()))
      ensures adjusted == position.(height := DefaultPositionHeight)
      ensures State() == PropertyBegun(old(State()), position)
    {
      propertyHeight := 0.0;
      adjusted := position.(height := DefaultPositionHeight);
      currentPosition := adjusted;
      startPosition := adjusted;
      BeginVertical();
    }

    method EndProperty()
      requires Valid() && |stack| > 0
      modifies this, Footprint()
      ensures Valid() && Footprint() <= old(Footprint())
      ensures State() == PropertyEnded(old(State()), VerticalEndError)
    {
      var height := stack[|stack| - 1].height;
      InternalEndVertical(0);
      propertyHeight := propertyHeight + height;
    }

    method DrawField(h: real, limitFieldWidth: int, screenWidth: int)
      requires Valid() && |stack| > 0
      modifies this, Footprint()
      ensures Valid() && stack == old(stack)
      ensures State() == FieldDrawn(old(State()), h, limitFieldWidth, screenWidth)
    {
      var cached := FieldWidth();
      if limitFieldWidth != 0 {
        SetFieldWidth(limitFieldWidth as real, screenWidth);
      }
      if limitFieldWidth != 0 {
        SetFieldWidth(limitFieldWidth as real, screenWidth);
      }
      SetFieldWidth(cached, screenWidth);
      Record(h);
    }

    /** The bookkeeping after a field or label of height h: advance by the direction's rule, grow the current group. */
    method Record(h: real)
      requires Valid() && |stack| > 0
      modifies this, Footprint()
      ensures Valid() && stack == old(stack)
      ensures State() == Recorded(old(State()), h)
    {
      var current := stack[|stack| - 1];
      if current.direction == Vertical {
        currentPosition := currentPosition.(y := currentPosition.y + h + LineSpaceHeight);
        current.AdjustHeight(h + LineSpaceHeight);
      } else if current.direction == Horizontal {
        currentPosition := currentPosition.(x := currentPosition.x + FieldWidth());
        current.AdjustHeight(h);
      }
      current.AdjustWidth(FieldWidth());
      assert forall j :: 0 <= j < |stack| - 1 ==> stack[j] != current;
    }

    method AddSize(width: int, height: int)
      requires Valid() && |stack| > 0
      modifies this, Footprint()
      ensures Valid() && stack == old(stack)
      ensures State() == SizeAdded(old(State()), width, height)
    {
      FoldIntoTop(stack, width as real, height as real);
    }

    method DrawLabel(fontSize: int, fixedHeight: int)
      requires Valid() && |stack| > 0
      modifies this, Footprint()
      ensures Valid() && stack == old(stack)
      ensures State() == LabelDrawn(old(State()), fontSize, fixedHeight)
    {
      ghost var before := State();
      var cachedHeight := currentPosition.height;
      var labelHeight := if fixedHeight > fontSize then fixedHeight as real else fontSize as real;
      if LabelHeight() > fontSize as real {
        currentPosition := currentPosition.(height := fontSize as real);
      }
      RecordedKeepsCursorHeight(before, labelHeight, currentPosition.height);
      Record(labelHeight);
      if LabelHeight() > fontSize as real {
        currentPosition := currentPosition.(height := cachedHeight);
      }
      lastFieldHeight := labelHeight;
    }

    /** The public DrawSpace(aHeight = 16). */
    method DrawSpace(height: int)
      requires Valid() && |stack| > 0
      modifies this, Footprint()
      ensures Valid() && stack == old(stack)
      ensures State() == SpaceDrawn(old(State()), height)
    {
      DrawSpaceCached(true, height);
    }

    /** The private DrawSpace(aCacheHeight, aHeight) used for layout groups. */
    method DrawSpaceCached(cacheHeight: bool, height: int)
      requires Valid() && |stack| > 0
      modifies this, Footprint()
      ensures Valid() && stack == old(stack)
      ensures State() == Spaced(old(State()), height, cacheHeight)
    {
      currentPosition := currentPosition.(y := currentPosition.y + height as real);
      var current := stack[|stack| - 1];
      current.AdjustHeight(height as real);
      if cacheHeight {
        lastFieldHeight := height as real;
      }
      assert forall j :: 0 <= j < |stack| - 1 ==> stack[j] != current;
    }

    /**
     * DrawFoldout: `hostOpen` is what the host's Foldout widget returns and
     * is handed back unchanged; `body` is the callback.
     */
    method DrawFoldout(foldout: bool, hostOpen: bool, body: seq<Op>, screenWidth: int) returns (isOpen: bool)
      requires Valid() && |stack| > 0 && FoldoutDrawn(State(), foldout, body, screenWidth).Some?
      modifies this, Footprint()
      decreases body, 1
      ensures Valid() && fresh(Footprint() - old(Footprint()))
      ensures isOpen == hostOpen
      ensures State() == FoldoutDrawn(old(State()), foldout, body, screenWidth).value
    {
      isOpen := hostOpen;
      DrawSpace(DefaultSpaceHeight);
      if foldout {
        DrawSpaceCached(false, FoldoutEndSpace);
        PerformAll(body, screenWidth);
        DrawSpaceCached(false, FoldoutEndSpace);
      }
    }

    /** The callback: perform each operation in order. */
    method PerformAll(ops: seq<Op>, screenWidth: int)
      requires Valid() && Run(State(), ops, screenWidth).Some?
      modifies this, Footprint()
      decreases ops, 0
      ensures Valid() && fresh(Footprint() - old(Footprint()))
      ensures State() == old(Run(State(), ops, screenWidth)).value
    {
      if ops != [] {
        Perform(ops[0], screenWidth);
        PerformAll(ops[1..], screenWidth);
      }
    }

    method Perform(op: Op, screenWidth: int)
      requires Valid() && Step(State(), op, screenWidth).Some?
      modifies this, Footprint()
      decreases op, 0
      ensures Valid() && fresh(Footprint() - old(Footprint()))
      ensures State() == old(Step(State(), op, screenWidth)).value
    {
      match op
      case BeginVertical => BeginVertical();
      case EndVertical => EndVertical();
      case BeginHorizontal => BeginHorizontal();
      case EndHorizontal => EndHorizontal();
      case SetFieldWidth(w) => SetFieldWidth(w, screenWidth);
      case SetFieldHeight(h) => SetFieldHeight(h);
      case DrawField(h, limit) => DrawField(h, limit, screenWidth);
      case DrawLabel(fontSize, fixedHeight) => DrawLabel(fontSize, fixedHeight);
      case DrawSpace(h) => DrawSpace(h);
      case AddSize(w, h) => AddSize(w, h);
      case DrawFoldout(foldout, body) =>
        var _ := DrawFoldout(foldout, foldout, body, screenWidth);
    }

    method BeginVertical()
      requires Valid()
      modifies this
      ensures Valid() && fresh(Footprint() - old(Footprint()))
      ensures State() == Begun(old(State()), Vertical)
    {
      var frame := new Frame(currentPosition.x, currentPosition.y, Vertical);
      stack := stack + [frame];
    }

    method EndVertical()
      requires Valid()
      modifies this, Footprint()
      ensures Valid() && Footprint() <= old(Footprint())
      ensures State() == Ended(old(State()), Vertical, 1, VerticalEndError)
    {
      InternalEndVertical(1);
    }

    /** The stop index keeps EndVertical from closing the root frame BeginProperty pushed. */
    method InternalEndVertical(stopIndex: nat)
      requires Valid()
      modifies this, Footprint()
      ensures Valid() && Footprint() <= old(Footprint())
      ensures State() == Ended(old(State()), Vertical, stopIndex, VerticalEndError)
    {
      var found;
      stack, currentPosition, found := EndGroup(stack, currentPosition, Vertical, stopIndex);
      if !found {
        log := log + [VerticalEndError];
      }
    }

    method BeginHorizontal()
      requires Valid()
      modifies this
      ensures Valid() && fresh(Footprint() - old(Footprint()))
      ensures State() == Begun(old(State()), Horizontal)
    {
      var frame := new Frame(currentPosition.x, currentPosition.y, Horizontal);
      stack := stack + [frame];
    }

    method EndHorizontal()
      requires Valid()
      modifies this, Footprint()
      ensures Valid() && Footprint() <= old(Footprint())
      ensures State() == Ended(old(State()), Horizontal, 0, HorizontalEndError)
    {
      var found;
      stack, currentPosition, found := EndGroup(stack, currentPosition, Horizontal, 0);
      if !found {
        log := log + [HorizontalEndError];
      }
    }
  }
}
