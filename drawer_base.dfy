/**
 * PropertyDrawerBase: the variant whose fields and labels are sized by the
 * stored field height (SetFieldHeight) rather than by the host, and whose
 * public DrawSpace always spaces by the default height.
 *
 * The value-level functions say what each operation does to a DrawerState;
 * the class PropertyDrawerBase performs the same operations in place on its
 * frame objects and fields, and each method is proved to take State() to the
 * function's result.
 */
module DrawerBase {
  import opened Layout

  const VerticalEndError: string := "[PropertyDrawerBase] - End of stack occured before vertical layout could end."
  const HorizontalEndError: string := "[PropertyDrawerBase] - End of stack occured before horizontal layout could end."

  /**
   * GetPropertyHeight: the host's height for the whole property plus the
   * accumulated height, less the height of the last field, label or space.
   */
  function ReportedHeight(s: DrawerState, hostHeight: real): (r: real)
    ensures r - hostHeight == s.propertyHeight - s.lastFieldHeight
  {
    hostHeight + s.propertyHeight - s.lastFieldHeight
  }

  /** DrawField: record a field as tall as the fieldHeight getter says. */
  function FieldDrawn(s: DrawerState): (r: DrawerState)
    requires |s.frames| > 0
    ensures |r.frames| == |s.frames| && r.frames[..|r.frames| - 1] == s.frames[..|s.frames| - 1]
    ensures r == s.(frames := r.frames, cursor := r.cursor)
    ensures Top(s.frames).direction == Vertical ==>
              r.cursor.y == s.cursor.y + StoredOrStartHeight(s) + LineSpaceHeight
    ensures Top(s.frames).direction == Horizontal ==>
              r.cursor.x == s.cursor.x + FieldWidth(s) && Top(r.frames).height == Max(StoredOrStartHeight(s), Top(s.frames).height)
  {
    Recorded(s, StoredOrStartHeight(s))
  }

  /** The height a label takes: the larger of fieldHeight and its font size. */
  function LabelHeightFor(s: DrawerState, fontSize: int): (r: real)
    ensures r >= StoredOrStartHeight(s) && r >= fontSize as real
    ensures r == StoredOrStartHeight(s) || r == fontSize as real
  {
    if StoredOrStartHeight(s) > fontSize as real then StoredOrStartHeight(s) else fontSize as real
  }

  /** DrawLabel: record the label's height and remember it as the last field height. */
  function LabelDrawn(s: DrawerState, fontSize: int): (r: DrawerState)
    requires |s.frames| > 0
    ensures |r.frames| == |s.frames| && r.frames[..|r.frames| - 1] == s.frames[..|s.frames| - 1]
    ensures r == s.(frames := r.frames, cursor := r.cursor, lastFieldHeight := r.lastFieldHeight)
    ensures r.lastFieldHeight == LabelHeightFor(s, fontSize)
    ensures r.cursor.width == s.cursor.width && r.cursor.height == s.cursor.height
  {
    var h := LabelHeightFor(s, fontSize);
    Recorded(s, h).(lastFieldHeight := h)
  }

  /** The public DrawSpace(aHeight): the argument is not used; it always spaces by 16. */
  function SpaceDrawn(s: DrawerState, h: int): (r: DrawerState)
    requires |s.frames| > 0
    ensures |r.frames| == |s.frames|
    ensures r == s.(frames := r.frames, cursor := r.cursor, lastFieldHeight := r.lastFieldHeight)
    ensures r.cursor == s.cursor.(y := s.cursor.y + DefaultSpaceHeight as real)
    ensures r.lastFieldHeight == DefaultSpaceHeight as real
  {
    Spaced(s, DefaultSpaceHeight, true)
  }

  /**
   * The layout operations a foldout callback may perform. An operation that
   * reads the current frame throws (index out of range) on an empty stack;
   * Step and Run then give None.
   */
  datatype Op =
    | BeginVertical
    | EndVertical
    | BeginHorizontal
    | EndHorizontal
    | DrawField
    | DrawLabel(fontSize: int)
    | DrawSpace(spaceHeight: int)
    | AddSize(addedWidth: int, addedHeight: int)
    | DrawFoldout(foldout: bool, body: seq<Op>)
    | SetFieldWidth(width: real)
    | SetFieldHeight(height: real)

  /** DrawFoldout: a default space; when open, 3, the callback's operations, 3. */
  function FoldoutDrawn(s: DrawerState, foldout: bool, body: seq<Op>, screenWidth: int): (r: Option<DrawerState>)
    requires |s.frames| > 0
    ensures !foldout ==> r.Some? && r.value.cursor.y == s.cursor.y + DefaultSpaceHeight as real
    ensures !foldout ==> r.Some? && r.value.lastFieldHeight == DefaultSpaceHeight as real
    ensures r.Some? ==> |r.value.frames| > 0
    decreases body, 1
  {
    var header := SpaceDrawn(s, DefaultSpaceHeight);
    if !foldout then Some(header)
    else
      match Run(Spaced(header, FoldoutEndSpace, false), body, screenWidth)
      case None => None
      case Some(inner) =>
        if |inner.frames| == 0 then None else Some(Spaced(inner, FoldoutEndSpace, false))
  }

  /**
   * One operation of a foldout callback. The stack operations and the
   * setters never fail; every drawing operation fails on an empty stack.
   */
  function Step(s: DrawerState, op: Op, screenWidth: int): (r: Option<DrawerState>)
    ensures (op.BeginVertical? || op.EndVertical? || op.BeginHorizontal? || op.EndHorizontal? ||
             op.SetFieldWidth? || op.SetFieldHeight?) ==> r.Some?
    ensures (|s.frames| == 0 && (op.DrawField? || op.DrawLabel? || op.DrawSpace? || op.AddSize? || op.DrawFoldout?))
            ==> r.None?
    decreases op, 0
  {
    match op
    case BeginVertical => Some(Begun(s, Vertical))
    case EndVertical => Some(Ended(s, Vertical, 1, VerticalEndError))
    case BeginHorizontal => Some(Begun(s, Horizontal))
    case EndHorizontal => Some(Ended(s, Horizontal, 0, HorizontalEndError))
    case SetFieldWidth(w) => Some(FieldWidthSet(s, w, screenWidth))
    case SetFieldHeight(h) => Some(FieldHeightSet(s, h))
    case DrawField => if |s.frames| == 0 then None else Some(FieldDrawn(s))
    case DrawLabel(fontSize) => if |s.frames| == 0 then None else Some(LabelDrawn(s, fontSize))
    case DrawSpace(h) => if |s.frames| == 0 then None else Some(SpaceDrawn(s, h))
    case AddSize(w, h) => if |s.frames| == 0 then None else Some(SizeAdded(s, w, h))
    case DrawFoldout(foldout, body) => if |s.frames| == 0 then None else FoldoutDrawn(s, foldout, body, screenWidth)
  }

  /** A callback's operations in order; the first that fails aborts the rest. */
  function Run(s: DrawerState, ops: seq<Op>, screenWidth: int): (r: Option<DrawerState>)
    ensures ops == [] ==> r == Some(s)
    ensures ops != [] && Step(s, ops[0], screenWidth).None? ==> r.None?
    decreases ops, 0
  {
    if ops == [] then Some(s)
    else
      match Step(s, ops[0], screenWidth)
      case None => None
      case Some(next) => Run(next, ops[1..], screenWidth)
  }

  class PropertyDrawerBase {
    var stack: seq<Frame>
    var currentPosition: Rect
    var startPosition: Rect
    var propertyHeight: real
    var storedFieldWidth: real
    var storedFieldHeight: real
    var lastFieldHeight: real
    /** The messages sent to Debug.LogError. */
    var log: seq<string>

    ghost predicate Valid()
      reads this
    {
      Distinct(stack)
    }

    /** The frame objects on the stack. */
    ghost function Footprint(): set<Frame>
      reads this
    {
      set f | f in stack
    }

    ghost function State(): DrawerState
      reads this, stack
    {
      DrawerState(Views(stack), currentPosition, startPosition, propertyHeight,
                  storedFieldWidth, storedFieldHeight, lastFieldHeight, log)
    }

    constructor ()
      ensures Valid() && State() == Initial
    {
      stack := [];
      currentPosition := Rect(0.0, 0.0, 0.0, 0.0);
      startPosition := Rect(0.0, 0.0, 0.0, 0.0);
      propertyHeight := 0.0;
      storedFieldWidth := 0.0;
      storedFieldHeight := 0.0;
      lastFieldHeight := 0.0;
      log := [];
    }

    /** The fieldWidth getter. */
    function FieldWidth(): (r: real)
      reads this, stack
      ensures r == Layout.FieldWidth(State())
    {
      if storedFieldWidth > 0.0 then storedFieldWidth else startPosition.width
    }

    /** The fieldHeight getter. */
    function FieldHeight(): (r: real)
      reads this, stack
      ensures r == StoredOrStartHeight(State())
    {
      if storedFieldHeight > 0.0 then storedFieldHeight else startPosition.height
    }

    /** The maxWidth getter: the width the property was given at BeginProperty. */
    function MaxWidth(): (r: real)
      reads this, stack
      ensures r == State().start.width
    {
      startPosition.width
    }

    /** `hostHeight` is EditorGUI.GetPropertyHeight(property, true). */
    function GetPropertyHeight(hostHeight: real): (r: real)
      reads this, stack
      ensures r == ReportedHeight(State(), hostHeight)
    {
      hostHeight + propertyHeight - lastFieldHeight
    }

    method SetFieldWidth(width: real, screenWidth: int)
      requires Valid()
      modifies this
      ensures Valid() && stack == old(stack)
      ensures State() == FieldWidthSet(old(State()), width, screenWidth)
    {
      var w := Clamp(width, 0.0, (screenWidth - ScreenMargin) as real);
      storedFieldWidth := w;
      currentPosition := currentPosition.(width := if w > 0.0 then w else MaxWidth());
    }

    method SetFieldHeight(height: real)
      requires Valid()
      modifies this
      ensures Valid() && stack == old(stack)
      ensures State() == FieldHeightSet(old(State()), height)
    {
      var h := height;
      if h < 1.0 {
        h := DefaultPositionHeight;
      }
      storedFieldHeight := h;
      currentPosition := currentPosition.(height := h);
    }

    /** BeginProperty; returns the caller's position with its height forced to 16 (a ref parameter in the source). */
    method BeginProperty(position: Rect) returns (adjusted: Rect)
      requires Valid()
      modifies this
      ensures Valid() && fresh(Footprint() - old(Footprint()))
      ensures adjusted == position.(height := DefaultPositionHeight)
      ensures State() == PropertyBegun(old(State()), position)
    {
      propertyHeight := 0.0;
      adjusted := position.(height := DefaultPositionHeight);
      currentPosition := adjusted;
      startPosition := adjusted;
      BeginVertical();
    }

    method EndProperty()
      requires Valid() && |stack| > 0
      modifies this, Footprint()
      ensures Valid() && Footprint() <= old(Footprint())
      ensures State() == PropertyEnded(old(State()), VerticalEndError)
    {
      var height := stack[|stack| - 1].height;
      InternalEndVertical(0);
      propertyHeight := propertyHeight + height;
    }

    method DrawField()
      requires Valid() && |stack| > 0
      modifies this, Footprint()
      ensures Valid() && stack == old(stack)
      ensures State() == FieldDrawn(old(State()))
    {
      Record(FieldHeight());
    }

    /** The bookkeeping after a field or label of height h: advance by the direction's rule, grow the current group. */
    method Record(h: real)
      requires Valid() && |stack| > 0
      modifies this, Footprint()
      ensures Valid() && stack == old(stack)
      ensures State() == Recorded(old(State()), h)
    {
      var current := stack[|stack| - 1];
      if current.direction == Vertical {
        currentPosition := currentPosition.(y := currentPosition.y + h + LineSpaceHeight);
        current.AdjustHeight(h + LineSpaceHeight);
      } else if current.direction == Horizontal {
        currentPosition := currentPosition.(x := currentPosition.x + FieldWidth());
        current.AdjustHeight(h);
      }
      current.AdjustWidth(FieldWidth());
      assert forall j :: 0 <= j < |stack| - 1 ==> stack[j] != current;
    }

    method AddSize(width: int, height: int)
      requires Valid() && |stack| > 0
      modifies this, Footprint()
      ensures Valid() && stack == old(stack)
      ensures State() == SizeAdded(old(State()), width, height)
    {
      FoldIntoTop(stack, width as real, height as real);
    }

    /** DrawLabel(aString, aAlignment, aFontSize); the shorter overloads pass the default font size 12. */
    method DrawLabel(fontSize: int)
      requires Valid() && |stack| > 0
      modifies this, Footprint()
      ensures Valid() && stack == old(stack)
      ensures State() == LabelDrawn(old(State()), fontSize)
    {
      ghost var before := State();
      var cachedHeight := currentPosition.height;
      var labelHeight := if FieldHeight() > fontSize as real then FieldHeight() else fontSize as real;
      if FieldHeight() > fontSize as real {
        currentPosition := currentPosition.(height := fontSize as real);
      }
      RecordedKeepsCursorHeight(before, labelHeight, currentPosition.height);
      Record(labelHeight);
      if FieldHeight() > fontSize as real {
        currentPosition := currentPosition.(height := cachedHeight);
      }
      lastFieldHeight := labelHeight;
    }

    /** The public DrawSpace(aHeight = 16), which passes 16 whatever aHeight is. */
    method DrawSpace(height: int)
      requires Valid() && |stack| > 0
      modifies this, Footprint()
      ensures Valid() && stack == old(stack)
      ensures State() == SpaceDrawn(old(State()), height)
    {
      DrawSpaceCached(true, DefaultSpaceHeight);
    }

    /** The private DrawSpace(aCacheHeight, aHeight) used for layout groups. */
    method DrawSpaceCached(cacheHeight: bool, height: int)
      requires Valid() && |stack| > 0
      modifies this, Footprint()
      ensures Valid() && stack == old(stack)
      ensures State() == Spaced(old(State()), height, cacheHeight)
    {
      currentPosition := currentPosition.(y := currentPosition.y + height as real);
      var current := stack[|stack| - 1];
      current.AdjustHeight(height as real);
      if cacheHeight {
        lastFieldHeight := height as real;
      }
      assert forall j :: 0 <= j < |stack| - 1 ==> stack[j] != current;
    }

    /**
     * DrawFoldout: `hostOpen` is what the host's Foldout widget returns and
     * is handed back unchanged; `body` is the callback.
     */
    method DrawFoldout(foldout: bool, hostOpen: bool, body: seq<Op>, screenWidth: int) returns (isOpen: bool)
      requires Valid() && |stack| > 0 && FoldoutDrawn(State(), foldout, body, screenWidth).Some?
      modifies this, Footprint()
      decreases body, 1
      ensures Valid() && fresh(Footprint() - old(Footprint()))
      ensures isOpen == hostOpen
      ensures State() == FoldoutDrawn(old(State()), foldout, body, screenWidth).value
    {
      isOpen := hostOpen;
      DrawSpace(DefaultSpaceHeight);
      if foldout {
        DrawSpaceCached(false, FoldoutEndSpace);
        PerformAll(body, screenWidth);
        DrawSpaceCached(false, FoldoutEndSpace);
      }
    }

    /** The callback: perform each operation in order. */
    method PerformAll(ops: seq<Op>, screenWidth: int)
      requires Valid() && Run(State(), ops, screenWidth).Some?
      modifies this, Footprint()
      decreases ops, 0
      ensures Valid() && fresh(Footprint() - old(Footprint()))
      ensures State() == old(Run(State(), ops, screenWidth)).value
    {
      if ops != [] {
        Perform(ops[0], screenWidth);
        PerformAll(ops[1..], screenWidth);
      }
    }

    method Perform(op: Op, screenWidth: int)
      requires Valid() && Step(State(), op, screenWidth).Some?
      modifies this, Footprint()
      decreases op, 0
      ensures Valid() && fresh(Footprint() - old(Footprint()))
      ensures State() == old(Step(State(), op, screenWidth)).value
    {
      match op
      case BeginVertical => BeginVertical();
      case EndVertical => EndVertical();
      case BeginHorizontal => BeginHorizontal();
      case EndHorizontal => EndHorizontal();
      case SetFieldWidth(w) => SetFieldWidth(w, screenWidth);
      case SetFieldHeight(h) => SetFieldHeight(h);
      case DrawField => DrawField();
      case DrawLabel(fontSize) => DrawLabel(fontSize);
      case DrawSpace(h) => DrawSpace(h);
      case AddSize(w, h) => AddSize(w, h);
      case DrawFoldout(foldout, body) =>
        var _ := DrawFoldout(foldout, foldout, body, screenWidth);
    }

    method BeginVertical()
      requires Valid()
      modifies this
      ensures Valid() && fresh(Footprint() - old(Footprint()))
      ensures State() == Begun(old(State()), Vertical)
    {
      var frame := new Frame(currentPosition.x, currentPosition.y, Vertical);
      stack := stack + [frame];
    }

    method EndVertical()
      requires Valid()
      modifies this, Footprint()
      ensures Valid() && Footprint() <= old(Footprint())
      ensures State() == Ended(old(State()), Vertical, 1, VerticalEndError)
    {
      InternalEndVertical(1);
    }

    /** The stop index keeps EndVertical from closing the root frame BeginProperty pushed. */
    method InternalEndVertical(stopIndex: nat)
      requires Valid()
      modifies this, Footprint()
      ensures Valid() && Footprint() <= old(Footprint())
      ensures State() == Ended(old(State()), Vertical, stopIndex, VerticalEndError)
    {
      var found;
      stack, currentPosition, found := EndGroup(stack, currentPosition, Vertical, stopIndex);
      if !found {
        log := log + [VerticalEndError];
      }
    }

    method BeginHorizontal()
      requires Valid()
      modifies this
      ensures Valid() && fresh(Footprint() - old(Footprint()))
      ensures State() == Begun(old(State()), Horizontal)
    {
      var frame := new Frame(currentPosition.x, currentPosition.y, Horizontal);
      stack := stack + [frame];
    }

    method EndHorizontal()
      requires Valid()
      modifies this, Footprint()
      ensures Valid() && Footprint() <= old(Footprint())
      ensures State() == Ended(old(State()), Horizontal, 0, HorizontalEndError)
    {
      var found;
      stack, currentPosition, found := EndGroup(stack, currentPosition, Horizontal, 0);
      if !found {
        log := log + [HorizontalEndError];
      }
    }
  }
}
