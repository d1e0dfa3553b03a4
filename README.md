# Nested layout stack of Unity-Simple-Property-Drawer

Unity-Simple-Property-Drawer gives Unity editor property drawers a small
layout engine. A drawer keeps a stack of layout groups
(`LayoutDirectionRect`: an origin, a direction and a width and height that
grow) and a cursor rectangle (`currentPosition`). `BeginProperty` pushes a
Vertical root group; `BeginVertical`/`BeginHorizontal` push groups at the
cursor; each field, label or space moves the cursor (down in a Vertical group,
right in a Horizontal one) and grows the current group; closing a group folds
its extents into its parent and moves the cursor past it; `EndProperty`
closes the root and adds its height to the property height that
`GetPropertyHeight` reports. Two variants share this engine:
`SimplePropertyDrawer` (field heights come from the host, labels may carry a
fixed height, `GetPropertyHeight` is the accumulated height plus 16) and
`PropertyDrawerBase` (field heights come from the `fieldHeight` setting,
`GetPropertyHeight` is the host's height plus the accumulated height less
the last field's height).

The model has two layers.

- Values: `Layout.DrawerState` holds the stack (as `FrameValue`s), the cursor,
  the start position, the property height, the stored field width and
  height, the last field height and the log of error messages. One function
  per operation (`Begun`, `Ended`, `Recorded`, `Spaced`, `SizeAdded`,
  `FieldWidthSet`, `FieldHeightSet`, `PropertyBegun`, `PropertyEnded`, and the
  drawer-specific `FieldDrawn`, `LabelDrawn`, `SpaceDrawn`, `FoldoutDrawn`)
  says what it does to a state. The lemmas in `LayoutProperties`,
  `SimpleDrawerProperties` and `DrawerBaseProperties` are about these
  functions.
- Objects: `Layout.Frame` is the group class with `AdjustHeight` and
  `AdjustWidth` updating its fields in place. The classes
  `SimpleDrawer.SimplePropertyDrawer` and `DrawerBase.PropertyDrawerBase`
  hold the stack as a sequence of `Frame` objects and the other fields as
  variables. Every method is proved to take `State()` to the value-level
  function's result. The search loop shared by `InternalEndVertical` and
  `EndHorizontal` is `Layout.EndGroup`. It walks down from the top to the
  stop index and closes the first group of the requested direction with
  `Layout.CloseFrame`. The frames are distinct objects, so the source's
  reference comparison `currentDirectionRect == stack[i]` holds exactly when `i` is
  the top, and `List.Remove(stack[i])` removes index `i`.

The foldout callback (`System.Action`) is a sequence of `Op`s. `Run`
interprets it at value level and `PerformAll` performs it on the object.
An operation that reads the current group throws in the source when the
stack is empty (index out of range). `Step` and `Run` return `None` there.
The object methods require a non-empty stack.

Behaviour of the source that the model keeps, and the lemmas that state it:

- `EndVertical` searches down to index 1, so when the stack was empty at
  `BeginProperty` it never closes the root group that `BeginProperty` pushed;
  with only the root open it logs its error (`RootSurvives`,
  `SimpleDrawerProperties.EndVerticalAtRootLogs`). `BeginProperty` does not
  clear the stack, so after a pass that left groups open the new root sits
  above them and `EndVertical` can close it.
- When the closed group is not the top (a search that skipped groups of the
  other direction), the cursor does not move and the top group folds its own
  extents into itself, doubling a Vertical top's height or a Horizontal
  top's width (`CloseBelowTopFoldsTopIntoItself`).
- Closing a group moves the cursor by the closed group's full height (or
  width) from where the cursor already is. When a Vertical group sits inside
  a Vertical group, the fields in it have already moved the cursor down, so
  the cursor ends below the group by its height a second time
  (`NestedVerticalAdvancesTwice`).
- `SimplePropertyDrawer.DrawField` applies its width limit and then restores
  the cached width before it records the field, so the limit leaves no trace
  (`DrawFieldIgnoresLimit`). Restoring goes through `SetFieldWidth` with the
  getter's value, so a zero stored width becomes the start width clamped to
  [0, Screen.width - 25].
- `PropertyDrawerBase.DrawSpace(aHeight)` ignores its argument and always
  spaces by 16 (`DrawerBaseProperties.DrawSpaceIgnoresArgument`).
- `PropertyDrawerBase.DrawField` does not update the last field height, and
  `BeginProperty` resets neither the last field height nor the stack
  (`DrawerBaseProperties.SingleFieldPass`).

Sizes are `real`. The source's `float` arithmetic is taken as exact.
Integer arguments (`DrawSpace`, `AddSize`, font sizes) are converted with
`as real`. `Screen.width` and the host's property heights
(`EditorGUI.GetPropertyHeight`) are parameters.

## Model

| member | source | states |
|---|---|---|
| Layout.Max | SimplePropertyDrawer.cs:30 | the result is at least both arguments and equals one of them |
| Layout.Clamp | SimplePropertyDrawer.cs:127 | inside the bounds when they are ordered; the value itself when in range; the lower bound when below it (compared first); the upper bound when at least the lower bound and above the upper |
| Layout.AdjustedHeight | SimplePropertyDrawer.cs:28-35 | a Vertical group's height grows by exactly the argument, a Horizontal group's height becomes the larger of the two; origin, width and direction kept; a non-negative argument never shrinks it |
| Layout.AdjustedWidth | SimplePropertyDrawer.cs:37-44 | a Horizontal group's width grows by exactly the argument, a Vertical group's width becomes the larger of the two; the rest kept; a non-negative argument never shrinks it |
| Layout.Fold | SimplePropertyDrawer.cs:337-338 | folding (w, h) into a Vertical group adds h to its height and keeps the wider of w and its width; into a Horizontal group adds w to its width and keeps the taller of h and its height; origin and direction kept |
| Layout.Frame.constructor | SimplePropertyDrawer.cs:21-26 | a new group has the given origin and direction and zero extents |
| Layout.Frame.AdjustHeight | SimplePropertyDrawer.cs:28-35 | the object's value becomes the value-level AdjustedHeight of its old value |
| Layout.Frame.AdjustWidth | SimplePropertyDrawer.cs:37-44 | the object's value becomes the value-level AdjustedWidth of its old value |
| Layout.Begun | SimplePropertyDrawer.cs:308-310 | exactly one group is pushed, at the cursor, with zero extents and the given direction; nothing else changes |
| Layout.Find | SimplePropertyDrawer.cs:318-319 | the index found lies in [stop, count), has the requested direction and no group above it has; nothing is found exactly when no group in [stop, count) has the direction |
| Layout.ClosedCursor | SimplePropertyDrawer.cs:321-329 | the cursor keeps its size; it moves only when the closed group is the top and has a parent: to the parent's x and down by the group's height under a Vertical parent, right by its width and to the parent's y under a Horizontal one |
| Layout.ClosedFrames | SimplePropertyDrawer.cs:331-339 | closing a group leaves one group fewer |
| Layout.Ended | SimplePropertyDrawer.cs:317-346 | an end call changes only the stack, the cursor and the log; with no matching group it appends the error and keeps stack and cursor; with one it removes exactly one group and logs nothing |
| Layout.PropertyBegun | SimplePropertyDrawer.cs:149-160 | one Vertical root is pushed at the position, the cursor and start become the position 16 high, the property height is reset to 0, and nothing else changes (leftover groups stay) |
| Layout.PropertyEnded | SimplePropertyDrawer.cs:165-171 | the property height grows by the height the top group had before the close; only stack, cursor, log and property height change; a Vertical bottom group guarantees one group is removed without an error |
| Layout.FieldWidth | SimplePropertyDrawer.cs:108 | the fieldWidth getter gives the stored width when positive and the start width otherwise, so a non-positive stored width never reaches a caller |
| Layout.StoredOrStartHeight | SimplePropertyDrawer.cs:109 | the labelHeight / fieldHeight getter gives the stored height when positive and the start height otherwise |
| Layout.EndGroup | SimplePropertyDrawer.cs:317-346 | the loop closes the group Find names (stack and cursor become ClosedFrames and ClosedCursor) or, when none matches, changes nothing; the stack stays distinct |
| Layout.CloseFrame | SimplePropertyDrawer.cs:321-339 | repositions the cursor when the closed group is the top, removes index i and folds the old top's extents into the new top unless i is 0 |
| Layout.Reposition | SimplePropertyDrawer.cs:321-329 | the cursor moves by the parent's direction only when frame i is the top and has a parent; this is ClosedCursor of the stack's values |
| Layout.FoldIntoTop | SimplePropertyDrawer.cs:336-339 | AdjustWidth then AdjustHeight change the top frame's value to Fold of it and leave every other frame's value |
| Layout.RemovedViews | SimplePropertyDrawer.cs:334 | removing one group keeps the other groups distinct and their values in order |
| Layout.FieldWidthSet | SimplePropertyDrawer.cs:126-130 | the stored width is clamped to [0, Screen.width - 25]: identity inside, 0 below, exactly Screen.width - 25 above; the cursor's width becomes the fieldWidth getter's value; nothing else changes |
| Layout.FieldHeightSet | SimplePropertyDrawer.cs:135-142 | a height below 1 becomes 16, otherwise it is kept; the stored height and the cursor's height become it; nothing else changes |
| Layout.Recorded | SimplePropertyDrawer.cs:206-214 | recording a field changes only the top group and the cursor's position; groups below the top and the cursor's size are kept |
| Layout.RecordedKeepsCursorHeight | SimplePropertyDrawer.cs:250-266 | recording does not depend on the cursor's height, so the label's temporary height override has no effect on the layout |
| Layout.Spaced | SimplePropertyDrawer.cs:282-288 | a space moves the cursor down by its height in either direction, grows the top group by AdjustHeight, and is remembered as the last field height only when asked; nothing else changes |
| Layout.SizeAdded | SimplePropertyDrawer.cs:235-238 | AddSize grows only the top group, width first then height; the cursor and everything else are kept |
| LayoutProperties.EndDepth | SimplePropertyDrawer.cs:317-346 | an end call with no matching group only appends the error to the log; with a match it removes exactly one group and logs nothing |
| LayoutProperties.RootSurvives | SimplePropertyDrawer.cs:312-318 | with a stop index of 1, or a root of the other direction, the root group stays at index 0 with its origin and direction |
| LayoutProperties.EndMovesCursor | SimplePropertyDrawer.cs:321-329 | closing the top group with a parent moves the cursor to the parent's x and down by the group's height (Vertical parent) or right by its width and to the parent's y (Horizontal parent); otherwise the cursor stays; its size never changes |
| LayoutProperties.NestedVerticalAdvancesTwice | SimplePropertyDrawer.cs:321-324 | a Vertical group holding one field inside the Vertical root leaves the cursor 2 * (h + 4) below where it started: the field and the close both move it |
| LayoutProperties.CloseTopFoldsIntoParent | SimplePropertyDrawer.cs:331-339 | closing the top group folds its extents into the parent by the parent's growth rule and changes nothing below it |
| LayoutProperties.CloseBelowTopFoldsTopIntoItself | SimplePropertyDrawer.cs:321-339 | closing a group below the top leaves the cursor, drops the closed group's extents and doubles a Vertical top's height or a Horizontal top's width |
| LayoutProperties.CloseRootFoldsNothing | SimplePropertyDrawer.cs:336-339 | closing index 0 removes it without folding and leaves the cursor |
| LayoutProperties.BeginEndRoundTrip | SimplePropertyDrawer.cs:308-346 | begin then the matching end restores the stack, the log and every size; only the cursor snaps to the parent's x or y |
| LayoutProperties.OpenedShape | SimplePropertyDrawer.cs:308-310 | n BeginVertical calls push n empty Vertical groups at the cursor and change nothing else |
| LayoutProperties.EndUndoesInnerBegin | SimplePropertyDrawer.cs:312-346 | with at least two nested empty Vertical groups open, EndVertical undoes the innermost exactly, cursor included |
| LayoutProperties.NestedEmptyGroupsUnwind | SimplePropertyDrawer.cs:308-346 | n nested BeginVertical calls followed by n EndVertical calls restore the stack and every size |
| LayoutProperties.UnwindToOne | SimplePropertyDrawer.cs:308-346 | closing n nested empty Vertical groups ends in the same state as closing one |
| LayoutProperties.RecordStep | SimplePropertyDrawer.cs:206-214 | one field: Vertical moves down by h + 4 and adds it to the group's height, the width becomes the larger; Horizontal moves right by the field width and adds it to the width, the height becomes the larger; the field width is kept |
| LayoutProperties.VerticalRecordsSum | SimplePropertyDrawer.cs:206-214 | in a Vertical group a run of fields adds the sum of their heights plus 4 per field to the group's height and to the cursor's y; the group's width becomes the larger of its width and the field width |
| LayoutProperties.HorizontalRecordsWidth | SimplePropertyDrawer.cs:211-214 | in a Horizontal group a run of fields adds one field width per field to the group's width and the cursor's x; the cursor's y and the groups below are kept |
| LayoutProperties.HorizontalRecordsMax | SimplePropertyDrawer.cs:211-214 | in a Horizontal group the height after a run of fields is at least the group's old height and every field's height, and equals one of them |
| LayoutProperties.FieldWidthRoundTrip | SimplePropertyDrawer.cs:126-130 | the fieldWidth getter returns a width set inside (0, Screen.width - 25], the bound itself after a wider one, and the start width after a non-positive one; setting twice is setting once |
| LayoutProperties.EndPropertyAddsTopHeight | SimplePropertyDrawer.cs:165-171 | EndProperty adds the top group's height to the property height; a lone Vertical root is removed and the cursor kept |
| LayoutProperties.BeginPropertyPushesRoot | SimplePropertyDrawer.cs:149-160 | BeginProperty resets the property height, starts at the position with height 16 and pushes one Vertical root there |
| SimpleDrawer.LabelHeightFor | SimplePropertyDrawer.cs:249 | a label's height is the larger of its fixed height and its font size |
| SimpleDrawer.ReportedHeight | SimplePropertyDrawer.cs:113-115 | the reported height is one default line (16) above the accumulated property height |
| SimpleDrawer.FieldDrawn | SimplePropertyDrawer.cs:190-218 | a field of host height h keeps the other groups, the cursor height and every field but the stored width; it moves down by h + 4 and adds h + 4 in a Vertical group, stays on the line and keeps the taller height in a Horizontal one |
| SimpleDrawer.LabelDrawn | SimplePropertyDrawer.cs:247-269 | a label changes only the top group, the cursor position and the last field height, which becomes the label height; the cursor keeps its size |
| SimpleDrawer.SpaceDrawn | SimplePropertyDrawer.cs:275-288 | the public DrawSpace moves the cursor down by its argument and remembers it; only the top group, cursor and last field height change |
| SimpleDrawer.FoldoutDrawn | SimplePropertyDrawer.cs:295-302 | a closed foldout always succeeds, 16 lower with 16 remembered; a foldout that succeeds leaves a non-empty stack |
| SimpleDrawer.Step | SimplePropertyDrawer.cs:299 | stack operations and setters never fail; every drawing operation fails on an empty stack |
| SimpleDrawer.Run | SimplePropertyDrawer.cs:299 | an empty callback changes nothing; a first operation that fails aborts the callback |
| SimpleDrawer.SimplePropertyDrawer.FieldWidth | SimplePropertyDrawer.cs:108 | the object getter agrees with Layout.FieldWidth on the drawer's state |
| SimpleDrawer.SimplePropertyDrawer.LabelHeight | SimplePropertyDrawer.cs:109 | the object getter agrees with Layout.StoredOrStartHeight on the drawer's state |
| SimpleDrawer.SimplePropertyDrawer.MaxWidth | SimplePropertyDrawer.cs:110 | the object getter is the start width of the state |
| SimpleDrawer.SimplePropertyDrawer.constructor | SimplePropertyDrawer.cs:96-104 | a new drawer has zero sizes and an empty stack |
| SimpleDrawer.SimplePropertyDrawer.GetPropertyHeight | SimplePropertyDrawer.cs:113-115 | reports the accumulated height plus 16 |
| SimpleDrawer.SimplePropertyDrawer.SetFieldWidth | SimplePropertyDrawer.cs:126-130 | the state becomes FieldWidthSet of the old state |
| SimpleDrawer.SimplePropertyDrawer.SetFieldHeight | SimplePropertyDrawer.cs:135-142 | the state becomes FieldHeightSet of the old state |
| SimpleDrawer.SimplePropertyDrawer.BeginProperty | SimplePropertyDrawer.cs:149-160 | returns the position with height 16; the state becomes PropertyBegun of the old state |
| SimpleDrawer.SimplePropertyDrawer.EndProperty | SimplePropertyDrawer.cs:165-171 | the state becomes PropertyEnded of the old state (close from index 0, add the top's height) |
| SimpleDrawer.SimplePropertyDrawer.DrawField | SimplePropertyDrawer.cs:181-222 | the state becomes FieldDrawn of the old state |
| SimpleDrawer.SimplePropertyDrawer.Record | SimplePropertyDrawer.cs:206-214 | the state becomes Recorded of the old state; the stack keeps its objects |
| SimpleDrawer.SimplePropertyDrawer.AddSize | SimplePropertyDrawer.cs:235-238 | the state becomes SizeAdded of the old state |
| SimpleDrawer.SimplePropertyDrawer.DrawLabel | SimplePropertyDrawer.cs:243-270 | the state becomes LabelDrawn of the old state |
| SimpleDrawer.SimplePropertyDrawer.DrawSpace | SimplePropertyDrawer.cs:275-277 | the state becomes Spaced(old state, height, remembered) |
| SimpleDrawer.SimplePropertyDrawer.DrawSpaceCached | SimplePropertyDrawer.cs:282-288 | the state becomes Spaced of the old state |
| SimpleDrawer.SimplePropertyDrawer.DrawFoldout | SimplePropertyDrawer.cs:293-303 | hands back the host's open flag; the state becomes FoldoutDrawn of the old state |
| SimpleDrawer.SimplePropertyDrawer.PerformAll | SimplePropertyDrawer.cs:299 | performing the callback's operations in order takes the state to Run of the old state |
| SimpleDrawer.SimplePropertyDrawer.Perform | SimplePropertyDrawer.cs:299 | performing one operation takes the state to Step of the old state |
| SimpleDrawer.SimplePropertyDrawer.BeginVertical | SimplePropertyDrawer.cs:308-310 | the state becomes Begun(old state, Vertical) |
| SimpleDrawer.SimplePropertyDrawer.EndVertical | SimplePropertyDrawer.cs:312-314 | the state becomes Ended(old state, Vertical, stop 1) |
| SimpleDrawer.SimplePropertyDrawer.InternalEndVertical | SimplePropertyDrawer.cs:317-346 | the state becomes Ended(old state, Vertical, stop index), logging the error when nothing matches |
| SimpleDrawer.SimplePropertyDrawer.BeginHorizontal | SimplePropertyDrawer.cs:348-350 | the state becomes Begun(old state, Horizontal) |
| SimpleDrawer.SimplePropertyDrawer.EndHorizontal | SimplePropertyDrawer.cs:352-383 | the state becomes Ended(old state, Horizontal, stop 0), logging the error when nothing matches |
| SimpleDrawerProperties.DrawFieldIgnoresLimit | SimplePropertyDrawer.cs:190-204 | DrawField with any width limit ends in the same state as with no limit |
| SimpleDrawerProperties.DrawFieldAdvances | SimplePropertyDrawer.cs:181-222 | with a field width inside the screen bound the width is kept; Vertical: down by host height + 4, group height grows by it; Horizontal: right by the field width, group width grows by it, height is the larger |
| SimpleDrawerProperties.DrawLabelKeepsCursorHeight | SimplePropertyDrawer.cs:243-270 | a label records max(fixed height, font size) by the direction's rule, remembers it as the last field height and leaves the cursor's size |
| SimpleDrawerProperties.DrawSpaceMovesDown | SimplePropertyDrawer.cs:275-288 | DrawSpace(h) moves down by h in either direction and remembers h |
| SimpleDrawerProperties.FoldoutHeights | SimplePropertyDrawer.cs:293-303 | a closed foldout adds 16 to a Vertical group, an open one with an empty callback 22; both remember 16 |
| SimpleDrawerProperties.OpenFoldoutBracketsBody | SimplePropertyDrawer.cs:296-301 | an open foldout fails exactly when its callback fails or empties the stack; otherwise it ends 3 below the callback's cursor, keeping the callback's last field height |
| SimpleDrawerProperties.SingleFieldPass | SimplePropertyDrawer.cs:149-171 | BeginProperty, one field of height h, EndProperty: empty stack, property height h + 4, reported height h + 20 |
| SimpleDrawerProperties.EmptyPass | SimplePropertyDrawer.cs:149-171 | a pass that draws nothing reports 16 |
| SimpleDrawerProperties.EndVerticalAtRootLogs | SimplePropertyDrawer.cs:312-318 | EndVertical with only the root open logs the error and changes nothing else |
| SimpleDrawerProperties.RunAppend | SimplePropertyDrawer.cs:299 | running two callbacks in turn is running their concatenation; a failure in the first skips the second |
| DrawerBase.LabelHeightFor | PropertyDrawerBase.cs:207 | a label's height is the larger of the fieldHeight getter and its font size |
| DrawerBase.ReportedHeight | PropertyDrawerBase.cs:82-84 | the reported height exceeds the host's height by the accumulated height less the last field height |
| DrawerBase.FieldDrawn | PropertyDrawerBase.cs:149-162 | a field changes only the top group and the cursor; down by fieldHeight + 4 in a Vertical group, right by fieldWidth with the top as tall as the taller of itself and fieldHeight in a Horizontal one |
| DrawerBase.LabelDrawn | PropertyDrawerBase.cs:205-227 | a label changes only the top group, the cursor position and the last field height, which becomes the label height; the cursor keeps its size |
| DrawerBase.SpaceDrawn | PropertyDrawerBase.cs:233-246 | the public DrawSpace moves the cursor down by 16 and remembers 16 whatever its argument; only the top group, cursor and last field height change |
| DrawerBase.FoldoutDrawn | PropertyDrawerBase.cs:253-260 | a closed foldout always succeeds, 16 lower with 16 remembered; a foldout that succeeds leaves a non-empty stack |
| DrawerBase.Step | PropertyDrawerBase.cs:257 | stack operations and setters never fail; every drawing operation fails on an empty stack |
| DrawerBase.Run | PropertyDrawerBase.cs:257 | an empty callback changes nothing; a first operation that fails aborts the callback |
| DrawerBase.PropertyDrawerBase.FieldWidth | PropertyDrawerBase.cs:77 | the object getter agrees with Layout.FieldWidth on the drawer's state |
| DrawerBase.PropertyDrawerBase.FieldHeight | PropertyDrawerBase.cs:78 | the object getter agrees with Layout.StoredOrStartHeight on the drawer's state |
| DrawerBase.PropertyDrawerBase.MaxWidth | PropertyDrawerBase.cs:79 | the object getter is the start width of the state |
| DrawerBase.PropertyDrawerBase.constructor | PropertyDrawerBase.cs:65-73 | a new drawer has zero sizes and an empty stack |
| DrawerBase.PropertyDrawerBase.GetPropertyHeight | PropertyDrawerBase.cs:82-84 | reports the host's height plus the accumulated height less the last field height |
| DrawerBase.PropertyDrawerBase.SetFieldWidth | PropertyDrawerBase.cs:95-99 | the state becomes FieldWidthSet of the old state |
| DrawerBase.PropertyDrawerBase.SetFieldHeight | PropertyDrawerBase.cs:104-111 | the state becomes FieldHeightSet of the old state |
| DrawerBase.PropertyDrawerBase.BeginProperty | PropertyDrawerBase.cs:118-129 | returns the position with height 16; the state becomes PropertyBegun of the old state |
| DrawerBase.PropertyDrawerBase.EndProperty | PropertyDrawerBase.cs:134-140 | the state becomes PropertyEnded of the old state |
| DrawerBase.PropertyDrawerBase.DrawField | PropertyDrawerBase.cs:149-162 | the state becomes FieldDrawn of the old state |
| DrawerBase.PropertyDrawerBase.Record | PropertyDrawerBase.cs:152-161 | the state becomes Recorded of the old state; the stack keeps its objects |
| DrawerBase.PropertyDrawerBase.AddSize | PropertyDrawerBase.cs:175-178 | the state becomes SizeAdded of the old state |
| DrawerBase.PropertyDrawerBase.DrawLabel | PropertyDrawerBase.cs:197-228 | the state becomes LabelDrawn of the old state |
| DrawerBase.PropertyDrawerBase.DrawSpace | PropertyDrawerBase.cs:233-235 | the state becomes SpaceDrawn of the old state, a remembered space of 16 |
| DrawerBase.PropertyDrawerBase.DrawSpaceCached | PropertyDrawerBase.cs:240-246 | the state becomes Spaced of the old state |
| DrawerBase.PropertyDrawerBase.DrawFoldout | PropertyDrawerBase.cs:251-261 | hands back the host's open flag; the state becomes FoldoutDrawn of the old state |
| DrawerBase.PropertyDrawerBase.PerformAll | PropertyDrawerBase.cs:257 | performing the callback's operations in order takes the state to Run of the old state |
| DrawerBase.PropertyDrawerBase.Perform | PropertyDrawerBase.cs:257 | performing one operation takes the state to Step of the old state |
| DrawerBase.PropertyDrawerBase.BeginVertical | PropertyDrawerBase.cs:266-268 | the state becomes Begun(old state, Vertical) |
| DrawerBase.PropertyDrawerBase.EndVertical | PropertyDrawerBase.cs:270-272 | the state becomes Ended(old state, Vertical, stop 1) |
| DrawerBase.PropertyDrawerBase.InternalEndVertical | PropertyDrawerBase.cs:275-304 | the state becomes Ended(old state, Vertical, stop index), logging the error when nothing matches |
| DrawerBase.PropertyDrawerBase.BeginHorizontal | PropertyDrawerBase.cs:306-308 | the state becomes Begun(old state, Horizontal) |
| DrawerBase.PropertyDrawerBase.EndHorizontal | PropertyDrawerBase.cs:310-339 | the state becomes Ended(old state, Horizontal, stop 0), logging the error when nothing matches |
| DrawerBaseProperties.DrawSpaceIgnoresArgument | PropertyDrawerBase.cs:233-235 | DrawSpace gives the same state for every argument: down 16, remembered 16 |
| DrawerBaseProperties.DrawFieldUsesFieldHeight | PropertyDrawerBase.cs:149-162 | a field is as tall as the fieldHeight getter: Vertical down by it + 4, Horizontal right by the field width; the last field height is untouched |
| DrawerBaseProperties.SetFieldHeightSizesFields | PropertyDrawerBase.cs:104-111 | after SetFieldHeight(h) a field in a Vertical group adds h + 4 (16 + 4 for h below 1) and the cursor is h high |
| DrawerBaseProperties.DrawLabelKeepsCursorHeight | PropertyDrawerBase.cs:197-228 | a label records max(fieldHeight, font size), remembers it and leaves the cursor's size |
| DrawerBaseProperties.FoldoutHeights | PropertyDrawerBase.cs:251-261 | a closed foldout adds 16 to a Vertical group, an open one with an empty callback 22; both remember 16 |
| DrawerBaseProperties.OpenFoldoutBracketsBody | PropertyDrawerBase.cs:254-260 | an open foldout fails exactly when its callback fails or empties the stack; otherwise it ends 3 below the callback's cursor, keeping the callback's last field height |
| DrawerBaseProperties.SingleLabelPass | PropertyDrawerBase.cs:82-84 | a pass with one label reports the host's height plus 4 whatever the font size |
| DrawerBaseProperties.SingleFieldPass | PropertyDrawerBase.cs:82-84 | a pass with one field reports the host's height plus fieldHeight + 4 less the last field height left by the previous pass |
| DrawerBaseProperties.RunAppend | PropertyDrawerBase.cs:257 | running two callbacks in turn is running their concatenation; a failure in the first skips the second |

## Left out

- Host drawing calls (`EditorGUI.PropertyField`, `LabelField`, `Foldout`, `DrawRect`, `BeginProperty`/`EndProperty`, `EditorUtility.SetDirty`) and the `GUIContent` that `BeginProperty` returns: they draw or talk to the editor and do not affect the layout state. `DrawFoldout`'s result is the host widget's return value, passed in as a parameter.
- `EditorGUIUtility.labelWidth`, `fieldWidth` and `indentLevel`, label styles, textures, colours and padding (`CreateLabelStyle`, `MakeTex`), and the colour of a Horizontal group, which the Simple constructor discards anyway.
- `DrawField`'s display name, label width and background colour arguments, and the overloads that take a property name only: they change what is drawn, not the layout.
- The helpers `GetHeight` (the host's property height, a parameter here), `NewLine` (never called) and the `Property` getter.
- `Debug.LogError` is modelled as appending the message to `log`.
- An operation that reads the current group on an empty stack throws in the source; the object methods require a non-empty stack and the callback interpreter returns `None`.
- `float` rounding is not modelled: sizes are exact reals.
