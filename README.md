# Claude panel applet: panel-state controller

A Dafny model of the state logic of `ClaudePanelApplet`, a Cinnamon panel applet that shows a
text entry, a send button, a settings menu with a permission mode, and a chat window that opens
above the panel and can be resized by dragging a handle on its top edge.

The applet is one object whose event handlers update its fields in place, so the model is one
class, `Applet.ClaudePanelApplet`, with the same fields: the config record, the permission mode,
whether the chat window is open, its height, width and position, the drag state (`dragging`,
`dragStartY`, `dragStartHeight`, `dragStartWindowY`), the number of stage handler pairs connected,
the menu label texts, and the entry text. Its methods are the handlers. The pure parts are plain
functions in their own modules:

- `Geometry`: the clamp to [100, 800] and the outcome of one motion event (`MotionOutcome`).
- `JsText`: `String.prototype.trim`, which the send guard uses, with the ECMAScript whitespace set.
- `Permission`: the three modes and the mode-to-labels mapping of `_updateCheckmarks`.
- `PanelConfig`: the config record `{permissionMode, chatHeight, chatWidth}`, its defaults
  (`normal`, 400, 400) and JavaScript's `||` fallback on its fields.

What is proved:

- Every motion event that changes the height leaves it in [100, 800], whatever the pointer did.
- A motion event that changes the height puts the window's top edge at
  `dragStartWindowY - (newHeight - dragStartHeight)`. So `windowY + chatHeight` stays what it was
  when the drag started, and the window's bottom edge, a constant 22 below that sum, stays fixed.
  `BottomAnchored` holds from drag start on, and every motion event keeps it.
- Motion without a drag changes nothing and returns false. Motion whose clamped height is within
  1 of the current height changes neither height nor position.
- Drag start sets the anchors to the pointer, the current height and the window's top edge.
- Drag end during a drag clears it and saves the record, so the saved height is the live height.
  Drag end without a drag changes nothing. Both return false.
- The arrow toggle flips `chatOpen`. Opening puts the window at the applet's X with its top edge
  at applet Y - `chatHeight` - 10. Closing leaves the position alone.
- Setting mode `m` stores `m` and saves it. Afterwards exactly the item of `m` starts with `✓ `.
  For each mode the other two items start with two spaces. The invariant `Valid` says the labels
  always show the current mode.
- `trim()` is empty exactly when the entry is blank, so a blank entry is left alone and any other
  entry is cleared. The trimmed text is the slice of the entry between a whitespace-only prefix
  and a whitespace-only suffix, it has no whitespace at either end, and trimming twice changes
  nothing.

Observations the model makes explicit:

- A config file with `chatHeight: 0` (or without it) yields height 400, because of `|| 400`.
  A stored height outside [100, 800] is kept until the first drag motion that changes it.
- A stored `permissionMode` that is none of the three names is kept as the mode. No item is then
  checked, because `_updateCheckmarks` matches no branch.
- A second press on the handle during a drag connects a second pair of stage handlers. Drag end
  disconnects only the pair whose ids are stored. `stageConnections` counts the pairs, so you can
  see the leaked pair.
- Opening the window during a drag moves it away from the drag's anchor. `BottomAnchored` is then
  re-established by the next motion event that changes the height, or by a new drag start.
- `Geometry.ResizeExamples` works three cases with desired height = start height + (start Y -
  pointer Y), as `_onDragMotion` computes it (applet.js:319-322).

## Model

| member | source | states |
|---|---|---|
| `Geometry.ClampHeight` | claude-panel@claude-code/applet.js:324-325 | the result lies in [100, 800], equals the input inside that range, and saturates at the nearer limit outside it |
| `Geometry.MotionOutcome` | claude-panel@claude-code/applet.js:318-342 | a motion is swallowed exactly when the clamped height is within 1 of the current height; otherwise the new height is in [100, 800], differs from the current by at least 1, follows the pointer exactly when in range, saturates outside it, and the new top edge keeps bottom = start top + start height |
| `Geometry.ResizeExamples` | claude-panel@claude-code/applet.js:318-325 | a 400 window grabbed at 500 and raised 800 saturates at 800; lowered 150 gives 250; a 200 window lowered 400 stops at 100 |
| `JsText.LeadingBlanks` | claude-panel@claude-code/applet.js:389 | the count is at most the length, every counted character is whitespace, and the next one, if any, is not |
| `JsText.TrailingBlanks` | claude-panel@claude-code/applet.js:389 | the count is at most the length, every counted character at the end is whitespace, and the one before them, if any, is not |
| `JsText.TrimStart` | claude-panel@claude-code/applet.js:389 | the result is a suffix of the input, everything dropped is whitespace, and it does not begin with whitespace |
| `JsText.TrimEnd` | claude-panel@claude-code/applet.js:389 | the result is a prefix of the input, everything dropped is whitespace, and it does not end with whitespace |
| `JsText.Trim` | claude-panel@claude-code/applet.js:389 | `trim()` is empty exactly when the string is blank; otherwise it neither begins nor ends with whitespace, and is no longer than the input |
| `JsText.TrimIsInfix` | claude-panel@claude-code/applet.js:389 | `trim()` is a slice `s[i..j]` of its input, and every character before `i` and from `j` on is whitespace |
| `JsText.TrimIdempotent` | claude-panel@claude-code/applet.js:389 | trimming a trimmed string changes nothing |
| `JsText.TrimKeepsNonBlankEnds` | claude-panel@claude-code/applet.js:389 | a string whose first and last characters are not whitespace is its own trim |
| `Permission.ModeNamed` | claude-panel@claude-code/applet.js:172-184 | a mode name is recognised exactly when it is one of the three names, compared exactly |
| `Permission.UpdateCheckmarks` | claude-panel@claude-code/applet.js:166-185 | for a mode name the selected item reads "✓ " + caption and the other two "  " + caption; for any other string the labels are unchanged |
| `Permission.ExactlyOneChecked` | claude-panel@claude-code/applet.js:172-184 | for every mode exactly the matching item starts with "✓ " and the other two start with two spaces |
| `Permission.CheckmarksForget` | claude-panel@claude-code/applet.js:172-184 | for a recognised mode the labels do not depend on what they showed before |
| `PanelConfig.StringOr` | claude-panel@claude-code/applet.js:204 | `v \|\| d` on a string field: an absent or empty field gives the default, any other value is kept |
| `PanelConfig.NumberOr` | claude-panel@claude-code/applet.js:23-24 | `v \|\| d` on a number field: an absent or zero field gives the default, any other value is kept |
| `Applet.ClaudePanelApplet.constructor` | claude-panel@claude-code/applet.js:11-151 | the record is the loaded one or the defaults; height and width come from it with the 400 fallback; without a file the mode is normal and the size 400 by 400; the window is closed, no drag is on, and the labels show the mode |
| `Applet.ClaudePanelApplet.LoadConfig` | claude-panel@claude-code/applet.js:195-219 | a loaded record is kept and its truthy mode adopted (else normal); without one the default record and mode normal |
| `Applet.ClaudePanelApplet.SaveConfig` | claude-panel@claude-code/applet.js:221-231 | the record becomes the live mode, height and width |
| `Applet.ClaudePanelApplet.UpdateLabels` | claude-panel@claude-code/applet.js:166-185 | the labels become the mode's labels; an unknown mode leaves them as they were |
| `Applet.ClaudePanelApplet.SetPermissionMode` | claude-panel@claude-code/applet.js:187-193 | the mode becomes `m`, the saved record holds `m` and the live size, exactly the item of `m` is checked, and `Valid` is kept |
| `Applet.ClaudePanelApplet.OnSetNormal` | claude-panel@claude-code/applet.js:154-156 | the mode becomes normal and is saved |
| `Applet.ClaudePanelApplet.OnSetSudo` | claude-panel@claude-code/applet.js:158-160 | the mode becomes sudo and is saved |
| `Applet.ClaudePanelApplet.OnSetDangerous` | claude-panel@claude-code/applet.js:162-164 | the mode becomes dangerous and is saved |
| `Applet.ClaudePanelApplet.OnDragStart` | claude-panel@claude-code/applet.js:299-313 | the drag is on with the pointer, current height and window Y as anchors, one more handler pair is connected, the bottom edge is anchored, and the event is claimed; nothing else changes |
| `Applet.ClaudePanelApplet.OnDragMotion` | claude-panel@claude-code/applet.js:315-345 | without a drag nothing changes and false is returned; during a drag true is returned and height and top edge follow `MotionOutcome`; any changed height lies in [100, 800] with the bottom edge at the anchor; the anchored bottom edge is preserved; width, X and the drag state never change |
| `Applet.ClaudePanelApplet.OnDragEnd` | claude-panel@claude-code/applet.js:347-367 | during a drag: the drag is off, one handler pair is disconnected and the saved record holds the live height; without a drag nothing changes; false either way |
| `Applet.ClaudePanelApplet.OnArrowClicked` | claude-panel@claude-code/applet.js:369-385 | the open flag flips; closing keeps the position; opening puts the window at the applet's X with top edge applet Y − `chatHeight` − 10 |
| `Applet.ClaudePanelApplet.OnSendMessage` | claude-panel@claude-code/applet.js:387-394 | a blank entry stays as it is; any other entry is cleared |

## Left out

- Widget construction, styles, icons, the popup menu and its `close`/`toggle`, and `show`/`hide` are UI calls into St, Clutter and Cinnamon, which are not part of this model. The window's visibility and the arrow icon are therefore not modelled. The window's height is set through its style string, which also gives it `padding: 10px` and a 1-pixel border. `chatHeight` is the content height, so the window box is 22 pixels taller than `chatHeight`. Because that offset is constant, the fixed-bottom-edge results hold for the box as well.
- Stage signal `connect`/`disconnect` are modelled only as the count `stageConnections`, not as routing of events. The handle's hover styling is left out.
- The file I/O of `_loadConfig`/`_saveConfig` (`mkdir`, `file_get_contents`, `JSON.parse`/`stringify`, `file_set_contents`) is left out because it is I/O. The file's contents arrive as a parameter, and None stands for a missing, unreadable or unparsable file. A failed write only logs, so the model keeps just the in-memory record.
- Config values of other JSON types (a number as the mode, a string as the height) are not modelled. Keys other than the three are not modelled either; the applet would keep them and write them back.
- `global.log` calls are left out because they only log.
- `_onClearHistory` only logs and closes the menu; history clearing is a TODO in the source. `_onGearClicked` only toggles the menu. Neither is modelled.
- Forwarding a sent message to an agent is a TODO in the source (line 392), so nothing is modelled past clearing the entry. `EditEntry` stands for the user typing into the entry.
- JavaScript numbers are modelled as exact reals. Floating-point rounding, NaN and infinities are not modelled. Strings are sequences of Unicode scalar values rather than UTF-16 code units, which does not affect `trim` because every whitespace code point is in the Basic Multilingual Plane.
- Before the first drag, `_dragStartWindowY` is undefined in the source; the model starts it at 0, and it is read only during a drag. Before the window is first opened, its position is the actor's initial (0, 0).
