/**
 * The panel-state controller of `ClaudePanelApplet` (claude-panel@claude-code/applet.js):
 * the resize drag, the chat-window toggle, the permission mode, the config record and the
 * send guard. Widget construction, styling, icons, menus and logging are not modelled;
 * positions reported by Clutter arrive as parameters.
 */
module Applet {
  import opened Wrappers
  import opened Geometry
  import opened JsText
  import opened Permission
  import opened PanelConfig

  class ClaudePanelApplet {
    /** `_config`: the in-memory configuration record. */
    var config: Config
    /** `_permissionMode`: any string a loaded record holds, or one of the three mode names. */
    var permissionMode: string
    var chatOpen: bool
    var chatHeight: real
    var chatWidth: real
    /** The chat window actor's position (`get_position` / `set_position`). */
    var windowX: real
    var windowY: real
    var dragging: bool
    var dragStartY: real
    var dragStartHeight: real
    var dragStartWindowY: real
    /**
     * How many (motion, release) handler pairs are connected to the stage. Every drag start
     * connects a pair; a drag end disconnects only the pair whose ids are stored.
     */
    var stageConnections: nat
    /** The label texts of the three permission menu items. */
    var labels: Labels
    /** The text of the input entry. */
    var entryText: string

    /** While a drag is on, its handlers are connected, and the menu always shows the mode. */
    ghost predicate Valid()
      reads this
    {
      (dragging ==> stageConnections >= 1) &&
      labels == UpdateCheckmarks(permissionMode, InitialLabels)
    }

    /** During a drag the top edge plus the content height, and so the bottom edge, is what it was when the drag started. */
    ghost predicate BottomAnchored()
      reads this
    {
      dragging ==> windowY + chatHeight == dragStartWindowY + dragStartHeight
    }

    /** The record `_saveConfig` writes: the live mode and size. */
    function LiveConfig(): (c: Config)
      reads this
    {
      Config(Some(permissionMode), Some(chatHeight), Some(chatWidth))
    }

    /**
     * The constructor with the config file's contents `stored` (None: missing, unreadable or
     * unparsable). The chat window starts closed at the origin, no drag is on, and the menu
     * labels show the loaded mode.
     */
    constructor (stored: Option<Config>)
      ensures Valid()
      ensures config == (if stored.Some? then stored.value else DefaultConfig)
      ensures permissionMode == (if stored.Some? then StringOr(stored.value.permissionMode, DefaultMode) else DefaultMode)
      ensures chatHeight == NumberOr(config.chatHeight, DefaultSize)
      ensures chatWidth == NumberOr(config.chatWidth, DefaultSize)
      ensures stored.None? ==> permissionMode == "normal" && chatHeight == 400.0 && chatWidth == 400.0
      ensures !chatOpen && windowX == 0.0 && windowY == 0.0
      ensures !dragging && dragStartY == 0.0 && dragStartHeight == 0.0 && stageConnections == 0
      ensures labels == UpdateCheckmarks(permissionMode, InitialLabels)
      ensures entryText == ""
    {
      config := DefaultConfig;
      permissionMode := DefaultMode;
      chatOpen := false;
      chatHeight := DefaultSize;
      chatWidth := DefaultSize;
      windowX, windowY := 0.0, 0.0;
      dragging := false;
      dragStartY, dragStartHeight, dragStartWindowY := 0.0, 0.0, 0.0;
      stageConnections := 0;
      labels := InitialLabels;
      entryText := "";
      new;
      LoadConfig(stored);
      chatOpen := false;
      chatHeight := NumberOr(config.chatHeight, DefaultSize);
      chatWidth := NumberOr(config.chatWidth, DefaultSize);
      UpdateLabels();
    }

    /**
     * `_loadConfig` with the file's contents `stored`: a loaded record is kept as it is and its
     * mode, when truthy, becomes the applet's; otherwise the defaults are used.
     */
    method LoadConfig(stored: Option<Config>)
      modifies this`config, this`permissionMode
      ensures stored.Some? ==> config == stored.value && permissionMode == StringOr(stored.value.permissionMode, DefaultMode)
      ensures stored.None? ==> config == DefaultConfig && permissionMode == DefaultMode
    {
      if stored.Some? {
        config := stored.value;
        permissionMode := StringOr(config.permissionMode, DefaultMode);
        return;
      }
      config := DefaultConfig;
      permissionMode := DefaultMode;
    }

    /** `_saveConfig`: copies the live mode, height and width into the record. */
    method SaveConfig()
      modifies this`config
      ensures config == LiveConfig()
      ensures config.permissionMode == Some(permissionMode) && config.chatHeight == Some(chatHeight)
    {
      config := Config(Some(permissionMode), Some(chatHeight), Some(chatWidth));
    }

    /** `_updateCheckmarks`: rewrites the three labels for the current mode. */
    method UpdateLabels()
      modifies this`labels
      ensures labels == UpdateCheckmarks(permissionMode, old(labels))
    {
      labels := UpdateCheckmarks(permissionMode, labels);
    }

    /**
     * `_setPermissionMode`, as the three menu items call it: the mode becomes `m`, the record
     * is saved with it and exactly the item of `m` is checked.
     */
    method SetPermissionMode(m: Mode)
      requires Valid()
      modifies this`permissionMode, this`config, this`labels
      ensures Valid()
      ensures permissionMode == m.Name()
      ensures config == LiveConfig() && config.permissionMode == Some(m.Name())
      ensures forall k: Mode :: StartsWith(labels.Of(k), CheckPrefix) <==> k == m
    {
      permissionMode := m.Name();
      SaveConfig();
      UpdateLabels();
      CheckmarksForget(m, old(labels), InitialLabels);
      ExactlyOneChecked(m, InitialLabels);
    }

    /** `_onSetNormal` */
    method OnSetNormal()
      requires Valid()
      modifies this`permissionMode, this`config, this`labels
      ensures Valid() && permissionMode == "normal" && config == LiveConfig()
    {
      SetPermissionMode(Normal);
    }

    /** `_onSetSudo` */
    method OnSetSudo()
      requires Valid()
      modifies this`permissionMode, this`config, this`labels
      ensures Valid() && permissionMode == "sudo" && config == LiveConfig()
    {
      SetPermissionMode(Sudo);
    }

    /** `_onSetDangerous` */
    method OnSetDangerous()
      requires Valid()
      modifies this`permissionMode, this`config, this`labels
      ensures Valid() && permissionMode == "dangerous" && config == LiveConfig()
    {
      SetPermissionMode(Dangerous);
    }

    /**
     * `_onDragStart` for a press at stage Y `pointerY`: the drag begins with the pointer, the
     * current height and the window's current top edge as anchors, and a handler pair is
     * connected. A press while a drag is already on reconnects without disconnecting.
     * The event is claimed (true).
     */
    method OnDragStart(pointerY: real) returns (handled: bool)
      requires Valid()
      modifies this`dragging, this`dragStartY, this`dragStartHeight, this`dragStartWindowY, this`stageConnections
      ensures Valid() && BottomAnchored()
      ensures dragging
      ensures dragStartY == pointerY && dragStartHeight == chatHeight && dragStartWindowY == windowY
      ensures stageConnections == old(stageConnections) + 1
      ensures handled
    {
      dragging := true;
      dragStartY := pointerY;
      dragStartHeight := chatHeight;
      dragStartWindowY := windowY;
      stageConnections := stageConnections + 1;
      handled := true;
    }

    /**
     * `_onDragMotion` for the pointer at stage Y `pointerY`. Without a drag nothing changes and
     * the event is passed on (false). During a drag the event is claimed (true) and the window
     * takes the outcome of `MotionOutcome`: unchanged when the clamped height is within 1 of the
     * current one, otherwise a height in [100, 800] with the bottom edge kept at the drag's anchor.
     */
    method OnDragMotion(pointerY: real) returns (handled: bool)
      requires Valid()
      modifies this`chatHeight, this`windowY
      ensures Valid()
      ensures handled == dragging
      ensures !dragging ==> chatHeight == old(chatHeight) && windowY == old(windowY)
      ensures dragging ==>
                match MotionOutcome(dragStartY, dragStartHeight, dragStartWindowY, old(chatHeight), pointerY)
                case None => chatHeight == old(chatHeight) && windowY == old(windowY)
                case Some(p) => chatHeight == p.height && windowY == p.windowY
      ensures chatHeight != old(chatHeight) ==> MinHeight <= chatHeight <= MaxHeight && BottomAnchored()
      ensures old(BottomAnchored()) ==> BottomAnchored()
    {
      if !dragging {
        return false;
      }
      var desiredHeight := DesiredHeight(dragStartY, dragStartHeight, pointerY);
      var newHeight := ClampHeight(desiredHeight);
      if Abs(newHeight - chatHeight) < 1.0 {
        return true;
      }
      var actualDeltaY := newHeight - dragStartHeight;
      windowY := dragStartWindowY - actualDeltaY;
      chatHeight := newHeight;
      return true;
    }

    /**
     * `_onDragEnd`: ending a drag clears it, disconnects the stored handler pair and saves the
     * record, so the saved height is the dragged one. Without a drag nothing changes.
     * The event is always passed on (false).
     */
    method OnDragEnd() returns (handled: bool)
      requires Valid()
      modifies this`dragging, this`stageConnections, this`config
      ensures Valid()
      ensures !dragging && !handled
      ensures old(dragging) ==> stageConnections == old(stageConnections) - 1 && config == LiveConfig()
      ensures old(dragging) ==> config.chatHeight == Some(chatHeight)
      ensures !old(dragging) ==> stageConnections == old(stageConnections) && config == old(config)
    {
      if dragging {
        dragging := false;
        stageConnections := stageConnections - 1;
        SaveConfig();
      }
      return false;
    }

    /**
     * `_onArrowClicked` with the applet's stage position (`appletX`, `appletY`): closing leaves
     * the window where it is; opening puts it at the applet's X with its top edge at
     * applet Y - chatHeight - 10.
     */
    method OnArrowClicked(appletX: real, appletY: real)
      requires Valid()
      modifies this`chatOpen, this`windowX, this`windowY
      ensures Valid()
      ensures chatOpen == !old(chatOpen)
      ensures old(chatOpen) ==> windowX == old(windowX) && windowY == old(windowY)
      ensures !old(chatOpen) ==> windowX == appletX && windowY == appletY - chatHeight - WindowGap
    {
      if chatOpen {
        chatOpen := false;
      } else {
        windowX, windowY := appletX, appletY - chatHeight - 10.0;
        chatOpen := true;
      }
    }

    /** The user editing the input entry (done by the host's text widget). */
    method EditEntry(text: string)
      requires Valid()
      modifies this`entryText
      ensures Valid()
      ensures entryText == text
    {
      entryText := text;
    }

    /**
     * `_onSendMessage`: an entry that is empty or only whitespace is left alone; any other text
     * is taken and the entry cleared. Forwarding the text is not part of the applet.
     */
    method OnSendMessage()
      requires Valid()
      modifies this`entryText
      ensures Valid()
      ensures IsBlank(old(entryText)) ==> entryText == old(entryText)
      ensures !IsBlank(old(entryText)) ==> entryText == ""
    {
      var message := entryText;
      if Trim(message) != [] {
        entryText := "";
      }
    }
  }
}
