/** The text tool hook (useTextTool.ts): the floating textarea's life cycle
    and the once-only submit guard. The textarea element itself is reduced to
    whether one is open; its creation in the page, its styling and focus are
    not modelled. */
module TextTool {
  import opened JsValues
  import opened Types
  import Store

  class TextToolState {
    /** `showTextInput` */
    var showTextInput: bool
    /** `textareaRef.current !== null` */
    var textareaOpen: bool
    /** `textToolActiveRef.current` */
    var textToolActive: bool
    /** `clickedPositionRef.current` */
    var clickedPosition: Point
    /** `textSubmittedRef.current` */
    var textSubmitted: bool

    constructor ()
      ensures !showTextInput && !textareaOpen && !textToolActive && !textSubmitted
      ensures clickedPosition == Point(0.0, 0.0)
    {
      showTextInput := false;
      textareaOpen := false;
      textToolActive := false;
      clickedPosition := Point(0.0, 0.0);
      textSubmitted := false;
    }

    /** `cleanupTextarea`: an open textarea is removed and the input hidden;
        with none open nothing changes. */
    method Cleanup()
      modifies this`textareaOpen, this`showTextInput
      ensures !textareaOpen
      ensures old(textareaOpen) ==> !showTextInput
      ensures !old(textareaOpen) ==> showTextInput == old(showTextInput)
    {
      if textareaOpen {
        textareaOpen := false;
        showTextInput := false;
      }
    }

    /** `safeSubmitText(text, handler)`: returns the text handed to the
        handler, or None when it is not called. The guard lets one submit
        through per textarea; the textarea is cleaned up before the handler
        would run, and blank text never reaches it. */
    method SafeSubmit(text: string) returns (handled: Option<string>)
      modifies this`textSubmitted, this`textareaOpen, this`showTextInput
      ensures old(textSubmitted) || !old(textareaOpen) ==>
        handled == None && textSubmitted == old(textSubmitted)
        && textareaOpen == old(textareaOpen) && showTextInput == old(showTextInput)
      ensures !old(textSubmitted) && old(textareaOpen) ==>
        textSubmitted && !textareaOpen && !showTextInput
        && handled == (if IsBlank(text) then None else Some(text))
      ensures handled.Some? ==> handled.value == text && !IsBlank(text)
    {
      if textSubmitted || !textareaOpen {
        return None;
      }
      textSubmitted := true;
      Cleanup();
      if IsBlank(text) {
        return None;
      }
      handled := Some(text);
    }

    /** `createTextArea`: any open textarea is replaced by a fresh one, and the
        submit guard is re-armed. */
    method CreateTextArea()
      modifies this`textSubmitted, this`textareaOpen, this`showTextInput
      ensures textareaOpen && showTextInput && !textSubmitted
    {
      Cleanup();
      textSubmitted := false;
      textareaOpen := true;
      showTextInput := true;
    }

    /** The tool-change effect: the text tool is active exactly when it is
        the current tool, and leaving it cleans up an open textarea. */
    method OnToolChange(tool: DrawingTool)
      modifies this`textToolActive, this`textareaOpen, this`showTextInput
      ensures textToolActive == (tool == TextTool)
      ensures tool != TextTool ==> !textareaOpen
      ensures tool != TextTool && old(textareaOpen) ==> !showTextInput
      ensures tool == TextTool || !old(textareaOpen) ==>
        textareaOpen == old(textareaOpen) && showTextInput == old(showTextInput)
    {
      textToolActive := tool == TextTool;
      if tool != TextTool && textareaOpen {
        Cleanup();
      }
    }

    /** `activateTextTool`: the world position is recorded here and in the
        canvas store before the textarea is created. */
    method ActivateTextTool(world: Point, store: Store.CanvasState)
      modifies this`clickedPosition, this`textSubmitted, this`textareaOpen, this`showTextInput, store`textPosition
      ensures clickedPosition == world && store.textPosition == world
      ensures textareaOpen && showTextInput && !textSubmitted
    {
      clickedPosition := world;
      store.SetTextPosition(world);
      CreateTextArea();
    }

    /** Two submits on one textarea: the second never reaches the handler. */
    method SubmitTwice(first: string, second: string) returns (a: Option<string>, b: Option<string>)
      modifies this`textSubmitted, this`textareaOpen, this`showTextInput
      ensures b == None
      ensures a.Some? ==> a.value == first
    {
      a := SafeSubmit(first);
      b := SafeSubmit(second);
    }
  }
}
