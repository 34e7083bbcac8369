/** The popups as they are used by the current views (src/popups.rs). They behave as the
    popups of src/ui.rs: the transitions are `Ui.MessageKey`, `Ui.ChoiceKey` and
    `Ui.InputKey`. Only the input popup's controls text differs. */
module Popups {
  import opened Ui

  const InputControls := "esc - Cancel | Enter - Confirm entry"

  /** `set_input_string`: the text is replaced wholesale, the flags are untouched. */
  function WithText(s: InputState, text: string): (r: InputState)
    ensures r.text == text
    ensures r.description == s.description && r.active == s.active && r.finished == s.finished
  {
    s.(text := text)
  }

  class MessageWindow {
    var description: string
    var isActive: bool
    var isDone: bool

    function Value(): MessageState
      reads this
    {
      MessageState(description, isActive, isDone)
    }

    constructor New(popupMessage: string)
      ensures Value() == NewMessage(popupMessage)
    {
      description, isActive, isDone := popupMessage, true, false;
    }

    /** `MessageWindow::default()`: empty and inactive. */
    constructor Default()
      ensures Value() == DefaultMessage
    {
      description, isActive, isDone := "", false, false;
    }

    function IsCompleted(): (r: bool)
      reads this
      ensures r == Value().done
    {
      isDone
    }

    method ResetCompletion()
      modifies this
      ensures Value() == old(Value()).(done := false)
    {
      isDone := false;
    }

    function IsActive(): (r: bool)
      reads this
      ensures r == Value().active
    {
      isActive
    }

    method SetActive(active: bool)
      modifies this
      ensures Value() == old(Value()).(active := active)
    {
      isActive := active;
    }

    method HandleInputKey(k: Key)
      modifies this
      ensures Value() == MessageKey(old(Value()), k)
    {
      match k {
        case Enter => isDone := true;
        case _ =>
      }
    }

    function GetControlsDescription(): (r: string)
      ensures r == MessageControls
    {
      "Press enter to continue"
    }

    function GetInputMode(): (m: InputMode)
      ensures m == CommandMode
    {
      CommandMode
    }
  }

  class BinaryChoice {
    var choiceMessage: string
    var currentChoice: bool
    var isCompleted: bool
    var isActive: bool

    function Value(): ChoiceState
      reads this
    {
      ChoiceState(choiceMessage, currentChoice, isCompleted, isActive)
    }

    constructor New(message: string)
      ensures Value() == NewChoice(message)
    {
      choiceMessage, currentChoice, isCompleted, isActive := message, false, false, true;
    }

    /** `BinaryChoice::default()`: empty and inactive. */
    constructor Default()
      ensures Value() == DefaultChoice
    {
      choiceMessage, currentChoice, isCompleted, isActive := "", false, false, false;
    }

    function GetChoice(): (r: bool)
      reads this
      ensures r == Value().choice
    {
      currentChoice
    }

    method HandleInputKey(k: Key)
      modifies this
      ensures Value() == ChoiceKey(old(Value()), k)
    {
      match k {
        case Left => currentChoice := true;
        case Right => currentChoice := false;
        case Enter => isCompleted := true;
        case _ =>
      }
    }

    function GetControlsDescription(): (r: string)
      ensures r == ChoiceControls
    {
      "<-: Go Left  |  ->: Go Right  |  Enter: Confirm Selection "
    }

    function GetInputMode(): (m: InputMode)
      ensures m == CommandMode
    {
      CommandMode
    }

    function IsCompleted(): (r: bool)
      reads this
      ensures r == Value().completed
    {
      isCompleted
    }

    method ResetCompletion()
      modifies this
      ensures Value() == old(Value()).(completed := false)
    {
      isCompleted := false;
    }

    function IsActive(): (r: bool)
      reads this
      ensures r == Value().active
    {
      isActive
    }

    method SetActive(active: bool)
      modifies this
      ensures Value() == old(Value()).(active := active)
    {
      isActive := active;
    }
  }

  class InputWindow {
    var description: string
    var inputString: string
    var isActive: bool
    var messageInputFinished: bool

    function Value(): InputState
      reads this
    {
      InputState(description, inputString, isActive, messageInputFinished)
    }

    constructor New(popupDescription: string)
      ensures Value() == NewInput(popupDescription)
    {
      description, inputString, isActive, messageInputFinished := popupDescription, "", true, false;
    }

    /** `InputWindow::default()`: empty and inactive. */
    constructor Default()
      ensures Value() == DefaultInput
    {
      description, inputString, isActive, messageInputFinished := "", "", false, false;
    }

    method SetInputString(newInputString: string)
      modifies this
      ensures Value() == WithText(old(Value()), newInputString)
    {
      inputString := newInputString;
    }

    function IsCompleted(): (r: bool)
      reads this
      ensures r == Value().finished
    {
      messageInputFinished
    }

    method ResetCompletion()
      modifies this
      ensures Value() == old(Value()).(finished := false)
    {
      messageInputFinished := false;
    }

    function IsActive(): (r: bool)
      reads this
      ensures r == Value().active
    {
      isActive
    }

    method SetActive(active: bool)
      modifies this
      ensures Value() == old(Value()).(active := active)
    {
      isActive := active;
    }

    /** `get_input_data`: the text typed so far; reading it changes nothing. */
    function GetInputData(): (r: string)
      reads this
      ensures r == Value().text
    {
      inputString
    }

    method HandleInputKey(k: Key)
      modifies this
      ensures Value() == InputKey(old(Value()), k)
    {
      match k {
        case Char(c) => inputString := inputString + [c];
        case Backspace =>
          if |inputString| > 0 {
            inputString := inputString[..|inputString| - 1];
          }
        case Enter => messageInputFinished := true;
        case Esc => SetActive(false);
        case _ =>
      }
    }

    function GetControlsDescription(): (r: string)
      ensures r == InputControls
    {
      "esc - Cancel | Enter - Confirm entry"
    }

    function GetInputMode(): (m: InputMode)
      ensures m == CommandMode
    {
      CommandMode
    }
  }
}
