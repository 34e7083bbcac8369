/** The widgets every view is built from (src/ui.rs): the key codes the views react to, the
    two input modes, the selection list `DisplayList` and the three popups (a message, a
    yes/no choice and a text input). The popup transitions defined here are shared with
    the later copies of the popups in src/popups.rs. */
module Ui {
  import opened Wrappers

  /** The key codes the handlers tell apart; every other key is `Other`. */
  datatype Key = Char(c: char) | Backspace | Enter | Esc | Left | Right | Up | Down | Tab | Other

  /** `InputMode` (src/ui.rs:31-34) has exactly these two variants. */
  datatype InputMode = CommandMode | WriteMode

  // ---------------------------------------------------------------------------
  // DisplayList (src/ui.rs:26-29, 91-130)
  // ---------------------------------------------------------------------------

  /** The value of a `DisplayList`: its items and the `ListState` selection. */
  datatype ListState<T> = ListState(items: seq<T>, selected: Option<nat>)

  /** "Something is selected exactly when there is something to select, and the selection
      is an index of the list." */
  predicate Consistent<T>(l: ListState<T>)
  {
    (l.selected.Some? <==> 0 < |l.items|) && (l.selected.Some? ==> l.selected.value < |l.items|)
  }

  /** `next` computes `len - 1` on a `usize` when something is selected; on an empty list
      that subtraction underflows and the program panics. */
  predicate NextPanics<T>(l: ListState<T>)
  {
    l.selected.Some? && |l.items| == 0
  }

  /** Indexing the list at the selection panics. */
  predicate SelectionOutOfRange<T>(l: ListState<T>)
  {
    l.selected.Some? && l.selected.value >= |l.items|
  }

  /** `DisplayList::from`: the first item is selected when there is one. */
  function ListFrom<T>(content: seq<T>): (l: ListState<T>)
    ensures l.items == content
    ensures l.selected.Some? <==> 0 < |content|
    ensures l.selected.Some? ==> l.selected.value == 0
    ensures Consistent(l)
  {
    ListState(content, if |content| > 0 then Some(0) else None)
  }

  /** `DisplayList::next`: one step down, holding at the last item; no selection becomes
      the first item; an empty list keeps its (empty) selection. */
  function SelectNext<T>(l: ListState<T>): (r: ListState<T>)
    requires !NextPanics(l)
    ensures r.items == l.items
    ensures |l.items| == 0 ==> r.selected == None
    ensures |l.items| > 0 && l.selected.None? ==> r.selected == Some(0)
    ensures l.selected.Some? && l.selected.value + 1 < |l.items| ==> r.selected == Some(l.selected.value + 1)
    ensures l.selected.Some? && l.selected.value + 1 >= |l.items| ==> r.selected == l.selected
    ensures Consistent(l) ==> Consistent(r)
  {
    var i := match l.selected
      case Some(i) => if i < |l.items| - 1 then i + 1 else i
      case None => 0;
    if |l.items| > 0 then l.(selected := Some(i)) else l
  }

  /** `DisplayList::previous`: one step up, holding at the first item. It selects
      unconditionally, so on an empty list it leaves an index to nothing. */
  function SelectPrevious<T>(l: ListState<T>): (r: ListState<T>)
    ensures r.items == l.items && r.selected.Some?
    ensures l.selected.Some? && l.selected.value > 0 ==> r.selected == Some(l.selected.value - 1)
    ensures l.selected.None? || l.selected.value == 0 ==> r.selected == Some(0)
    ensures |l.items| > 0 && Consistent(l) ==> Consistent(r)
    ensures |l.items| == 0 ==> !Consistent(r) && NextPanics(r) && SelectionOutOfRange(r)
  {
    var i := match l.selected
      case Some(i) => if i > 0 then i - 1 else 0
      case None => 0;
    l.(selected := Some(i))
  }

  /** The two ways a view moves a selection. */
  datatype Move = MoveNext | MovePrevious

  function Moved<T>(l: ListState<T>, moves: seq<Move>): ListState<T>
    requires |l.items| > 0
    decreases |moves|
  {
    if moves == [] then l
    else
      var step := if moves[0] == MoveNext then SelectNext(l) else SelectPrevious(l);
      Moved(step, moves[1..])
  }

  /** On a non-empty list whose selection starts in range, any sequence of `next` and
      `previous` keeps it in range and never panics. */
  lemma {:induction false} MovesStayConsistent<T>(l: ListState<T>, moves: seq<Move>)
    requires |l.items| > 0 && Consistent(l)
    ensures Moved(l, moves).items == l.items
    ensures Consistent(Moved(l, moves)) && !NextPanics(Moved(l, moves))
    decreases |moves|
  {
    if moves != [] {
      var step := if moves[0] == MoveNext then SelectNext(l) else SelectPrevious(l);
      MovesStayConsistent(step, moves[1..]);
    }
  }

  /** On an empty list, `previous` followed by `next` reaches the underflow. */
  lemma PreviousThenNextOnEmpty<T>(l: ListState<T>)
    requires l.items == [] && l.selected.None?
    ensures Consistent(l)
    ensures NextPanics(SelectPrevious(l))
  {
  }

  /** A `DisplayList` with its own in-place `next` and `previous`. */
  class DisplayList<T> {
    var items: seq<T>
    var selected: Option<nat>

    function Value(): ListState<T>
      reads this
    {
      ListState(items, selected)
    }

    constructor From(content: seq<T>)
      ensures Value() == ListFrom(content)
    {
      items := content;
      selected := if |content| > 0 then Some(0) else None;
    }

    method Next()
      requires !NextPanics(Value())
      modifies this
      ensures Value() == SelectNext(old(Value()))
    {
      var i: nat;
      match selected {
        case Some(j) =>
          if j < |items| - 1 { i := j + 1; } else { i := j; }
        case None =>
          i := 0;
      }
      if |items| > 0 {
        selected := Some(i);
      }
    }

    method Previous()
      modifies this
      ensures Value() == SelectPrevious(old(Value()))
    {
      var i: nat;
      match selected {
        case Some(j) =>
          if j > 0 { i := j - 1; } else { i := 0; }
        case None =>
          i := 0;
      }
      selected := Some(i);
    }
  }

  // ---------------------------------------------------------------------------
  // Popup transitions (src/ui.rs:133-399, repeated in src/popups.rs)
  // ---------------------------------------------------------------------------

  const MessageControls := "Press enter to continue"
  const ChoiceControls := "<-: Go Left  |  ->: Go Right  |  Enter: Confirm Selection "

  datatype MessageState = MessageState(description: string, active: bool, done: bool)
  datatype ChoiceState = ChoiceState(message: string, choice: bool, completed: bool, active: bool)
  datatype InputState = InputState(description: string, text: string, active: bool, finished: bool)

  /** The derived `Default` of each popup: empty text, every flag false. */
  const DefaultMessage := MessageState("", false, false)
  const DefaultChoice := ChoiceState("", false, false, false)
  const DefaultInput := InputState("", "", false, false)

  /** `new` of the message popup: shown and not yet acknowledged. */
  function NewMessage(description: string): (m: MessageState)
    ensures m.description == description && m.active && !m.done
  {
    MessageState(description, true, false)
  }

  /** The message popup reacts to Enter only, by marking itself done. */
  function MessageKey(m: MessageState, k: Key): (r: MessageState)
    ensures r.description == m.description && r.active == m.active
    ensures r.done <==> m.done || k == Enter
  {
    match k
    case Enter => m.(done := true)
    case _ => m
  }

  /** `new` of the choice popup: shown, undecided, and answering "no" until told otherwise. */
  function NewChoice(message: string): (c: ChoiceState)
    ensures c.message == message && !c.choice && !c.completed && c.active
  {
    ChoiceState(message, false, false, true)
  }

  /** Left means yes, Right means no, Enter confirms without touching the answer. */
  function ChoiceKey(c: ChoiceState, k: Key): (r: ChoiceState)
    ensures r.message == c.message && r.active == c.active
    ensures r.choice == if k == Left then true else if k == Right then false else c.choice
    ensures r.completed <==> c.completed || k == Enter
  {
    match k
    case Left => c.(choice := true)
    case Right => c.(choice := false)
    case Enter => c.(completed := true)
    case _ => c
  }

  /** `new` of the input popup: shown, empty, not finished. */
  function NewInput(description: string): (s: InputState)
    ensures s.description == description && s.text == "" && s.active && !s.finished
  {
    InputState(description, "", true, false)
  }

  /** The input popup's key handling: a character is appended, Backspace removes the last
      character of a non-empty text, Enter finishes, Esc hides the popup; nothing else
      has an effect. */
  function InputKey(s: InputState, k: Key): (r: InputState)
    ensures r.description == s.description
    ensures r.active <==> s.active && k != Esc
    ensures r.finished <==> s.finished || k == Enter
    ensures k.Char? ==> r.text == s.text + [k.c]
    ensures k == Backspace && s.text != "" ==> r.text + [s.text[|s.text| - 1]] == s.text
    ensures k == Backspace && s.text == "" ==> r.text == ""
    ensures !k.Char? && k != Backspace ==> r.text == s.text
  {
    match k
    case Char(c) => s.(text := s.text + [c])
    case Backspace => if |s.text| > 0 then s.(text := s.text[..|s.text| - 1]) else s
    case Enter => s.(finished := true)
    case Esc => s.(active := false)
    case _ => s
  }

  /** The popup after a sequence of keys. */
  function Feed(s: InputState, keys: seq<Key>): InputState
    decreases |keys|
  {
    if keys == [] then s else Feed(InputKey(s, keys[0]), keys[1..])
  }

  /** The keys that type `w`. */
  function Typed(w: string): (keys: seq<Key>)
    ensures |keys| == |w| && forall i :: 0 <= i < |w| ==> keys[i] == Char(w[i])
  {
    seq(|w|, i requires 0 <= i < |w| => Char(w[i]))
  }

  /** Typing a word appends it and changes nothing else. */
  lemma {:induction false} TypingAppends(s: InputState, w: string)
    ensures Feed(s, Typed(w)) == s.(text := s.text + w)
    decreases |w|
  {
    if w != "" {
      assert Typed(w)[1..] == Typed(w[1..]);
      TypingAppends(InputKey(s, Char(w[0])), w[1..]);
      assert s.text + [w[0]] + w[1..] == s.text + w;
    }
  }

  /** Typing "abc", one Backspace and Enter into a fresh popup leaves "ab", finished. */
  lemma TypeCorrectSubmit(description: string)
    ensures Feed(NewInput(description), Typed("abc") + [Backspace, Enter])
         == NewInput(description).(text := "ab", finished := true)
  {
    TypingAppends(NewInput(description), "abc");
    var typed := NewInput(description).(text := "abc");
    assert Typed("abc") + [Backspace, Enter] == Typed("abc") + [Backspace, Enter];
    FeedAppend(NewInput(description), Typed("abc"), [Backspace, Enter]);
    assert Feed(typed, [Backspace, Enter]) == typed.(text := "ab", finished := true);
  }

  lemma {:induction false} FeedAppend(s: InputState, a: seq<Key>, b: seq<Key>)
    ensures Feed(s, a + b) == Feed(Feed(s, a), b)
    decreases |a|
  {
    if a != [] {
      assert (a + b)[1..] == a[1..] + b;
      FeedAppend(InputKey(s, a[0]), a[1..], b);
    } else {
      assert a + b == b;
    }
  }

  // ---------------------------------------------------------------------------
  // The popups of src/ui.rs as objects
  // ---------------------------------------------------------------------------

  class PopupMessageWindow {
    var description: string
    var isActive: bool
    var isDone: bool

    function Value(): MessageState
      reads this
    {
      MessageState(description, isActive, isDone)
    }

    constructor New(message: string)
      ensures Value() == NewMessage(message)
    {
      description, isActive, isDone := message, true, false;
    }

    function IsCompleted(): (r: bool)
      reads this
      ensures r == Value().done
    {
      isDone
    }

    method ResetCompletion()
      modifies this
      ensures Value() == old(Value()).(done := false)
    {
      isDone := false;
    }

    function IsActive(): (r: bool)
      reads this
      ensures r == Value().active
    {
      isActive
    }

    method SetActive(active: bool)
      modifies this
      ensures Value() == old(Value()).(active := active)
    {
      isActive := active;
    }

    method HandleInputKey(k: Key)
      modifies this
      ensures Value() == MessageKey(old(Value()), k)
    {
      match k {
        case Enter => isDone := true;
        case _ =>
      }
    }

    function GetControlsDescription(): (r: string)
      ensures r == MessageControls
    {
      "Press enter to continue"
    }

    function GetInputMode(): (m: InputMode)
      ensures m == CommandMode
    {
      CommandMode
    }
  }

  class PopupBinaryChoice {
    var choiceMessage: string
    var currentChoice: bool
    var isCompleted: bool
    var isActive: bool

    function Value(): ChoiceState
      reads this
    {
      ChoiceState(choiceMessage, currentChoice, isCompleted, isActive)
    }

    constructor New(message: string)
      ensures Value() == NewChoice(message)
    {
      choiceMessage, currentChoice, isCompleted, isActive := message, false, false, true;
    }

    function GetChoice(): (r: bool)
      reads this
      ensures r == Value().choice
    {
      currentChoice
    }

    method HandleInputKey(k: Key)
      modifies this
      ensures Value() == ChoiceKey(old(Value()), k)
    {
      match k {
        case Left => currentChoice := true;
        case Right => currentChoice := false;
        case Enter => isCompleted := true;
        case _ =>
      }
    }

    function IsCompleted(): (r: bool)
      reads this
      ensures r == Value().completed
    {
      isCompleted
    }

    method ResetCompletion()
      modifies this
      ensures Value() == old(Value()).(completed := false)
    {
      isCompleted := false;
    }

    function IsActive(): (r: bool)
      reads this
      ensures r == Value().active
    {
      isActive
    }

    method SetActive(active: bool)
      modifies this
      ensures Value() == old(Value()).(active := active)
    {
      isActive := active;
    }

    function GetControlsDescription(): (r: string)
      ensures r == ChoiceControls
    {
      "<-: Go Left  |  ->: Go Right  |  Enter: Confirm Selection "
    }

    function GetInputMode(): (m: InputMode)
      ensures m == CommandMode
    {
      CommandMode
    }
  }

  class PopupInputWindow {
    var description: string
    var inputString: string
    var isActive: bool
    var messageInputFinished: bool

    function Value(): InputState
      reads this
    {
      InputState(description, inputString, isActive, messageInputFinished)
    }

    constructor New(popupDescription: string)
      ensures Value() == NewInput(popupDescription)
    {
      description, inputString, isActive, messageInputFinished := popupDescription, "", true, false;
    }

    function IsCompleted(): (r: bool)
      reads this
      ensures r == Value().finished
    {
      messageInputFinished
    }

    method ResetCompletion()
      modifies this
      ensures Value() == old(Value()).(finished := false)
    {
      messageInputFinished := false;
    }

    function IsActive(): (r: bool)
      reads this
      ensures r == Value().active
    {
      isActive
    }

    method SetActive(active: bool)
      modifies this
      ensures Value() == old(Value()).(active := active)
    {
      isActive := active;
    }

    /** `get_input_data`: the text typed so far. */
    function GetInputData(): (r: string)
      reads this
      ensures r == Value().text
    {
      inputString
    }

    method HandleInputKey(k: Key)
      modifies this
      ensures Value() == InputKey(old(Value()), k)
    {
      match k {
        case Char(c) => inputString := inputString + [c];
        case Backspace =>
          if |inputString| > 0 {
            inputString := inputString[..|inputString| - 1];
          }
        case Enter => messageInputFinished := true;
        case Esc => SetActive(false);
        case _ =>
      }
    }

    /** This copy of the input popup shows its own description as its controls. */
    function GetControlsDescription(): (r: string)
      reads this
      ensures r == Value().description
    {
      description
    }

    function GetInputMode(): (m: InputMode)
      ensures m == CommandMode
    {
      CommandMode
    }
  }
}
