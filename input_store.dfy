/** The input store (cli/src/state/input-store.ts): the input text, its
    cursor, the navigation flag and two focus flags. The setter clamps the
    cursor into the text it stores. */
module InputStore {
  import opened Common
  import opened ChatTypes

  /** The argument of `setInputValue`: a value, or an updater of the current value. */
  datatype InputUpdate = NewValue(value: InputValue) | Updater(f: InputValue -> InputValue)

  /** The value an update produces from the current one. */
  function Resolve(u: InputUpdate, current: InputValue): InputValue
  {
    match u
    case NewValue(v) => v
    case Updater(f) => f(current)
  }

  /** What `setInputValue` stores for a value: the text and flag as given, the
      cursor clamped into the text. */
  function ClampInput(v: InputValue): (r: InputValue)
    ensures r.text == v.text && r.lastEditDueToNav == v.lastEditDueToNav
    ensures 0 <= r.cursorPosition <= |r.text|
    ensures 0 <= v.cursorPosition <= |v.text| ==> r == v
    ensures v.cursorPosition < 0 ==> r.cursorPosition == 0
    ensures v.cursorPosition > |v.text| ==> r.cursorPosition == |v.text|
  {
    v.(cursorPosition := Clamp(v.cursorPosition, 0, |v.text|))
  }

  /** Storing twice stores the same thing. */
  lemma ClampInputIdempotent(v: InputValue)
    ensures ClampInput(ClampInput(v)) == ClampInput(v)
  {
  }

  class InputStore {
    var inputValue: string
    var cursorPosition: int
    var lastEditDueToNav: bool
    var inputFocused: bool
    var isFocusSupported: bool

    /** The cursor lies inside the stored text. */
    predicate Valid()
      reads this
    {
      0 <= cursorPosition <= |inputValue|
    }

    /** The (text, cursor, flag) triple an updater receives. */
    function Current(): InputValue
      reads this
    {
      InputValue(inputValue, cursorPosition, lastEditDueToNav)
    }

    constructor ()
      ensures Valid()
      ensures Current() == EmptyInput && inputFocused && !isFocusSupported
    {
      inputValue := "";
      cursorPosition := 0;
      lastEditDueToNav := false;
      inputFocused := true;
      isFocusSupported := false;
    }

    method SetInputValue(u: InputUpdate)
      modifies this
      ensures Valid()
      ensures Current() == ClampInput(Resolve(u, old(Current())))
      ensures inputFocused == old(inputFocused) && isFocusSupported == old(isFocusSupported)
    {
      var v := Resolve(u, Current());
      inputValue := v.text;
      cursorPosition := Clamp(v.cursorPosition, 0, |v.text|);
      lastEditDueToNav := v.lastEditDueToNav;
    }

    method SetInputFocused(focused: bool)
      modifies this
      ensures inputFocused == focused
      ensures Current() == old(Current()) && isFocusSupported == old(isFocusSupported)
    {
      inputFocused := focused;
    }

    method SetIsFocusSupported(supported: bool)
      modifies this
      ensures isFocusSupported == supported
      ensures Current() == old(Current()) && inputFocused == old(inputFocused)
    {
      isFocusSupported := supported;
    }

    /** Back to the empty, focused input; focus support is a property of the
        terminal and survives. */
    method Reset()
      modifies this
      ensures Valid()
      ensures Current() == EmptyInput && inputFocused
      ensures isFocusSupported == old(isFocusSupported)
    {
      inputValue := "";
      cursorPosition := 0;
      lastEditDueToNav := false;
      inputFocused := true;
    }
  }
}
