/**
 * The control-state store over live controls: toggle buttons and input
 * boxes whose inline state the page's handlers change in place, kept in
 * step with the browser store.
 */
module Controls {
  import opened Wrappers
  import opened Storage
  import opened Persistence

  /** A button of the toggle set: every button on the page but the save button. */
  class ToggleButton {
    /** The button's `textContent`; the page never changes it. */
    const caption: string
    /** `style.backgroundColor` */
    var backgroundColor: string
    /** `style.color` */
    var color: string

    function Appearance(): Style
      reads this
    {
      Style(backgroundColor, color)
    }

    constructor (caption: string, style: Style)
      ensures this.caption == caption && Appearance() == style
    {
      this.caption := caption;
      backgroundColor := style.background;
      color := style.color;
    }

    /**
     * The click listener: the current inline background decides whether the
     * toggle is on; the style is flipped and the new state committed.
     */
    method Click(store: LocalStorage)
      modifies this, store
      ensures IsGreen(Appearance()) == !IsGreen(old(Appearance()))
      ensures Appearance() == ClickedStyle(IsGreen(old(Appearance())))
      ensures store.items == ToggleCommit(old(store.items), caption, ClickState(IsGreen(old(Appearance()))))
    {
      var isGreen := backgroundColor == GreenBackground;
      if isGreen {
        backgroundColor := "";
        color := "";
        SaveButtonState(this, OffState, store);
      } else {
        backgroundColor := GreenBackground;
        color := GreenText;
        SaveButtonState(this, OnValue, store);
      }
    }
  }

  /** An element of class `inputbox`. */
  class InputBox {
    /** The element's `id`: its identity, not its content. */
    const id: string
    /** The element's `value`. */
    var value: string

    constructor (id: string, value: string)
      ensures this.id == id && this.value == value
    {
      this.id := id;
      this.value := value;
    }
  }

  /** `saveButtonState(button, state)`: set the sentinel for "green", remove the key otherwise. */
  method SaveButtonState(button: ToggleButton, state: string, store: LocalStorage)
    modifies store
    ensures store.items == ToggleCommit(old(store.items), button.caption, state)
  {
    var buttonName := button.caption;
    if state == OnValue {
      store.SetItem(ToggleKey(buttonName), OnValue);
    } else {
      store.RemoveItem(ToggleKey(buttonName));
    }
  }

  /**
   * `loadButtonStates`: every toggle is painted from the store, and reset to
   * the default style unless its key holds the sentinel. The store is only read.
   */
  method LoadButtonStates(buttons: seq<ToggleButton>, store: LocalStorage)
    modifies set b | b in buttons
    ensures forall k :: 0 <= k < |buttons| ==> buttons[k].Appearance() == HydratedStyle(store.items, buttons[k].caption)
    ensures forall k :: 0 <= k < |buttons| ==>
              (IsGreen(buttons[k].Appearance()) <==> StoredOn(store.items, buttons[k].caption))
    ensures store.items == old(store.items)
  {
    for i := 0 to |buttons|
      invariant forall k :: 0 <= k < i ==> buttons[k].Appearance() == HydratedStyle(store.items, buttons[k].caption)
    {
      var button := buttons[i];
      var buttonName := button.caption;
      var savedState := store.GetItem(ToggleKey(buttonName));
      if savedState == Some(OnValue) {
        button.backgroundColor := GreenBackground;
        button.color := GreenText;
      } else {
        button.backgroundColor := "";
        button.color := "";
      }
    }
    forall k | 0 <= k < |buttons|
      ensures IsGreen(buttons[k].Appearance()) <==> StoredOn(store.items, buttons[k].caption)
    {
      HydratedGreenIffStored(store.items, buttons[k].caption);
    }
  }

  /**
   * `loadInputValues`: a field whose key is present takes the stored value;
   * a field with no key keeps its content. The store is only read.
   */
  method LoadInputValues(inputs: seq<InputBox>, store: LocalStorage)
    modifies set x | x in inputs
    ensures forall k :: 0 <= k < |inputs| ==>
              inputs[k].value == HydratedValue(store.items, inputs[k].id, old(inputs[k].value))
    ensures store.items == old(store.items)
  {
    for i := 0 to |inputs|
      invariant forall k :: 0 <= k < i ==>
                  inputs[k].value == HydratedValue(store.items, inputs[k].id, old(inputs[k].value))
      invariant forall k :: i <= k < |inputs| ==>
                  inputs[k].value == old(inputs[k].value) ||
                  inputs[k].value == HydratedValue(store.items, inputs[k].id, old(inputs[k].value))
    {
      var input := inputs[i];
      var savedValue := store.GetItem(FieldKey(input.id));
      if savedValue.Some? {
        input.value := savedValue.value;
      }
    }
  }

  /** `saveInputValue(input)`: the field's current content overwrites its key. */
  method SaveInputValue(input: InputBox, store: LocalStorage)
    modifies store
    ensures store.items == FieldCommit(old(store.items), input.id, input.value)
  {
    store.SetItem(FieldKey(input.id), input.value);
  }

  /**
   * An `input` event: the browser has replaced the field's content with
   * `typed`, and the listener commits it.
   */
  method OnInput(input: InputBox, typed: string, store: LocalStorage)
    modifies input, store
    ensures input.value == typed
    ensures store.items == FieldCommit(old(store.items), input.id, typed)
  {
    input.value := typed;
    SaveInputValue(input, store);
  }
}
