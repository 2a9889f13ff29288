/**
 * The page's start-up: the registries of toggles and fields, the optional
 * save button, and the hydration that runs once the document has loaded.
 * The scenario methods at the end are clients that use only the contracts.
 */
module Page {
  import opened Storage
  import opened Persistence
  import opened Controls
  import opened Export

  /**
   * The `DOMContentLoaded` handler. The toggle set never contains the save
   * button (they are different kinds here); export behaviour is attached only
   * when a save button exists, and attaching it changes nothing. Then every
   * toggle and every field is hydrated; the store is only read.
   */
  method ContentLoaded(buttons: seq<ToggleButton>, inputs: seq<InputBox>, saveButton: SaveButton?, store: LocalStorage)
    returns (exportAttached: bool)
    modifies set b | b in buttons, set x | x in inputs
    ensures exportAttached <==> saveButton != null
    ensures saveButton != null ==> saveButton.State() == old(saveButton.State())
    ensures forall k :: 0 <= k < |buttons| ==> buttons[k].Appearance() == HydratedStyle(store.items, buttons[k].caption)
    ensures forall k :: 0 <= k < |inputs| ==>
              inputs[k].value == HydratedValue(store.items, inputs[k].id, old(inputs[k].value))
    ensures store.items == old(store.items)
  {
    exportAttached := saveButton != null;
    LoadButtonStates(buttons, store);
    LoadInputValues(inputs, store);
  }

  /** Hydrating twice in a row leaves every toggle and every field as hydrating once does. */
  method HydrateTwice(buttons: seq<ToggleButton>, inputs: seq<InputBox>, store: LocalStorage)
    modifies set b | b in buttons, set x | x in inputs
    ensures forall k :: 0 <= k < |buttons| ==> buttons[k].Appearance() == HydratedStyle(store.items, buttons[k].caption)
    ensures forall k :: 0 <= k < |inputs| ==>
              inputs[k].value == HydratedValue(store.items, inputs[k].id, old(inputs[k].value))
    ensures store.items == old(store.items)
  {
    LoadButtonStates(buttons, store);
    LoadInputValues(inputs, store);
    LoadButtonStates(buttons, store);
    LoadInputValues(inputs, store);
    forall k | 0 <= k < |inputs|
      ensures inputs[k].value == HydratedValue(store.items, inputs[k].id, old(inputs[k].value))
    {
      HydratedValueIdempotent(store.items, inputs[k].id, old(inputs[k].value));
    }
  }

  /** A toggle labelled "Wheat" goes on, survives a reload, goes off, and survives a reload again. */
  method WheatScenario() {
    var store := new LocalStorage(map[]);
    var wheat := new ToggleButton("Wheat", DefaultStyle);
    wheat.Click(store);
    assert ToggleKey("Wheat") == "button_Wheat";
    assert "button_Wheat" in store.items && store.items["button_Wheat"] == "green";
    LoadButtonStates([wheat], store);
    assert IsGreen(wheat.Appearance());
    wheat.Click(store);
    assert "button_Wheat" !in store.items;
    LoadButtonStates([wheat], store);
    assert wheat.Appearance() == DefaultStyle;
  }

  /** A field "qty1", empty by default, is typed into and shows the typed text after a reload. */
  method QuantityScenario() {
    var store := new LocalStorage(map[]);
    var qty := new InputBox("qty1", "");
    OnInput(qty, "42", store);
    assert FieldKey("qty1") == "input_qty1";
    assert store.items == map["input_qty1" := "42"];
    qty.value := "";  // the reloaded page shows the field's default content
    LoadInputValues([qty], store);
    assert [qty][0] == qty;
    assert qty.value == "42";
  }

  /** An export that fails, a retry that succeeds, and a click that lands while the render runs. */
  method ExportScenario() {
    var save := new SaveButton(SaveIcon);
    var invoked := save.Click();
    assert invoked && save.caption == SavingLabel && save.disabled;
    invoked := save.Click();
    assert !invoked && save.inFlight == 1;
    save.Complete(false);
    assert save.caption == ErrorLabel && !save.disabled;
    invoked := save.Click();
    assert invoked && save.caption == SavingLabel;
    save.Complete(true);
    assert save.caption == SaveIcon && !save.disabled && save.inFlight == 0;
  }
}
