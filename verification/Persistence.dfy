/**
 * The pure part of the control-state store: how toggle names and field ids
 * become store keys, what a commit does to the store, and what hydration
 * reads back out of it.
 */
module Persistence {

  /** The store, as `localStorage` holds it: string keys to string values. */
  type Store = map<string, string>

  /** Key prefix of the toggle namespace. */
  const ToggleNamespace := "button_"
  /** Key prefix of the field namespace. */
  const FieldNamespace := "input_"
  /** The value stored under a toggle's key while the toggle is on. */
  const OnValue := "green"
  /** The state the click handler passes when it turns a toggle off. */
  const OffState := "original"

  /** Inline background colour of a toggle that is on; also its "is on" test. */
  const GreenBackground := "rgb(29, 255, 29)"
  /** Inline text colour of a toggle that is on. */
  const GreenText := "white"

  /** A toggle's inline style: its background colour and its text colour. */
  datatype Style = Style(background: string, color: string)

  const OnStyle := Style(GreenBackground, GreenText)
  /** Both inline properties cleared: the stylesheet's look shows through. */
  const DefaultStyle := Style("", "")

  /** The click handler decides "on" from the inline background alone. */
  predicate IsGreen(s: Style) {
    s.background == GreenBackground
  }

  function ToggleKey(name: string): string {
    ToggleNamespace + name
  }

  function FieldKey(id: string): string {
    FieldNamespace + id
  }

  /** The store says the toggle is on: its key is present with the sentinel. */
  predicate StoredOn(store: Store, name: string) {
    ToggleKey(name) in store && store[ToggleKey(name)] == OnValue
  }

  /** Every key other than `key` is present, and bound, exactly as before. */
  ghost predicate OnlyKeyChanged(before: Store, after: Store, key: string) {
    forall k :: k != key ==> (k in after <==> k in before) && (k in after ==> after[k] == before[k])
  }

  /** The style `loadButtonStates` gives a toggle with this name. */
  function HydratedStyle(store: Store, name: string): Style {
    if StoredOn(store, name) then OnStyle else DefaultStyle
  }

  /** The content `loadInputValues` leaves in a field holding `current`. */
  function HydratedValue(store: Store, id: string, current: string): string {
    if FieldKey(id) in store then store[FieldKey(id)] else current
  }

  /** The state string the click handler hands to `saveButtonState`. */
  function ClickState(wasGreen: bool): string {
    if wasGreen then OffState else OnValue
  }

  /** The style the click handler leaves on a toggle. */
  function ClickedStyle(wasGreen: bool): (s: Style)
    ensures IsGreen(s) == !wasGreen
  {
    if wasGreen then DefaultStyle else OnStyle
  }

  /**
   * `saveButtonState`: the sentinel is written for the state "green", and the
   * key is removed for any other state. No other key is touched.
   */
  function ToggleCommit(store: Store, name: string, state: string): (r: Store)
    ensures ToggleKey(name) in r <==> state == OnValue
    ensures StoredOn(r, name) <==> state == OnValue
    ensures OnlyKeyChanged(store, r, ToggleKey(name))
  {
    if state == OnValue then store[ToggleKey(name) := OnValue] else store - {ToggleKey(name)}
  }

  /** `saveInputValue`: the field's full content overwrites its key. */
  function FieldCommit(store: Store, id: string, value: string): (r: Store)
    ensures FieldKey(id) in r && r[FieldKey(id)] == value
    ensures OnlyKeyChanged(store, r, FieldKey(id))
  {
    store[FieldKey(id) := value]
  }

  /** Distinct names give distinct toggle keys. */
  lemma ToggleKeyInjective(a: string, b: string)
    ensures ToggleKey(a) == ToggleKey(b) <==> a == b
  {
    assert ToggleKey(a)[|ToggleNamespace|..] == a;
    assert ToggleKey(b)[|ToggleNamespace|..] == b;
  }

  /** Distinct ids give distinct field keys. */
  lemma FieldKeyInjective(a: string, b: string)
    ensures FieldKey(a) == FieldKey(b) <==> a == b
  {
    assert FieldKey(a)[|FieldNamespace|..] == a;
    assert FieldKey(b)[|FieldNamespace|..] == b;
  }

  /** No toggle key is a field key, whatever the name and the id. */
  lemma NamespacesDisjoint(name: string, id: string)
    ensures ToggleKey(name) != FieldKey(id)
  {
    assert ToggleKey(name)[0] == 'b';
    assert FieldKey(id)[0] == 'i';
  }

  /** Hydration shows a toggle green exactly when the store holds the sentinel for it. */
  lemma HydratedGreenIffStored(store: Store, name: string)
    ensures IsGreen(HydratedStyle(store, name)) <==> StoredOn(store, name)
    ensures !StoredOn(store, name) ==> HydratedStyle(store, name) == DefaultStyle
  {
  }

  /** A click, then a reload: hydration shows the style the click left. */
  lemma ClickThenReload(store: Store, name: string, wasGreen: bool)
    ensures HydratedStyle(ToggleCommit(store, name, ClickState(wasGreen)), name) == ClickedStyle(wasGreen)
    ensures wasGreen ==> ToggleKey(name) !in ToggleCommit(store, name, ClickState(wasGreen))
  {
  }

  /** A toggle commit leaves every other toggle's hydrated style alone. */
  lemma ToggleCommitKeepsOtherToggles(store: Store, name: string, state: string, other: string)
    requires other != name
    ensures HydratedStyle(ToggleCommit(store, name, state), other) == HydratedStyle(store, other)
  {
    ToggleKeyInjective(other, name);
  }

  /** A toggle commit never reads or writes the field namespace. */
  lemma ToggleCommitKeepsFields(store: Store, name: string, state: string)
    ensures forall id, current :: HydratedValue(ToggleCommit(store, name, state), id, current) == HydratedValue(store, id, current)
  {
    forall id: string {
      NamespacesDisjoint(name, id);
    }
  }

  /** Committing V to a field, then hydrating it, gives exactly V (the empty string included). */
  lemma FieldRoundTrip(store: Store, id: string, value: string, current: string)
    ensures HydratedValue(FieldCommit(store, id, value), id, current) == value
  {
  }

  /** A field that was never committed keeps the content it has. */
  lemma UncommittedFieldKeepsValue(store: Store, id: string, current: string)
    requires FieldKey(id) !in store
    ensures HydratedValue(store, id, current) == current
  {
  }

  /** A field commit leaves every other field's hydrated value alone. */
  lemma FieldCommitKeepsOtherFields(store: Store, id: string, value: string, other: string, current: string)
    requires other != id
    ensures HydratedValue(FieldCommit(store, id, value), other, current) == HydratedValue(store, other, current)
  {
    FieldKeyInjective(other, id);
  }

  /** A field commit never reads or writes the toggle namespace. */
  lemma FieldCommitKeepsToggles(store: Store, id: string, value: string)
    ensures forall name :: HydratedStyle(FieldCommit(store, id, value), name) == HydratedStyle(store, name)
  {
    forall name: string {
      NamespacesDisjoint(name, id);
    }
  }

  /** Hydrating a field a second time changes nothing more. */
  lemma HydratedValueIdempotent(store: Store, id: string, current: string)
    ensures HydratedValue(store, id, HydratedValue(store, id, current)) == HydratedValue(store, id, current)
  {
  }

  /** No two toggles share a name. */
  predicate DistinctLabels(names: seq<string>) {
    forall i, j :: 0 <= i < j < |names| ==> names[i] != names[j]
  }

  /** Every toggle's style says what the store says about its name. */
  predicate Agree(names: seq<string>, styles: seq<Style>, store: Store) {
    |names| == |styles| &&
    forall k :: 0 <= k < |names| ==> (IsGreen(styles[k]) <==> StoredOn(store, names[k]))
  }

  /**
   * With distinct names, clicking any one toggle keeps styles and store in
   * agreement, so a reload after the click shows every toggle as it was.
   */
  lemma ClickKeepsAgreement(names: seq<string>, styles: seq<Style>, store: Store, j: nat)
    requires Agree(names, styles, store) && DistinctLabels(names)
    requires j < |names|
    ensures Agree(names, styles[j := ClickedStyle(IsGreen(styles[j]))],
                  ToggleCommit(store, names[j], ClickState(IsGreen(styles[j]))))
  {
    var state := ClickState(IsGreen(styles[j]));
    forall k | 0 <= k < |names| && k != j
      ensures StoredOn(ToggleCommit(store, names[j], state), names[k]) == StoredOn(store, names[k])
    {
      ToggleKeyInjective(names[k], names[j]);
    }
  }

  /** Two toggles labelled alike: after clicking one, the store no longer agrees with the other. */
  lemma DuplicateLabelsDisagree()
    ensures var names := ["Wheat", "Wheat"];
            var styles := [DefaultStyle, DefaultStyle];
            Agree(names, styles, map[]) &&
            !Agree(names, styles[0 := ClickedStyle(false)], ToggleCommit(map[], "Wheat", ClickState(false)))
  {
    var after := ToggleCommit(map[], "Wheat", ClickState(false));
    assert StoredOn(after, "Wheat");
    assert !IsGreen([DefaultStyle, DefaultStyle][0 := ClickedStyle(false)][1]);
  }
}
