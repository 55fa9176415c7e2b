/**
 * The text input of a form (InnerComponentFormTextView of
 * packages/components/form/components/text.tsx): its one piece of React state,
 * the effect that seeds it from `defaultValue`, the change handler, and what
 * it renders. `shown` stands for the runtime's answer to `should_show(link)`;
 * `notified` records the arguments of the `onValue` callback, oldest first.
 */
module FormText {
  import opened Js

  /** The `custom.style` keys the input reads. */
  datatype TextStyle = TextStyle(
    paddingTop: Option<string>,
    paddingBottom: Option<string>,
    borderRadius: Option<string>,
    borderStyle: Option<string>)

  /** What `parse_custom_style(customStyle)` yields. */
  datatype TextCustom = TextCustom(style: Option<TextStyle>, placeholder: Option<string>, suffix: Option<string>)

  /** `custom?.style?.…` for every key at once. */
  function StyleOf(custom: Option<TextCustom>): TextStyle {
    if custom.Some? && custom.value.style.Some? then custom.value.style.value
    else TextStyle(None, None, None, None)
  }

  /** `custom?.suffix`. */
  function CustomSuffix(custom: Option<TextCustom>): Option<string> {
    if custom.Some? then custom.value.suffix else None
  }

  /**
   * The suffix element's text: `suffix ?? custom?.suffix`, rendered only when it
   * is a non-empty string. A given prop wins even when it is empty.
   */
  function ShownSuffix(suffix: Option<string>, custom: Option<TextCustom>): (r: Option<string>)
    ensures r.Some? ==> r.value != ""
    ensures suffix.Some? && suffix.value != "" ==> r == suffix
    ensures suffix.None? && CustomSuffix(custom).Some? && CustomSuffix(custom).value != "" ==> r == CustomSuffix(custom)
    ensures r.None? <==> suffix == Some("") || (suffix.None? && (CustomSuffix(custom).None? || CustomSuffix(custom) == Some("")))
  {
    var chosen := if suffix.Some? then suffix else CustomSuffix(custom);
    if chosen.Some? && chosen.value != "" then chosen else None
  }

  datatype TextMarkup =
    | Nothing
    | Field(
        paddingTop: string,
        paddingBottom: string,
        borderRadius: string,
        borderStyle: string,
        placeholder: Option<string>,
        displayed: string,
        suffix: Option<string>)

  /** The rendered input: nothing at all unless the runtime shows the component. */
  function Render(shown: bool, value: Option<string>, suffix: Option<string>, custom: Option<TextCustom>): (m: TextMarkup)
    ensures m.Nothing? <==> !shown
    ensures m.Field? ==> (m.displayed == "" <==> value.None? || value == Some(""))
    ensures m.Field? && value.Some? ==> m.displayed == value.value
    ensures m.Field? ==> m.suffix == ShownSuffix(suffix, custom)
    ensures m.Field? ==> m.placeholder == (if custom.Some? then custom.value.placeholder else None)
    ensures m.Field? ==> m.paddingTop == OrElse(StyleOf(custom).paddingTop, "5px")
    ensures m.Field? ==> m.paddingBottom == OrElse(StyleOf(custom).paddingBottom, "5px")
    ensures m.Field? ==> m.borderRadius == OrElse(StyleOf(custom).borderRadius, "0.5rem")
    ensures m.Field? ==> m.borderStyle == OrElse(StyleOf(custom).borderStyle, "solid")
  {
    if !shown then Nothing
    else
      var style := StyleOf(custom);
      Field(
        paddingTop := OrElse(style.paddingTop, "5px"),
        paddingBottom := OrElse(style.paddingBottom, "5px"),
        borderRadius := OrElse(style.borderRadius, "0.5rem"),
        borderStyle := OrElse(style.borderStyle, "solid"),
        placeholder := if custom.Some? then custom.value.placeholder else None,
        displayed := value.GetOr(""),
        suffix := ShownSuffix(suffix, custom))
  }

  class TextInputView {
    var value: Option<string>
    var notified: seq<Option<string>>

    /** `onValue` is never called with `undefined`. */
    ghost predicate Valid()
      reads this
    {
      forall k :: 0 <= k < |notified| ==> notified[k].Some?
    }

    constructor ()
      ensures Valid() && value == None && notified == []
    {
      value, notified := None, [];
    }

    /**
     * The seeding effect: the first time a default is known while the state is
     * still undefined, adopt it and report it if the component is shown.
     * (Its `|| defaultValue === undefined` cannot hold inside the guard.)
     */
    method SeedDefault(shown: bool, defaultValue: Option<string>)
      requires Valid()
      modifies this
      ensures Valid()
      ensures old(value).None? && defaultValue.Some? ==>
        value == defaultValue && notified == old(notified) + (if shown then [defaultValue] else [])
      ensures old(value).Some? || defaultValue.None? ==> value == old(value) && notified == old(notified)
      ensures defaultValue.Some? ==> value.Some?
    {
      if value.None? && defaultValue.Some? {
        value := defaultValue;
        if shown || defaultValue.None? {
          notified := notified + [defaultValue];
        }
      }
    }

    /**
     * A change event carrying the input's text. The text of an input element
     * is always a string, so the handler's `|| input_value === undefined` never holds.
     */
    method OnChange(shown: bool, input: string)
      requires Valid()
      modifies this
      ensures Valid()
      ensures old(value) == Some(input) ==> value == old(value) && notified == old(notified)
      ensures old(value) != Some(input) ==>
        value == Some(input) && notified == old(notified) + (if shown then [Some(input)] else [])
      ensures value.Some?
      ensures Render(true, value, None, None).displayed == input
    {
      if Some(input) == value {
        return;
      }
      value := Some(input);
      if shown {
        notified := notified + [Some(input)];
      }
    }
  }
}
