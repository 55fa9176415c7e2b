/**
 * The choose interaction widget (ComponentInteractionChooseView of
 * packages/components/interaction/choose.tsx): its React state, the effect
 * that collects the choice items, the two handlers, and what it renders.
 * The runtime it consults is not part of this model: a `Runtime` value gives
 * its answers, and `runtimeCalls` records the calls the widget makes on it.
 */
module Choose {
  import opened Js

  datatype ComponentId = ComponentId(key: string)

  /** A reference the runtime resolves to an input value. */
  datatype ValueRef = ValueRef(key: string)

  /** An entry of `metadata.values`: a label and where its value comes from. */
  datatype ChooseValue = ChooseValue(name: string, input: ValueRef)

  datatype ChooseItem = ChooseItem(name: string, value: string)

  /**
   * The runtime's answers: `should_show(link)`, `find_value(link, index)?.value`,
   * and `input_value(ref, ['text'])`.
   */
  datatype Runtime = Runtime(
    shouldShow: ComponentId -> bool,
    findValue: (ComponentId, nat) -> Option<string>,
    inputValue: ValueRef -> Option<string>)

  datatype RuntimeCall =
    | RefreshInteraction(link: ComponentId, value: Option<string>)
    | UpdateComponent(link: ComponentId, updated: int)

  // ---------------------------------------------------------------- items

  predicate AllDefined(metadata: seq<ChooseValue>, input: ValueRef -> Option<string>) {
    forall i :: 0 <= i < |metadata| ==> input(metadata[i].input).Some?
  }

  lemma PrefixAllDefined(metadata: seq<ChooseValue>, input: ValueRef -> Option<string>, n: nat)
    requires n <= |metadata| && AllDefined(metadata, input)
    ensures AllDefined(metadata[..n], input)
  {
    forall i | 0 <= i < n ensures input(metadata[..n][i].input).Some? {
      assert metadata[..n][i] == metadata[i];
    }
  }

  /** The items for entries whose values are all defined, in metadata order. */
  function ItemsOf(metadata: seq<ChooseValue>, input: ValueRef -> Option<string>): (r: seq<ChooseItem>)
    requires AllDefined(metadata, input)
    ensures |r| == |metadata|
    decreases |metadata|
  {
    if metadata == [] then []
    else
      var last := metadata[|metadata| - 1];
      PrefixAllDefined(metadata, input, |metadata| - 1);
      ItemsOf(metadata[..|metadata| - 1], input) + [ChooseItem(last.name, input(last.input).value)]
  }

  /** What the effect stores in `values`: every item, or `undefined` as soon as one input is undefined. */
  function Collected(metadata: seq<ChooseValue>, input: ValueRef -> Option<string>): Option<seq<ChooseItem>> {
    if AllDefined(metadata, input) then Some(ItemsOf(metadata, input)) else None
  }

  lemma {:induction false} ItemsOfAt(metadata: seq<ChooseValue>, input: ValueRef -> Option<string>)
    requires AllDefined(metadata, input)
    ensures |ItemsOf(metadata, input)| == |metadata|
    ensures forall i :: 0 <= i < |metadata| ==>
      ItemsOf(metadata, input)[i] == ChooseItem(metadata[i].name, input(metadata[i].input).value)
  {
    if metadata != [] {
      var prefix := metadata[..|metadata| - 1];
      PrefixAllDefined(metadata, input, |metadata| - 1);
      ItemsOfAt(prefix, input);
      forall i | 0 <= i < |metadata| - 1
        ensures ItemsOf(metadata, input)[i] == ChooseItem(metadata[i].name, input(metadata[i].input).value)
      {
        assert prefix[i] == metadata[i];
      }
    }
  }

  /**
   * Item collection is all or nothing: `values` is undefined exactly when some
   * input value is undefined, and otherwise has one item per entry, in order,
   * with the entry's name and its input value.
   */
  lemma CollectionAllOrNothing(metadata: seq<ChooseValue>, input: ValueRef -> Option<string>)
    ensures Collected(metadata, input).None? <==> exists i :: 0 <= i < |metadata| && input(metadata[i].input).None?
    ensures Collected(metadata, input).Some? ==>
      var items := Collected(metadata, input).value;
      |items| == |metadata| &&
      forall i :: 0 <= i < |metadata| ==> items[i] == ChooseItem(metadata[i].name, input(metadata[i].input).value)
  {
    if AllDefined(metadata, input) {
      ItemsOfAt(metadata, input);
    }
  }

  /** The effect's loop: push one item per entry, or give up with `undefined` at the first undefined input. */
  method Collect(metadata: seq<ChooseValue>, input: ValueRef -> Option<string>) returns (values: Option<seq<ChooseItem>>)
    ensures values == Collected(metadata, input)
  {
    values := Some([]);
    for i := 0 to |metadata|
      invariant AllDefined(metadata[..i], input)
      invariant values == Some(ItemsOf(metadata[..i], input))
    {
      var v := input(metadata[i].input);
      if v.None? {
        values := None;
        break;
      }
      var next := metadata[..i + 1];
      assert next[..i] == metadata[..i];
      assert AllDefined(next, input) by {
        forall j | 0 <= j < |next| ensures input(next[j].input).Some? {
          if j < i {
            assert next[j] == metadata[..i][j];
          }
        }
      }
      values := Some(values.value + [ChooseItem(metadata[i].name, v.value)]);
    }
    if values.Some? {
      assert metadata[..|metadata|] == metadata;
    }
  }

  // ---------------------------------------------------------------- display

  /** The result panel's condition: `values !== undefined && value !== undefined`. */
  predicate ShowsResultPanel(values: Option<seq<ChooseItem>>, value: Option<string>) {
    values.Some? && value.Some?
  }

  /** The choice grid's condition: `values !== undefined && value === undefined`. */
  predicate ShowsChoiceGrid(values: Option<seq<ChooseItem>>, value: Option<string>) {
    values.Some? && value.None?
  }

  /** The two panels are never shown together; with items exactly one shows, without items neither. */
  lemma DisplayModesExclusive(values: Option<seq<ChooseItem>>, value: Option<string>)
    ensures !(ShowsResultPanel(values, value) && ShowsChoiceGrid(values, value))
    ensures values.None? ==> !ShowsResultPanel(values, value) && !ShowsChoiceGrid(values, value)
    ensures values.Some? ==> ShowsResultPanel(values, value) || ShowsChoiceGrid(values, value)
  {
  }

  // ---------------------------------------------------------------- span rule

  const TwoColumns := "repeat(2, minmax(0, 1fr))"
  const ThreeColumns := "repeat(3, minmax(0, 1fr))"
  const FullRow := "ez-col-span-full"

  /** A `className` value: a class name, or the `false` that `cond && 'ez-col-span-full'` yields. */
  datatype ClassValue = NoClass | Class(name: string)

  /** `cond && 'ez-col-span-full'`. */
  function Clause(cond: bool): ClassValue {
    if cond then Class(FullRow) else NoClass
  }

  /** The JavaScript comma operator: both operands are evaluated, the second is the value. */
  function Comma(first: ClassValue, second: ClassValue): ClassValue {
    second
  }

  /** The full-row clause for a grid of `n` items, as the source writes it: four clauses joined by commas. */
  function SpanClassAsWritten(template: Option<string>, n: nat, index: nat): (r: ClassValue)
    ensures r == NoClass || r == Class(FullRow)
  {
    Comma(
      Comma(
        Comma(
          Clause(template == Some(TwoColumns) && n % 2 == 1 && n - 1 == index),
          Clause(template == Some(ThreeColumns) && n % 3 == 2 && n - 1 == index)),
        Clause(template == Some(ThreeColumns) && n % 3 == 2 && n - 2 == index)),
      Clause(template == Some(ThreeColumns) && n % 3 == 1 && n - 1 == index))
  }

  /**
   * Only the last clause decides: a button spans the full row exactly when the
   * template is three columns, the count leaves one item in the last row, and
   * the button is the last one.
   */
  lemma SpanOnlyLastClauseDecides(template: Option<string>, n: nat, index: nat)
    ensures SpanClassAsWritten(template, n, index) == Class(FullRow) <==>
      template == Some(ThreeColumns) && n % 3 == 1 && index == n - 1
    ensures SpanClassAsWritten(template, n, index) != Class(FullRow) ==> SpanClassAsWritten(template, n, index) == NoClass
  {
  }

  /** At most one button spans, and only the last; the two-column clause never applies. */
  lemma SpanAtMostLast(template: Option<string>, n: nat, i: nat, j: nat)
    ensures SpanClassAsWritten(template, n, i) == Class(FullRow) && SpanClassAsWritten(template, n, j) == Class(FullRow) ==>
      i == j == n - 1
    ensures SpanClassAsWritten(Some(TwoColumns), n, i) == NoClass
  {
  }

  /** The clauses joined by `||`, which is what the heuristic sets out to compute. */
  function SpanClassIntended(template: Option<string>, n: nat, index: nat): (r: ClassValue)
    ensures r == NoClass || r == Class(FullRow)
  {
    Clause(
      || (template == Some(TwoColumns) && n % 2 == 1 && n - 1 == index)
      || (template == Some(ThreeColumns) && n % 3 == 2 && n - 1 == index)
      || (template == Some(ThreeColumns) && n % 3 == 2 && n - 2 == index)
      || (template == Some(ThreeColumns) && n % 3 == 1 && n - 1 == index))
  }

  /**
   * The intended rule fills an incomplete last row: in two columns the odd last
   * item spans, in three columns a lone last item spans and a last pair both span;
   * no other button does.
   */
  lemma SpanIntendedFillsLastRow(template: Option<string>, n: nat, index: nat)
    requires index < n
    ensures template == Some(TwoColumns) ==>
      (SpanClassIntended(template, n, index) == Class(FullRow) <==> n % 2 == 1 && index == n - 1)
    ensures template == Some(ThreeColumns) ==>
      (SpanClassIntended(template, n, index) == Class(FullRow) <==>
        (n % 3 == 1 && index == n - 1) || (n % 3 == 2 && index >= n - 2))
    ensures template != Some(TwoColumns) && template != Some(ThreeColumns) ==> SpanClassIntended(template, n, index) == NoClass
  {
  }

  /** Three items in two columns: the code as written gives the last one no class, the intended rule spans it. */
  lemma SpanCommaCounterexample()
    ensures SpanClassAsWritten(Some(TwoColumns), 3, 2) == NoClass
    ensures SpanClassIntended(Some(TwoColumns), 3, 2) == Class(FullRow)
  {
  }

  // ---------------------------------------------------------------- render

  /** The `custom.style` keys the widget reads. */
  datatype ChooseStyle = ChooseStyle(
    paddingTop: Option<string>,
    paddingBottom: Option<string>,
    gridTemplateColumns: Option<string>,
    borderRadius: Option<string>,
    fontWeight: Option<string>)

  /** What `parse_custom_style(metadata.style)` yields. */
  datatype ChooseCustom = ChooseCustom(style: Option<ChooseStyle>, outputLabel: Option<string>)

  /** `custom?.style?.…` for every key at once. */
  function StyleOf(custom: Option<ChooseCustom>): ChooseStyle {
    if custom.Some? && custom.value.style.Some? then custom.value.style.value
    else ChooseStyle(None, None, None, None, None)
  }

  /** `custom?.outputLabel ? `${custom.outputLabel}: ` : ''`. */
  function LabelPrefix(custom: Option<ChooseCustom>): string {
    if custom.Some? && custom.value.outputLabel.Some? && custom.value.outputLabel.value != "" then
      custom.value.outputLabel.value + ": "
    else ""
  }

  datatype ChoiceButton = ChoiceButton(
    text: string,
    value: string,
    loading: bool,
    borderRadius: string,
    fontWeight: string,
    className: ClassValue)

  datatype ChooseMarkup = ChooseMarkup(
    paddingTop: string,
    paddingBottom: string,
    resultText: Option<string>,
    gridTemplateColumns: Option<string>,
    buttons: seq<ChoiceButton>)

  /** The rendered widget; the reset control belongs to the result panel. */
  function Render(values: Option<seq<ChooseItem>>, value: Option<string>, loading: bool, custom: Option<ChooseCustom>): (m: ChooseMarkup)
    ensures m.paddingTop == OrElse(StyleOf(custom).paddingTop, "5px")
    ensures m.paddingBottom == OrElse(StyleOf(custom).paddingBottom, "5px")
    ensures m.resultText.Some? <==> ShowsResultPanel(values, value)
    ensures m.gridTemplateColumns.Some? <==> ShowsChoiceGrid(values, value)
    ensures m.resultText.Some? ==> m.resultText.value == LabelPrefix(custom) + " " + value.value
    ensures m.gridTemplateColumns.Some? ==> m.gridTemplateColumns.value == OrElse(StyleOf(custom).gridTemplateColumns, TwoColumns)
    ensures !ShowsChoiceGrid(values, value) ==> m.buttons == []
    ensures ShowsChoiceGrid(values, value) ==> |m.buttons| == |values.value|
    ensures ShowsChoiceGrid(values, value) ==> forall i :: 0 <= i < |m.buttons| ==>
      && m.buttons[i].text == values.value[i].name
      && m.buttons[i].value == values.value[i].value
      && m.buttons[i].loading == loading
      && m.buttons[i].borderRadius == OrElse(StyleOf(custom).borderRadius, "0.5rem")
      && m.buttons[i].fontWeight == OrElse(StyleOf(custom).fontWeight, "400")
      && m.buttons[i].className == SpanClassAsWritten(StyleOf(custom).gridTemplateColumns, |values.value|, i)
  {
    var style := StyleOf(custom);
    var grid := ShowsChoiceGrid(values, value);
    var items := if grid then values.value else [];
    ChooseMarkup(
      paddingTop := OrElse(style.paddingTop, "5px"),
      paddingBottom := OrElse(style.paddingBottom, "5px"),
      resultText := if ShowsResultPanel(values, value) then Some(LabelPrefix(custom) + " " + value.value) else None,
      gridTemplateColumns := if grid then Some(OrElse(style.gridTemplateColumns, TwoColumns)) else None,
      buttons := seq(|items|, i requires 0 <= i < |items| =>
        ChoiceButton(
          items[i].name,
          items[i].value,
          loading,
          OrElse(style.borderRadius, "0.5rem"),
          OrElse(style.fontWeight, "400"),
          SpanClassAsWritten(style.gridTemplateColumns, |items|, i))))
  }

  // ---------------------------------------------------------------- state

  class ChooseView {
    const link: ComponentId
    var value: Option<string>
    var values: Option<seq<ChooseItem>>
    var loading: bool
    var runtimeCalls: seq<RuntimeCall>

    /** The widget only ever addresses its own component. */
    ghost predicate Valid()
      reads this
    {
      forall k :: 0 <= k < |runtimeCalls| ==> runtimeCalls[k].link == link
    }

    constructor (link: ComponentId)
      ensures Valid()
      ensures this.link == link && value.None? && values.None? && !loading && runtimeCalls == []
    {
      this.link := link;
      value, values, loading := None, None, false;
      runtimeCalls := [];
    }

    /** The effect run after each render with new props. */
    method Effect(rt: Runtime, metadata: seq<ChooseValue>, updated: int)
      requires Valid()
      modifies this
      ensures Valid()
      ensures rt.shouldShow(link) ==> value == rt.findValue(link, 0) && values == Collected(metadata, rt.inputValue)
      ensures !rt.shouldShow(link) ==> value == old(value) && values == old(values)
      ensures loading == old(loading)
      ensures runtimeCalls == old(runtimeCalls) + [UpdateComponent(link, updated)]
    {
      if rt.shouldShow(link) {
        value := rt.findValue(link, 0);
        values := Collect(metadata, rt.inputValue);
      }
      runtimeCalls := runtimeCalls + [UpdateComponent(link, updated)];
    }

    method OnChoose(choice: string)
      requires Valid()
      modifies this
      ensures Valid()
      ensures value == Some(choice) && !loading && values == old(values)
      ensures runtimeCalls == old(runtimeCalls) + [RefreshInteraction(link, Some(choice))]
      ensures values.Some? ==> ShowsResultPanel(values, value)
    {
      loading := true;
      runtimeCalls := runtimeCalls + [RefreshInteraction(link, Some(choice))];
      value := Some(choice);
      loading := false;
    }

    method OnClean()
      requires Valid()
      modifies this
      ensures Valid()
      ensures value == None && !loading && values == old(values)
      ensures runtimeCalls == old(runtimeCalls) + [RefreshInteraction(link, None)]
      ensures values.Some? ==> ShowsChoiceGrid(values, value)
    {
      loading := true;
      runtimeCalls := runtimeCalls + [RefreshInteraction(link, None)];
      value := None;
      loading := false;
    }

    /** A click on Reset: `!loading && onClean()`. */
    method ClickReset()
      requires Valid()
      modifies this
      ensures Valid()
      ensures old(loading) ==> value == old(value) && loading && runtimeCalls == old(runtimeCalls)
      ensures !old(loading) ==> value == None && !loading && runtimeCalls == old(runtimeCalls) + [RefreshInteraction(link, None)]
      ensures values == old(values)
    {
      if !loading {
        OnClean();
      }
    }

    /** A click on the choice button at `index` of the grid: `!loading && onChoose(item.value)`. */
    method ClickChoice(index: nat)
      requires Valid()
      requires ShowsChoiceGrid(values, value) && index < |values.value|
      modifies this
      ensures Valid()
      ensures old(loading) ==> value == old(value) && loading && runtimeCalls == old(runtimeCalls)
      ensures !old(loading) ==> (value == Some(old(values).value[index].value) && !loading &&
        runtimeCalls == old(runtimeCalls) + [RefreshInteraction(link, Some(old(values).value[index].value))])
      ensures values == old(values)
    {
      if !loading {
        OnChoose(values.value[index].value);
      }
    }
  }
}
