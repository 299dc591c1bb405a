/** The list view of locations: where its data comes from (props, or the
    locations hook as a fallback) and which of its four states it shows. */
module SpotList {
  import opened Js
  import opened Locations

  /** The props the list is given. `None` is a prop left `undefined` or
      `null`; `loading` keeps the two apart, since it is tested with
      `!== undefined`. `hasOnSelect` says whether an `onLocationSelect`
      callback was passed. */
  datatype ListProps = ListProps(
    locations: Option<seq<Location>>,
    loading: Prop<bool>,
    error: Option<string>,
    hasOnSelect: bool)

  /** What the list's own `useLocations()` call currently returns. */
  datatype HookState = HookState(locations: seq<Location>, loading: bool, error: Option<string>)

  /** The values the list renders from; `loading` is the truthiness of the chosen value. */
  datatype Sources = Sources(locations: seq<Location>, loading: bool, error: Option<string>)

  /** `propLocations || hook.locations`, `propLoading !== undefined ? … : …`,
      `propError || hook.error`. An array is always truthy, even when empty;
      an error string only when non-empty; a `null` loading prop is chosen
      and is falsy. */
  function Resolve(props: ListProps, hook: HookState): (s: Sources)
    ensures props.locations.Some? ==> s.locations == props.locations.value
    ensures props.locations.None? ==> s.locations == hook.locations
    ensures props.loading.Undefined? ==> s.loading == hook.loading
    ensures props.loading.Null? ==> !s.loading
    ensures props.loading.Defined? ==> s.loading == props.loading.value
    ensures Truthy(props.error) ==> s.error == props.error
    ensures !Truthy(props.error) ==> s.error == hook.error
  {
    Sources(
      if props.locations.Some? then props.locations.value else hook.locations,
      match props.loading
      case Undefined => hook.loading
      case Null => false
      case Defined(b) => b,
      if Truthy(props.error) then props.error else hook.error)
  }

  const NoLocations := "No locations found"

  /** What the list shows: a spinner, an error line, the empty message, or
      the result count and one card per location. */
  datatype ListView =
    | Spinner
    | ErrorText(text: string)
    | Message(text: string)
    | Results(count: nat, cards: seq<Location>)

  /** The list's render, from its props and its hook's state. */
  function Render(props: ListProps, hook: HookState): (v: ListView)
    ensures v.Spinner? <==> Resolve(props, hook).loading
    ensures v.ErrorText? <==> !Resolve(props, hook).loading && Truthy(Resolve(props, hook).error)
    ensures v.ErrorText? ==> v.text == "Error: " + Resolve(props, hook).error.value
    ensures v == Message(NoLocations) <==>
      !Resolve(props, hook).loading && !Truthy(Resolve(props, hook).error)
      && Resolve(props, hook).locations == []
    ensures v.Results? ==> v.count == |v.cards| && v.cards == Resolve(props, hook).locations
  {
    var s := Resolve(props, hook);
    if s.loading then Spinner
    else if s.error.Some? && s.error.value != "" then ErrorText("Error: " + s.error.value)
    else if |s.locations| == 0 then Message(NoLocations)
    else Results(|s.locations|, s.locations)
  }

  /** Every location the list is given is shown, in order, unless it is
      loading, failing or empty. */
  lemma EveryLocationGetsACard(props: ListProps, hook: HookState)
    requires !Resolve(props, hook).loading && !Truthy(Resolve(props, hook).error)
    requires Resolve(props, hook).locations != []
    ensures Render(props, hook) == Results(|Resolve(props, hook).locations|, Resolve(props, hook).locations)
  {
  }

  /** An empty array passed as a prop is used as is: the hook's locations
      are not consulted and the empty message shows. */
  lemma EmptyPropListHasNoFallback(hook: HookState, error: Option<string>, hasOnSelect: bool)
    requires !Truthy(error) && !Truthy(hook.error)
    ensures Render(ListProps(Some([]), Defined(false), error, hasOnSelect), hook) == Message(NoLocations)
  {
  }

  /** How Home uses the list: it passes an array and a boolean, so the
      hook's locations and loading flag are never shown ... */
  lemma HomePropsIgnoreHookData(locs: seq<Location>, loading: bool, error: Option<string>,
                                hasOnSelect: bool, h1: HookState, h2: HookState)
    requires h1.error == h2.error
    ensures var p := ListProps(Some(locs), Defined(loading), error, hasOnSelect);
      Render(p, h1) == Render(p, h2)
  {
  }

  /** ... but its error is `undefined`-or-empty often enough to let the
      list's own hook error through. */
  lemma HookErrorShowsThrough(locs: seq<Location>, hasOnSelect: bool, hook: HookState)
    requires hook.error == Some("timeout")
    ensures Render(ListProps(Some(locs), Defined(false), None, hasOnSelect), hook) == ErrorText("Error: timeout")
  {
  }

  /** A `null` loading prop is not replaced by the hook's flag: no
      spinner shows, even while the hook is loading. */
  lemma NullLoadingShowsNoSpinner(locs: Option<seq<Location>>, error: Option<string>,
                                  hasOnSelect: bool, hook: HookState)
    requires hook.loading
    ensures !Render(ListProps(locs, Null, error, hasOnSelect), hook).Spinner?
  {
  }

  /** `handleLocationPress`: the location passed to `onLocationSelect`, or
      none when no callback was given. */
  function PressCard(props: ListProps, loc: Location): (selected: Option<Location>)
    ensures selected.Some? <==> props.hasOnSelect
    ensures selected.Some? ==> selected.value == loc
  {
    if props.hasOnSelect then Some(loc) else None
  }
}
