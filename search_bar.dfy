/** The decisions of components/search-bar.tsx: when a key press submits the query,
    when the submit button is disabled, what it shows, and the placeholder. */
module SearchBar {
  import opened Optional
  import opened JsText

  const DefaultPlaceholder := "Search for games..."

  /** The placeholder prop with its default applied. */
  function Placeholder(given: Option<string>): (p: string)
    ensures given.Some? ==> p == given.value
    ensures given.None? ==> p == DefaultPlaceholder
  {
    given.GetOr(DefaultPlaceholder)
  }

  /** `handleKeyDown`: whether the key press calls `onSearch`. It fires for Enter on a
      value with a character that is not white space, and for nothing else. */
  function KeyDownSearches(key: string, value: string): (fires: bool)
    ensures fires <==> key == "Enter" && !AllWhitespace(value)
  {
    BlankIffAllWhitespace(value);
    key == "Enter" && !Blank(value)
  }

  /** The button's `disabled` prop: the value is blank or a search is loading. */
  function ButtonDisabled(value: string, isLoading: bool): (disabled: bool)
    ensures disabled <==> isLoading || AllWhitespace(value)
  {
    BlankIffAllWhitespace(value);
    Blank(value) || isLoading
  }

  /** A click on the button calls `onSearch` unless the button is disabled. */
  function ClickSearches(value: string, isLoading: bool): (fires: bool)
    ensures fires <==> !isLoading && !AllWhitespace(value)
  {
    !ButtonDisabled(value, isLoading)
  }

  datatype ButtonContent = Spinner | Label(text: string)

  /** What the button shows: a spinner while loading, the word "Search" otherwise. */
  function ButtonContentFor(isLoading: bool): (c: ButtonContent)
    ensures c.Spinner? <==> isLoading
    ensures !isLoading ==> c == Label("Search")
  {
    if isLoading then Spinner else Label("Search")
  }

  /** Enter is not guarded by the loading flag: while a search is loading the button is
      disabled, yet Enter on a non-blank value still starts another search. */
  lemma EnterBypassesLoadingGuard(value: string)
    requires !Blank(value)
    ensures ButtonDisabled(value, true)
    ensures KeyDownSearches("Enter", value)
    ensures !ClickSearches(value, true)
  {
    BlankIffAllWhitespace(value);
  }

  /** When nothing is loading, Enter and the button agree on every value. */
  lemma EnterAgreesWithButtonWhenIdle(value: string)
    ensures KeyDownSearches("Enter", value) == ClickSearches(value, false)
  {
  }
}
