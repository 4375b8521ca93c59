/** The view selection of components/game-list.tsx: which of five views the result
    area shows, the count label of the list view, and the key given to each card. */
module GameList {
  import opened Optional
  import opened JsText
  import opened Api

  /** The five views, in the order the component tries them. */
  datatype View =
    | Searching(text: string)
    | ErrorPanel(message: string)
    | Welcome
    | NoGames
    | Grid(countLabel: string, keys: seq<string>, games: seq<Game>)

  /** `if (error)`: an error is shown when it is a non-empty string. */
  predicate Truthy(error: Option<string>) {
    error.Some? && error.value != ""
  }

  function SearchingText(searchType: Mode): string {
    if searchType == Meili then "Searching database..." else "Searching Google..."
  }

  /** "Found <n> game" for one result, "Found <n> games" for any other count. */
  function CountLabel(n: nat): (text: string)
    ensures |text| >= 12 && text[..6] == "Found "
    ensures text[|text| - 5..] == " game" <==> n == 1
    ensures var word := if n == 1 then " game" else " games";
            && |text| > 6 + |word| && text[|text| - |word|..] == word
            && AllDigits(text[6..|text| - |word|]) && ParseDecimal(text[6..|text| - |word|]) == n
            && (text[6] == '0' ==> n == 0)
  {
    var digits := Decimal(n);
    var text := "Found " + digits + " " + (if n == 1 then "game" else "games");
    var word := if n == 1 then " game" else " games";
    assert text == "Found " + digits + word;
    assert text[6..|text| - |word|] == digits;
    assert text[6] == digits[0];
    DecimalRoundTrip(n);
    assert n != 1 ==> text[|text| - 5] == 'g';
    text
  }

  /** Two distinct counts never share a label. */
  lemma CountLabelInjective(m: nat, n: nat)
    requires CountLabel(m) == CountLabel(n)
    ensures m == n
  {
    var a, b := Decimal(m), Decimal(n);
    var x := " " + (if m == 1 then "game" else "games");
    var y := " " + (if n == 1 then "game" else "games");
    assert CountLabel(m)[6..] == a + x;
    assert CountLabel(n)[6..] == b + y;
    DigitsBeforeSpace(a, x, b, y);
    DecimalInjective(m, n);
  }

  /** A run of digits followed by a space is recovered from the concatenation. */
  lemma DigitsBeforeSpace(a: string, x: string, b: string, y: string)
    requires AllDigits(a) && AllDigits(b) && x != [] && y != [] && x[0] == ' ' && y[0] == ' '
    requires a + x == b + y
    ensures a == b
  {
    var k := if |a| < |b| then |a| else |b|;
    assert (a + x)[k] == (b + y)[k];
    assert |a| == |b|;
    assert a == (a + x)[..|a|] && b == (b + y)[..|b|];
  }

  /** The text a template literal prints for the `title` property; an absent property
      prints as "undefined". */
  function TitleText(g: Game): string {
    if Title in g.present then g.title else "undefined"
  }

  /** The key of the card at `index`: the identifier of a traditional game, otherwise
      `${game.title}-${index}`. */
  function CardKey(g: Game, index: nat): string {
    if IsTraditional(g) then g.id else TitleText(g) + "-" + Decimal(index)
  }

  function CardKeys(games: seq<Game>): (keys: seq<string>)
    ensures |keys| == |games| && forall i :: 0 <= i < |games| ==> keys[i] == CardKey(games[i], i)
  {
    seq(|games|, i requires 0 <= i < |games| => CardKey(games[i], i))
  }

  /** `GameList`: loading first, then a truthy error, then the not-yet-searched welcome,
      then the empty result, and only then the list. */
  function SelectView(games: seq<Game>, isLoading: bool, hasSearched: bool, error: Option<string>,
                      searchType: Mode): View
  {
    if isLoading then Searching(SearchingText(searchType))
    else if Truthy(error) then ErrorPanel(error.value)
    else if !hasSearched then Welcome
    else if |games| == 0 then NoGames
    else Grid(CountLabel(|games|), CardKeys(games), games)
  }

  /** While loading, the spinner is shown whatever the error, the search flag and the
      results, with the text of the search back end. */
  lemma LoadingWins(games: seq<Game>, hasSearched: bool, error: Option<string>, searchType: Mode,
                    games': seq<Game>, hasSearched': bool, error': Option<string>)
    ensures SelectView(games, true, hasSearched, error, searchType)
         == SelectView(games', true, hasSearched', error', searchType)
    ensures SelectView(games, true, hasSearched, error, searchType).Searching?
    ensures SelectView(games, true, hasSearched, error, Meili).text == "Searching database..."
    ensures SelectView(games, true, hasSearched, error, Google).text == "Searching Google..."
  {
  }

  /** Not loading, a non-empty error is shown with its message, even beside results and
      whatever the search flag says. */
  lemma ErrorBeatsResults(games: seq<Game>, hasSearched: bool, message: string, searchType: Mode,
                          games': seq<Game>, hasSearched': bool)
    requires message != ""
    ensures SelectView(games, false, hasSearched, Some(message), searchType)
         == SelectView(games', false, hasSearched', Some(message), searchType)
         == ErrorPanel(message)
  {
  }

  /** Past the spinner and the error: the welcome view exactly when no search has been
      made, the empty-result view exactly when one was made and found nothing, and the
      list view exactly when it found something, with the key of each card and a label
      that counts them. */
  lemma GridIffFound(games: seq<Game>, isLoading: bool, hasSearched: bool, error: Option<string>,
                     searchType: Mode)
    ensures var v := SelectView(games, isLoading, hasSearched, error, searchType);
            v.Welcome? <==> !isLoading && !Truthy(error) && !hasSearched
    ensures var v := SelectView(games, isLoading, hasSearched, error, searchType);
            v.NoGames? <==> !isLoading && !Truthy(error) && hasSearched && |games| == 0
    ensures var v := SelectView(games, isLoading, hasSearched, error, searchType);
            v.Grid? <==> !isLoading && !Truthy(error) && hasSearched && |games| > 0
    ensures var v := SelectView(games, isLoading, hasSearched, error, searchType);
            v.Grid? ==> v.games == games && v.keys == CardKeys(games) && v.countLabel == CountLabel(|games|)
  {
  }

  /** The text after the last '-' of a string (the whole string when it has none). */
  function AfterLastDash(s: string): string {
    if s == [] then []
    else if s[|s| - 1] == '-' then []
    else AfterLastDash(s[..|s| - 1]) + [s[|s| - 1]]
  }

  lemma {:induction false} AfterLastDashOfSuffix(t: string, d: string)
    requires forall i :: 0 <= i < |d| ==> d[i] != '-'
    ensures AfterLastDash(t + "-" + d) == d
  {
    var s := t + "-" + d;
    if d != [] {
      var d' := d[..|d| - 1];
      assert s[..|s| - 1] == t + "-" + d';
      AfterLastDashOfSuffix(t, d');
      assert d == d' + [d[|d| - 1]];
    } else {
      assert s[|s| - 1] == '-';
    }
  }

  /** The position a synthesized key encodes: the number after its last '-'. */
  function KeyIndex(key: string): Option<nat> {
    var d := AfterLastDash(key);
    if d != [] && AllDigits(d) then Some(ParseDecimal(d)) else None
  }

  /** The key of a non-traditional game gives back its position, whatever its title. */
  lemma KeyRecoversIndex(g: Game, index: nat)
    requires !IsTraditional(g)
    ensures KeyIndex(CardKey(g, index)) == Some(index)
  {
    var d := Decimal(index);
    assert forall i :: 0 <= i < |d| ==> d[i] != '-' by {
      forall i | 0 <= i < |d| ensures d[i] != '-' { assert IsDigit(d[i]); }
    }
    AfterLastDashOfSuffix(TitleText(g), d);
    DecimalRoundTrip(index);
  }

  /** Among the results, two non-traditional games at different positions have different
      keys, even when their titles are equal or contain dashes and digits. */
  lemma SynthesizedKeysDistinct(games: seq<Game>, i: nat, j: nat)
    requires i < |games| && j < |games| && i != j
    requires !IsTraditional(games[i]) && !IsTraditional(games[j])
    ensures CardKeys(games)[i] != CardKeys(games)[j]
  {
    KeyRecoversIndex(games[i], i);
    KeyRecoversIndex(games[j], j);
  }

  /** In a list of traditional games the keys are pairwise distinct exactly when the
      identifiers are. */
  lemma TraditionalKeysDistinctIff(games: seq<Game>)
    requires forall i :: 0 <= i < |games| ==> IsTraditional(games[i])
    ensures (forall i, j :: 0 <= i < j < |games| ==> CardKeys(games)[i] != CardKeys(games)[j])
        <==> (forall i, j :: 0 <= i < j < |games| ==> games[i].id != games[j].id)
  {
    assert forall i :: 0 <= i < |games| ==> CardKeys(games)[i] == games[i].id;
  }

  /** A list mixing the two shapes can repeat a key: a traditional game whose identifier
      is "Doom-1" and a web result titled "Doom" at position 1. */
  lemma MixedKeysCanCollide()
    ensures exists games: seq<Game> :: |games| == 2 && IsTraditional(games[0]) && !IsTraditional(games[1])
                                       && CardKeys(games)[0] == CardKeys(games)[1]
  {
    var t := Game({Id, Title, Source, WebpageUrl, Uris, Size, UploadDate}, "Doom-1", "Doom", "s", "u", [], "1GB", "d", "");
    var w := Game({Title, Source, WebpageUrl, Snippet}, "", "Doom", "s", "u", [], "", "", "x");
    assert Decimal(1) == "1";
    assert CardKey(w, 1) == "Doom-1";
    assert CardKeys([t, w])[0] == CardKeys([t, w])[1];
  }
}
