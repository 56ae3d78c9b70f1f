/**
 * CurrencySelector: a searchable list of currencies and the symbol chosen
 * from it. The search text and the chosen symbol are the component's
 * mutable state; the shown list is a pure filter over the fixed catalogue.
 */
module Currency {
  import opened Text
  import opened Lists

  datatype CurrencyItem = CurrencyItem(country: string, code: string, symbol: string)

  /** An entry matches when its country or its code contains the search text, ignoring case. */
  predicate CurrencyMatches(c: CurrencyItem, query: string) {
    ContainsIgnoreCase(c.country, query) || ContainsIgnoreCase(c.code, query)
  }

  /** `CurrencyMatches` for one query, as the predicate handed to `filter`. */
  function CurrencyMatcher(query: string): CurrencyItem -> bool {
    c => CurrencyMatches(c, query)
  }

  /** The entries shown for a search text. */
  function SearchCurrencies(currencies: seq<CurrencyItem>, query: string): (r: seq<CurrencyItem>)
    ensures IsBlank(query) ==> r == currencies
    ensures !IsBlank(query) ==> forall i | 0 <= i < |r| :: r[i] in currencies && CurrencyMatches(r[i], query)
    ensures !IsBlank(query) ==> forall i | 0 <= i < |currencies| && CurrencyMatches(currencies[i], query) ::
              currencies[i] in r
  {
    if IsBlank(query) then currencies else Filter(currencies, CurrencyMatcher(query))
  }

  /** The shown entries keep the catalogue's order. */
  lemma SearchKeepsCatalogueOrder(currencies: seq<CurrencyItem>, query: string)
    ensures IsSubsequence(SearchCurrencies(currencies, query), currencies)
  {
    if IsBlank(query) {
      FilterAll(currencies, c => true);
      FilterIsSubsequence(currencies, c => true);
    } else {
      FilterIsSubsequence(currencies, CurrencyMatcher(query));
    }
  }

  /** Searching for an entry's own code, or its own country, always finds it. */
  lemma OwnCodeFindsEntry(currencies: seq<CurrencyItem>, i: int)
    requires 0 <= i < |currencies|
    ensures currencies[i] in SearchCurrencies(currencies, currencies[i].code)
    ensures currencies[i] in SearchCurrencies(currencies, currencies[i].country)
  {
    ContainsReflexive(currencies[i].code);
    ContainsReflexive(currencies[i].country);
  }

  class CurrencySelector {
    const currencies: seq<CurrencyItem>
    var searchText: string
    var selectedSymbol: string

    /** Opens with an empty search and the current symbol selected. */
    constructor (currencies: seq<CurrencyItem>, currentCurrencySymbol: string)
      ensures this.currencies == currencies
      ensures searchText == "" && selectedSymbol == currentCurrencySymbol
    {
      this.currencies := currencies;
      searchText := "";
      selectedSymbol := currentCurrencySymbol;
    }

    function Shown(): (r: seq<CurrencyItem>)
      reads this
      ensures |r| <= |currencies|
    {
      SearchCurrencies(currencies, searchText)
    }

    /** A row's radio button is on when its symbol is the selected one. */
    predicate IsSelected(item: CurrencyItem)
      reads this
    {
      item.symbol == selectedSymbol
    }

    method OnSearchChange(text: string)
      modifies this
      ensures searchText == text && selectedSymbol == old(selectedSymbol)
    {
      searchText := text;
    }

    /**
     * Tapping a shown row (or its radio button) selects its symbol; every
     * row sharing that symbol is then selected with it.
     */
    method OnItemClick(item: CurrencyItem)
      requires item in Shown()
      modifies this
      ensures selectedSymbol == item.symbol && searchText == old(searchText)
      ensures forall c | c in currencies :: IsSelected(c) <==> c.symbol == item.symbol
    {
      selectedSymbol := item.symbol;
    }

    /** DONE reports the selected symbol. */
    method OnDone() returns (symbol: string)
      ensures symbol == selectedSymbol
    {
      symbol := selectedSymbol;
    }
  }
}
