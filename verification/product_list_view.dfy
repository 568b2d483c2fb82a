/** The product list component (src/components/app/product-list.tsx): the
    search term, the products on display, the searching flag and the search
    notice, over the `allProducts` list the page passes down.

    The smart-search call is a parameter: `Some(names)` is the list of
    relevant product names it returned, `None` that it failed. */
module ProductListView {
  import opened JsValues
  import opened JsStrings
  import opened JsArrays
  import opened ProductTypes

  const DegradedSearchNotice := "Smart search is unavailable. Displaying results using basic keyword matching."

  // ---------------------------------------------------------------------------
  // The two filters

  /** `allProducts.filter(p => relevantProductNames.includes(p.name))`: the
      products whose name the search returned, in catalog order. */
  function AiResults(all: seq<Product>, names: seq<string>): (r: seq<Product>)
    ensures IsSubsequence(r, all)
    ensures forall i :: 0 <= i < |r| ==> r[i].name in names
    ensures forall i :: 0 <= i < |all| && all[i].name in names ==> all[i] in r
    ensures forall p :: multiset(r)[p] == if p.name in names then multiset(all)[p] else 0
  {
    Filter(all, (p: Product) => p.name in names)
  }

  /** The fallback test: the lower-cased name contains the lower-cased term,
      or the description is non-empty and its lower-cased form contains it. */
  predicate KeywordMatch(p: Product, term: string)
  {
    || Includes(Lower(p.name), Lower(term))
    || (p.description != "" && Includes(Lower(p.description), Lower(term)))
  }

  /** The keyword filter used when smart search fails. */
  function KeywordResults(all: seq<Product>, term: string): (r: seq<Product>)
    ensures IsSubsequence(r, all)
    ensures forall i :: 0 <= i < |r| ==> KeywordMatch(r[i], term)
    ensures forall i :: 0 <= i < |all| && KeywordMatch(all[i], term) ==> all[i] in r
    ensures forall p :: multiset(r)[p] == if KeywordMatch(p, term) then multiset(all)[p] else 0
  {
    Filter(all, (p: Product) => KeywordMatch(p, term))
  }

  /** Only which catalog names the search returned matters: repeated names,
      names of no product and the order of the returned list change nothing. */
  lemma AiResultsDependOnlyOnListedNames(all: seq<Product>, names: seq<string>, names': seq<string>)
    requires forall i :: 0 <= i < |all| ==> (all[i].name in names <==> all[i].name in names')
    ensures AiResults(all, names) == AiResults(all, names')
  {
    forall p | p in all ensures (p.name in names) == (p.name in names') {
      var i :| 0 <= i < |all| && all[i] == p;
    }
    FilterCongruent(all, (p: Product) => p.name in names, (p: Product) => p.name in names');
  }

  /** When the search returns every catalog name, nothing is filtered out. */
  lemma AiResultsAllNamed(all: seq<Product>, names: seq<string>)
    requires forall i :: 0 <= i < |all| ==> all[i].name in names
    ensures AiResults(all, names) == all
  {
    forall p | p in all ensures p.name in names {
      var i :| 0 <= i < |all| && all[i] == p;
    }
    FilterAll(all, (p: Product) => p.name in names);
  }

  /** The fallback ignores case in the term: two terms with the same
      lower-case form give the same result. */
  lemma KeywordResultsIgnoreCase(all: seq<Product>, term: string, term': string)
    requires Lower(term) == Lower(term')
    ensures KeywordResults(all, term) == KeywordResults(all, term')
  {
    FilterCongruent(all, (p: Product) => KeywordMatch(p, term), (p: Product) => KeywordMatch(p, term'));
  }

  // ---------------------------------------------------------------------------
  // The component's state

  class ProductList {
    var allProducts: seq<Product>
    var searchTerm: string
    var displayed: seq<Product>
    var isSearching: bool
    var searchError: Option<string>

    /** While the term is blank the full list is on display, with no notice.
        Every step keeps this except `FinishSearch`, which may land after the
        term was cleared. */
    ghost predicate Valid()
      reads this
    {
      IsBlank(searchTerm) ==> displayed == allProducts && searchError == None
    }

    constructor (allProducts: seq<Product>)
      ensures Valid()
      ensures this.allProducts == allProducts && searchTerm == ""
      ensures displayed == allProducts && !isSearching && searchError == None
    {
      this.allProducts := allProducts;
      searchTerm, displayed, isSearching, searchError := "", allProducts, false, None;
    }

    /** The two effects on `[searchTerm, allProducts]`: with a blank term,
        show every product and drop the notice. */
    method ResetIfBlank()
      modifies this
      ensures allProducts == old(allProducts) && searchTerm == old(searchTerm)
      ensures isSearching == old(isSearching)
      ensures IsBlank(searchTerm) ==> displayed == allProducts && searchError == None
      ensures !IsBlank(searchTerm) ==> displayed == old(displayed) && searchError == old(searchError)
      ensures Valid()
    {
      if IsBlank(searchTerm) {
        displayed := allProducts;
        searchError := None;
      }
    }

    /** A new `allProducts` from the page, followed by the effects. */
    method SetAllProducts(products: seq<Product>)
      modifies this
      ensures allProducts == products && searchTerm == old(searchTerm)
      ensures isSearching == old(isSearching)
      ensures IsBlank(searchTerm) ==> displayed == products && searchError == None
      ensures !IsBlank(searchTerm) ==> displayed == old(displayed) && searchError == old(searchError)
      ensures Valid()
    {
      allProducts := products;
      ResetIfBlank();
    }

    /** Typing in the search box, followed by the effects. */
    method SetSearchTerm(term: string)
      modifies this
      ensures searchTerm == term && allProducts == old(allProducts)
      ensures isSearching == old(isSearching)
      ensures IsBlank(term) ==> displayed == allProducts && searchError == None
      ensures !IsBlank(term) ==> displayed == old(displayed) && searchError == old(searchError)
      ensures Valid()
    {
      searchTerm := term;
      ResetIfBlank();
    }

    /** The synchronous start of `handleSearch`: a blank term shows every
        product and stops there; otherwise the search begins. */
    method StartSearch() returns (started: bool)
      modifies this
      ensures started <==> !IsBlank(searchTerm)
      ensures allProducts == old(allProducts) && searchTerm == old(searchTerm)
      ensures !started ==> displayed == allProducts && searchError == None && isSearching == old(isSearching)
      ensures started ==> isSearching && searchError == None && displayed == old(displayed)
      ensures Valid()
    {
      if IsBlank(searchTerm) {
        displayed := allProducts;
        searchError := None;
        started := false;
      } else {
        isSearching := true;
        searchError := None;
        started := true;
      }
    }

    /** The rest of `handleSearch`, once the smart search has answered. The
        handler works on the `query` and `catalog` its closure captured when
        the search started, not on the component's state at this point. */
    method FinishSearch(query: string, catalog: seq<Product>, relevantNames: Option<seq<string>>)
      modifies this
      ensures allProducts == old(allProducts) && searchTerm == old(searchTerm)
      ensures !isSearching
      ensures relevantNames.Some? ==>
        displayed == AiResults(catalog, relevantNames.value) && searchError == old(searchError)
      ensures relevantNames.None? ==>
        displayed == KeywordResults(catalog, query) && searchError == Some(DegradedSearchNotice)
      ensures IsSubsequence(displayed, catalog)
    {
      if relevantNames.Some? {
        displayed := AiResults(catalog, relevantNames.value);
      } else {
        searchError := Some(DegradedSearchNotice);
        displayed := KeywordResults(catalog, query);
      }
      isSearching := false;
    }

    /** `handleSearch` when nothing else happens while the search is pending. */
    method HandleSearch(relevantNames: Option<seq<string>>)
      modifies this
      ensures allProducts == old(allProducts) && searchTerm == old(searchTerm)
      ensures IsBlank(searchTerm) ==> displayed == allProducts && searchError == None && isSearching == old(isSearching)
      ensures !IsBlank(searchTerm) ==> !isSearching
      ensures !IsBlank(searchTerm) && relevantNames.Some? ==>
        displayed == AiResults(allProducts, relevantNames.value) && searchError == None
      ensures !IsBlank(searchTerm) && relevantNames.None? ==>
        displayed == KeywordResults(allProducts, searchTerm) && searchError == Some(DegradedSearchNotice)
      ensures IsSubsequence(displayed, allProducts) && |displayed| <= |allProducts|
      ensures Valid()
    {
      var query, catalog := searchTerm, allProducts;
      var started := StartSearch();
      if started {
        FinishSearch(query, catalog, relevantNames);
      } else {
        SubsequenceOfItself(allProducts);
      }
      SubsequenceBounds(displayed, allProducts);
    }

    /** "Clear Search & View All". */
    method ClearSearch()
      modifies this
      ensures searchTerm == "" && displayed == allProducts && searchError == None
      ensures allProducts == old(allProducts) && isSearching == old(isSearching)
      ensures Valid()
    {
      searchTerm := "";
      displayed := allProducts;
      searchError := None;
    }
  }
}
