/**
 * The searchable select modal: options narrowed by a case-insensitive
 * substring search that resets when the modal selects or closes.
 */
module SearchSelect {
  import opened Js

  /** The predicate of `filteredOptions`. */
  function MatchesQuery(query: string): string -> bool {
    (option: string) => ContainsIgnoringCase(option, query)
  }

  /** `options.filter(o => o.toLowerCase().indexOf(query.toLowerCase()) !== -1)`. */
  function FilteredOptions(options: seq<string>, query: string): seq<string> {
    Filter(options, MatchesQuery(query))
  }

  /**
   * The options shown are an order-keeping sub-list; an option is shown exactly
   * when it contains the query ignoring case, as often as it is offered.
   */
  lemma FilteredOptionsExact(options: seq<string>, query: string, x: string)
    ensures Subsequence(FilteredOptions(options, query), options)
    ensures multiset(FilteredOptions(options, query))[x] ==
              if ContainsIgnoringCase(x, query) then multiset(options)[x] else 0
  {
    FilterIsSubsequence(options, MatchesQuery(query));
    FilterCount(options, MatchesQuery(query), x);
  }

  /** With no query every option is shown. */
  lemma EmptyQueryShowsAll(options: seq<string>)
    ensures FilteredOptions(options, "") == options
  {
    forall i | 0 <= i < |options| ensures MatchesQuery("")(options[i]) {
      SearchIgnoresCase(options[i], "");
    }
    FilterKeepsAll(options, MatchesQuery(""));
  }

  /** Narrowing again by the same query changes nothing. */
  lemma FilteredOptionsIdempotent(options: seq<string>, query: string)
    ensures FilteredOptions(FilteredOptions(options, query), query) == FilteredOptions(options, query)
  {
    FilterIdempotent(options, MatchesQuery(query));
  }

  /** The modal's search cell. */
  class SearchModal {
    var searchQuery: string

    constructor ()
      ensures searchQuery == ""
    {
      searchQuery := "";
    }

    method SetSearchQuery(q: string)
      modifies this
      ensures searchQuery == q
    {
      searchQuery := q;
    }

    /** `handleSelect(item)`: the item is handed to the caller and the search resets. */
    method HandleSelect(item: string) returns (selected: string)
      modifies this
      ensures selected == item && searchQuery == ""
    {
      selected := item;
      searchQuery := "";
    }

    /** `handleClose`: the search resets. */
    method HandleClose()
      modifies this
      ensures searchQuery == ""
    {
      searchQuery := "";
    }

    /** The options shown for the current query. */
    function Shown(options: seq<string>): (r: seq<string>)
      reads this
      ensures |r| <= |options|
      ensures forall i :: 0 <= i < |r| ==> ContainsIgnoringCase(r[i], searchQuery)
    {
      var r := FilteredOptions(options, searchQuery);
      assert forall i :: 0 <= i < |r| ==> MatchesQuery(searchQuery)(r[i]);
      r
    }
  }
}
