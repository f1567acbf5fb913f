/**
 * The admin services page: a search that calls the two search endpoints with `fetch`
 * directly (no cache), merges the results by id, and the display helpers for a service row.
 *
 * Each `fetch` outcome is an input. A rejection, a body `response.json()` cannot parse, and a
 * `$values` that is truthy but neither an array nor a string all throw into the page's `catch`.
 */
module AdminServices {
  import opened Wrappers
  import opened JsText
  import opened Records
  import opened SearchMerge

  /** What one search response adds: a list of services, or an exception. */
  datatype Contribution = Contributes(items: seq<Service>) | Throws

  /**
   * `if (response.ok) { const data = await response.json(); if (data && data.$values) ... }`:
   * only an object with an array `$values` contributes items; a response that is not ok, or
   * whose body has no truthy `$values`, contributes nothing.
   */
  function ContributionOf(f: Fetch): (c: Contribution)
    ensures c.Throws? <==> f.OkMalformed? || f.TimedOut? || f.NetworkDown? || (f.Ok? && f.body.Object? && f.body.values.NotArray?)
    ensures c.Contributes? && c.items != [] ==> f.Ok? && f.body.Object? && f.body.values == Items(c.items)
    ensures f.NotOk? ==> c == Contributes([])
  {
    match f
    case Ok(Object(_, Items(xs))) => Contributes(xs)
    case Ok(Object(_, NotArray)) => Throws
    case Ok(_) => Contributes([])
    case NotOk(_) => Contributes([])
    case _ => Throws
  }

  /**
   * The results one search produces, `None` when it throws: the name results, then, only
   * when the query has a digit, the serial results with an id the name results lack.
   */
  function SearchOutcome(query: string, nameFetch: Fetch, serialFetch: Fetch): Option<seq<Service>> {
    var byName := ContributionOf(nameFetch);
    if byName.Throws? then None
    else if !HasDigit(query) then Some(byName.items)
    else
      var bySerial := ContributionOf(serialFetch);
      if bySerial.Throws? then None
      else Some(Merged(byName.items, bySerial.items))
  }

  /**
   * A search without a digit ignores the serial endpoint; a successful search starts with the
   * name results and adds only serial results with a new id; any one throwing search throws.
   */
  lemma SearchOutcomeProperties(query: string, nameFetch: Fetch, serialFetch: Fetch, other: Fetch)
    ensures !HasDigit(query) ==> SearchOutcome(query, nameFetch, serialFetch) == SearchOutcome(query, nameFetch, other)
    ensures ContributionOf(nameFetch).Throws? ==> SearchOutcome(query, nameFetch, serialFetch) == None
    ensures HasDigit(query) && ContributionOf(serialFetch).Throws? ==> SearchOutcome(query, nameFetch, serialFetch) == None
    ensures SearchOutcome(query, nameFetch, serialFetch).Some? ==>
              var r := SearchOutcome(query, nameFetch, serialFetch).value;
              var names := ContributionOf(nameFetch).items;
              && r[..|names|] == names
              && forall x | x in r[|names|..] :: x in ContributionOf(serialFetch).items && x.id !in Ids(names)
  {
    var byName := ContributionOf(nameFetch);
    if byName.Contributes? {
      if HasDigit(query) && ContributionOf(serialFetch).Contributes? {
        MergedProperties(byName.items, ContributionOf(serialFetch).items);
      } else {
        assert byName.items[|byName.items|..] == [];
      }
    }
  }

  /** `getMethodName`: the lookup table for 1 to 3 gives the same names as the fallback. */
  function MethodName(methodId: int): (name: string)
    ensures name == "Method " + IntToString(methodId)
  {
    if methodId == 1 then "Method 1"
    else if methodId == 2 then "Method 2"
    else if methodId == 3 then "Method 3"
    else "Method " + IntToString(methodId)
  }

  /** `formatDate`: a missing date string shows as `N/A`; a present one is handed to the date formatter. */
  function FormatDate(dateString: string, format: string -> string): (shown: string)
    ensures dateString == "" ==> shown == "N/A"
    ensures dateString != "" ==> shown == format(dateString)
  {
    if dateString == "" then "N/A" else format(dateString)
  }

  /** The truthy ones of country and state, in that order. */
  function LocationParts(location: Location): (parts: seq<string>)
    ensures |parts| <= 2
    ensures forall p | p in parts :: p != ""
    ensures location.country != "" ==> parts != [] && parts[0] == location.country
    ensures location.state != "" ==> parts != [] && parts[|parts| - 1] == location.state
    ensures |parts| == (if location.country != "" then 1 else 0) + (if location.state != "" then 1 else 0)
  {
    (if location.country != "" then [location.country] else []) + (if location.state != "" then [location.state] else [])
  }

  /**
   * `getLocationString`: country and state joined by a comma, the street address never shown,
   * and `Not specified` when there is no location or neither part is set.
   */
  function LocationString(location: Option<Location>): (shown: string)
    ensures location.None? || LocationParts(location.value) == [] ==> shown == "Not specified"
    ensures location.Some? && location.value.country != "" && location.value.state != "" ==>
              shown == location.value.country + ", " + location.value.state
    ensures location.Some? && (location.value.country == "") != (location.value.state == "") ==>
              shown == location.value.country + location.value.state
  {
    if location.None? then "Not specified"
    else
      var parts := LocationParts(location.value);
      var loc := location.value;
      JoinShort(loc.country, loc.state, ", ");
      JoinShort(loc.state, loc.country, ", ");
      if |parts| > 0 then Join(parts, ", ") else "Not specified"
  }

  /** The message shown when a search throws. */
  const SEARCH_ERROR := "Failed to search services. Please try again."

  /**
   * The awaited part of `searchServices` for a non-blank query: the name search, then the
   * serial search when the query has a digit, its items pushed when their id is new. The
   * outcome is `None` when a search throws; the serial endpoint is asked only after a name
   * search that did not throw.
   */
  method RunSearches(query: string, nameFetch: Fetch, serialFetch: Fetch)
    returns (outcome: Option<seq<Service>>, serialRequested: Option<string>)
    ensures outcome == SearchOutcome(query, nameFetch, serialFetch)
    ensures serialRequested == (if HasDigit(query) && ContributionOf(nameFetch).Contributes? then Some(query) else None)
  {
    serialRequested := None;
    var byName := ContributionOf(nameFetch);
    if byName.Throws? {
      return None, None;
    }
    var results := byName.items;
    if HasDigit(query) {
      serialRequested := Some(query);
      var bySerial := ContributionOf(serialFetch);
      if bySerial.Throws? {
        return None, serialRequested;
      }
      results := AppendNew(results, bySerial.items);
    }
    outcome := Some(results);
  }

  class ServicesPage {
    var searchQuery: string
    var searchResults: seq<Service>
    var isSearching: bool
    var error: Option<string>

    constructor ()
      ensures searchQuery == "" && searchResults == [] && !isSearching && error == None
    {
      searchQuery, searchResults, isSearching, error := "", [], false, None;
    }

    /** `handleSearchInputChange` */
    method SetSearchQuery(value: string)
      modifies this
      ensures searchQuery == value
      ensures searchResults == old(searchResults) && isSearching == old(isSearching) && error == old(error)
    {
      searchQuery := value;
    }

    /**
     * `searchServices(query)`: a blank query clears the results and fetches nothing.
     * Otherwise the name endpoint is asked with the untrimmed query, the serial endpoint too
     * when the query has a digit and the name search did not throw, and the merged results
     * replace the old ones; a throw leaves the old results and sets the error message.
     */
    method SearchServices(query: string, nameFetch: Fetch, serialFetch: Fetch)
      returns (nameRequested: Option<string>, serialRequested: Option<string>)
      modifies this
      ensures IsBlank(query) ==>
                && searchResults == [] && nameRequested == None && serialRequested == None
                && isSearching == old(isSearching) && error == old(error)
      ensures !IsBlank(query) ==> !isSearching && nameRequested == Some(query)
      ensures !IsBlank(query) ==>
                serialRequested == (if HasDigit(query) && ContributionOf(nameFetch).Contributes? then Some(query) else None)
      ensures !IsBlank(query) && SearchOutcome(query, nameFetch, serialFetch).Some? ==>
                searchResults == SearchOutcome(query, nameFetch, serialFetch).value && error == None
      ensures !IsBlank(query) && SearchOutcome(query, nameFetch, serialFetch).None? ==>
                searchResults == old(searchResults) && error == Some(SEARCH_ERROR)
      ensures searchQuery == old(searchQuery)
    {
      var blank := TrimmedIsEmpty(query);
      if blank {
        searchResults := [];
        return None, None;
      }
      var outcome;
      outcome, serialRequested := RunSearches(query, nameFetch, serialFetch);
      nameRequested := Some(query);
      match outcome {
        case Some(results) =>
          searchResults, error := results, None;
        case None =>
          error := Some(SEARCH_ERROR);
      }
      isSearching := false;
    }

    /**
     * `handleDeleteService(id)`: nothing happens unless the user confirms; a confirmed delete
     * that succeeds removes every result with that id, one that fails changes nothing.
     */
    method DeleteService(id: int, confirmed: bool, deleted: bool) returns (requested: Option<int>, notice: Option<Notice>)
      modifies this
      ensures requested == if confirmed then Some(id) else None
      ensures !confirmed ==> notice == None && searchResults == old(searchResults)
      ensures confirmed && deleted ==>
                && notice == Some(Notice("Success", "Service deleted successfully", Some("success")))
                && searchResults == KeepNew(old(searchResults), {id})
      ensures confirmed && !deleted ==>
                notice == Some(Notice("Error", "Failed to delete service", Some("destructive"))) && searchResults == old(searchResults)
      ensures searchQuery == old(searchQuery) && isSearching == old(isSearching) && error == old(error)
    {
      if !confirmed {
        return None, None;
      }
      requested := Some(id);
      if deleted {
        notice := Some(Notice("Success", "Service deleted successfully", Some("success")));
        searchResults := KeepNew(searchResults, {id});
      } else {
        notice := Some(Notice("Error", "Failed to delete service", Some("destructive")));
      }
    }
  }
}
