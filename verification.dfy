/**
 * The public certificate verification page: one search at a time (throttled to one per
 * 300 ms), the serial search first, the name search only when the serial search found
 * nothing, and the first record found shown as a certificate card.
 *
 * The two API calls' outcomes, the clock and the locale date formatter are inputs.
 */
module CertificateVerification {
  import opened Wrappers
  import opened JsText
  import opened Records
  import AdminCertificates

  /** Minimum time between two searches, in milliseconds. */
  const THROTTLE_MS := 300

  const EMPTY_QUERY_ERROR := "Please enter a search value"
  const NOT_FOUND_ERROR := "No certificate found with these details"

  const ACTIVE_CLASS := "bg-green-100 text-green-800 border-green-200"
  const EXPIRED_CLASS := "bg-red-100 text-red-800 border-red-200"

  /** The certificate card. Dates are already formatted; a missing date shows as `N/A`. */
  datatype CertificateDisplay = CertificateDisplay(
    id: string,
    name: string,
    title: string,
    serialNumber: string,
    issueDate: string,
    expiryDate: string,
    issuer: string,
    category: string,
    status: string,
    description: string,
    additionalInfo: string)

  /** `result.location ? "Location: ..." : "Location information not available"` with `N/A` for each missing part. */
  function AdditionalInfo(location: Option<Location>): (info: string)
    ensures location.None? <==> info == "Location information not available"
    ensures location.Some? ==>
              info == "Location: " + OrDefault(location.value.country, "N/A") + ", "
                      + OrDefault(location.value.state, "N/A") + ", " + OrDefault(location.value.streetAddress, "N/A")
  {
    match location
    case None => "Location information not available"
    case Some(l) =>
      var info := "Location: " + OrDefault(l.country, "N/A") + ", " + OrDefault(l.state, "N/A") + ", " + OrDefault(l.streetAddress, "N/A");
      assert info[8] == ':';
      info
  }

  /** A formatted date, or `N/A` when the record has none. */
  function DateText(date: Option<int>, localDate: int -> string): (text: string)
    ensures date.None? ==> text == "N/A"
    ensures date.Some? ==> text == localDate(date.value)
  {
    if date.Some? then localDate(date.value) else "N/A"
  }

  /** The card for one API record at time `now`. */
  function Display(result: Service, now: int, localDate: int -> string): (d: CertificateDisplay)
    ensures d.issuer == "AZ INTERNATIONAL" && d.category == "Quality Management"
    ensures d.description == d.title + " certification"
    ensures d.title == "ISO Certificate" <==> result.methodCode == 1
    ensures d.status == "active" <==> result.endDate.Some? && result.endDate.value > now
    ensures d.issueDate == DateText(result.startDate, localDate) && d.expiryDate == DateText(result.endDate, localDate)
    ensures d.additionalInfo == AdditionalInfo(result.location)
  {
    var title := CertificateTitle(result.methodCode);
    CertificateDisplay(
      "CERT-" + IntToString(result.id),
      OrDefault(result.name, "N/A"),
      title,
      OrDefault(result.serialNumber, "N/A"),
      DateText(result.startDate, localDate),
      DateText(result.endDate, localDate),
      "AZ INTERNATIONAL",
      "Quality Management",
      CertificateStatus(result.endDate, now),
      title + " certification",
      AdditionalInfo(result.location))
  }

  /** The public card and the admin table row agree on every field they share. */
  lemma DisplayAgreesWithAdminRow(result: Service, now: int, localDate: int -> string)
    ensures var d := Display(result, now, localDate);
            var row := AdminCertificates.ToUi(result, now);
            && d.id == row.id && d.name == row.name && d.title == row.title
            && d.serialNumber == row.serialNumber && d.status == row.status && d.category == row.category
  {
  }

  /** `certificateDisplay.statusClass`: green exactly for an active certificate. */
  function StatusClass(status: string): (cls: string)
    ensures cls == ACTIVE_CLASS <==> status == "active"
    ensures cls == EXPIRED_CLASS <==> status != "active"
  {
    if status == "active" then ACTIVE_CLASS else EXPIRED_CLASS
  }

  /** The route prefix of a certificate's details page. */
  const DETAILS_PREFIX := "/certificates/"

  /** `viewCertificateDetails`: the details route of the shown certificate, by serial number. */
  function DetailsPath(certificate: Option<CertificateDisplay>): (path: Option<string>)
    ensures path.Some? <==> certificate.Some?
    ensures path.Some? ==> StartsWith(path.value, DETAILS_PREFIX)
    ensures path.Some? ==> path.value[|DETAILS_PREFIX|..] == certificate.value.serialNumber
  {
    match certificate
    case None => None
    case Some(c) =>
      assert (DETAILS_PREFIX + c.serialNumber)[|DETAILS_PREFIX|..] == c.serialNumber;
      Some(DETAILS_PREFIX + c.serialNumber)
  }

  /** Two shown certificates share a details route exactly when they share a serial number. */
  lemma DetailsPathIdentifiesSerial(a: CertificateDisplay, b: CertificateDisplay)
    ensures DetailsPath(Some(a)) == DetailsPath(Some(b)) <==> a.serialNumber == b.serialNumber
  {
    if DetailsPath(Some(a)) == DetailsPath(Some(b)) {
      assert DetailsPath(Some(a)).value[|DETAILS_PREFIX|..] == DetailsPath(Some(b)).value[|DETAILS_PREFIX|..];
    }
  }

  predicate AsksSerial(searchType: string) {
    searchType == "serial" || searchType == "all"
  }

  predicate AsksName(searchType: string) {
    searchType == "name" || searchType == "all"
  }

  /**
   * The records a search finds: the serial results when that search runs and finds some,
   * otherwise the name results when that search runs. A rejected search finds nothing.
   */
  function Found(searchType: string, bySerial: Result<Body, ApiError>, byName: Result<Body, ApiError>): seq<Service> {
    var serial := if AsksSerial(searchType) then ResultItems(bySerial) else [];
    if AsksName(searchType) && serial == [] then ResultItems(byName) else serial
  }

  /**
   * Serial results win over name results, a search kind the tab does not select never
   * contributes, and an unknown search type finds nothing.
   */
  lemma FoundProperties(searchType: string, bySerial: Result<Body, ApiError>, byName: Result<Body, ApiError>, other: Result<Body, ApiError>)
    ensures AsksSerial(searchType) && ResultItems(bySerial) != [] ==> Found(searchType, bySerial, byName) == ResultItems(bySerial)
    ensures searchType == "name" ==> Found(searchType, bySerial, byName) == Found(searchType, other, byName)
    ensures searchType == "serial" ==> Found(searchType, bySerial, byName) == Found(searchType, bySerial, other)
    ensures !AsksSerial(searchType) && !AsksName(searchType) ==> Found(searchType, bySerial, byName) == []
    ensures AsksName(searchType) && (!AsksSerial(searchType) || ResultItems(bySerial) == []) ==>
              Found(searchType, bySerial, byName) == ResultItems(byName)
    ensures Found(searchType, bySerial, byName) != [] ==>
              Found(searchType, bySerial, byName) == ResultItems(bySerial) || Found(searchType, bySerial, byName) == ResultItems(byName)
  {
  }

  class VerificationPage {
    var searchType: string
    var searchQuery: string
    var isSearching: bool
    var searchPerformed: bool
    var certificate: Option<CertificateDisplay>
    var error: string
    var lastSearchTime: int

    constructor ()
      ensures searchType == "name" && searchQuery == "" && !isSearching && !searchPerformed
      ensures certificate == None && error == "" && lastSearchTime == 0
    {
      searchType, searchQuery, isSearching, searchPerformed := "name", "", false, false;
      certificate, error, lastSearchTime := None, "", 0;
    }

    /** The tabs' `onValueChange`. */
    method SetSearchType(value: string)
      modifies this
      ensures searchType == value
      ensures searchQuery == old(searchQuery) && certificate == old(certificate) && error == old(error)
      ensures isSearching == old(isSearching) && searchPerformed == old(searchPerformed) && lastSearchTime == old(lastSearchTime)
    {
      searchType := value;
    }

    /** The search input's `onChange`. */
    method SetSearchQuery(value: string)
      modifies this
      ensures searchQuery == value
      ensures searchType == old(searchType) && certificate == old(certificate) && error == old(error)
      ensures isSearching == old(isSearching) && searchPerformed == old(searchPerformed) && lastSearchTime == old(lastSearchTime)
    {
      searchQuery := value;
    }

    /** `certificateDisplay`: the shown card with its status class. */
    function Shown(): (shown: Option<(CertificateDisplay, string)>)
      reads this
      ensures shown.Some? <==> certificate.Some?
      ensures shown.Some? ==> shown.value.0 == certificate.value && (shown.value.1 == ACTIVE_CLASS <==> certificate.value.status == "active")
    {
      match certificate
      case None => None
      case Some(c) => Some((c, StatusClass(c.status)))
    }

    /**
     * `handleSearch` at time `now`. A blank query only sets an error. A search within 300 ms
     * of the previous one clears the card and the error and does nothing else, and the
     * `finally` still marks a search as performed. Otherwise the serial and name searches run
     * as `Found` describes, with the untrimmed query, and the first record found is shown.
     */
    method HandleSearch(now: int, bySerial: Result<Body, ApiError>, byName: Result<Body, ApiError>, localDate: int -> string)
      returns (serialAsked: Option<string>, nameAsked: Option<string>)
      modifies this
      ensures IsBlank(old(searchQuery)) ==>
                && error == EMPTY_QUERY_ERROR && serialAsked == None && nameAsked == None
                && certificate == old(certificate) && isSearching == old(isSearching)
                && searchPerformed == old(searchPerformed) && lastSearchTime == old(lastSearchTime)
      ensures !IsBlank(old(searchQuery)) ==> !isSearching && searchPerformed
      ensures !IsBlank(old(searchQuery)) && now - old(lastSearchTime) < THROTTLE_MS ==>
                && certificate == None && error == "" && serialAsked == None && nameAsked == None
                && lastSearchTime == old(lastSearchTime)
      ensures !IsBlank(old(searchQuery)) && now - old(lastSearchTime) >= THROTTLE_MS ==>
                && lastSearchTime == now
                && SearchShows(old(searchType), old(searchQuery), now, bySerial, byName, localDate,
                               certificate, error, serialAsked, nameAsked)
      ensures searchType == old(searchType) && searchQuery == old(searchQuery)
    {
      var kind, query, last := searchType, searchQuery, lastSearchTime;
      var blank := TrimmedIsEmpty(query);
      if blank {
        error := EMPTY_QUERY_ERROR;
        return None, None;
      }
      if now - last < THROTTLE_MS {
        certificate, error, isSearching, searchPerformed := None, "", false, true;
        return None, None;
      }
      var card, message;
      card, message, serialAsked, nameAsked := RunSearch(kind, query, now, bySerial, byName, localDate);
      certificate, error, lastSearchTime, isSearching, searchPerformed := card, message, now, false, true;
    }
  }

  /**
   * What the part of `handleSearch` after the throttle check requests and shows: the serial
   * search when the tab asks for it, the name search when the tab asks for it and the serial
   * search found nothing, both with the untrimmed query; then the card of the first record
   * found, or no card and the not-found error.
   */
  predicate SearchShows(searchType: string, query: string, now: int, bySerial: Result<Body, ApiError>, byName: Result<Body, ApiError>,
                        localDate: int -> string, card: Option<CertificateDisplay>, error: string,
                        serialAsked: Option<string>, nameAsked: Option<string>)
  {
    var found := Found(searchType, bySerial, byName);
    && serialAsked == (if AsksSerial(searchType) then Some(query) else None)
    && nameAsked == (if AsksName(searchType) && (!AsksSerial(searchType) || ResultItems(bySerial) == []) then Some(query) else None)
    && (found != [] ==> card == Some(Display(found[0], now, localDate)) && error == "")
    && (found == [] ==> card == None && error == NOT_FOUND_ERROR)
  }

  /** The part of `handleSearch` after the throttle check. */
  method RunSearch(searchType: string, query: string, now: int, bySerial: Result<Body, ApiError>, byName: Result<Body, ApiError>, localDate: int -> string)
    returns (card: Option<CertificateDisplay>, error: string, serialAsked: Option<string>, nameAsked: Option<string>)
    ensures SearchShows(searchType, query, now, bySerial, byName, localDate, card, error, serialAsked, nameAsked)
  {
    serialAsked, nameAsked := None, None;
    var results: seq<Service> := [];
    if AsksSerial(searchType) {
      serialAsked := Some(query);
      var serialResults := ResultItems(bySerial);
      if serialResults != [] {
        results := serialResults;
      }
    }
    assert results == if AsksSerial(searchType) then ResultItems(bySerial) else [];
    if AsksName(searchType) && |results| == 0 {
      nameAsked := Some(query);
      var nameResults := ResultItems(byName);
      if nameResults != [] {
        results := nameResults;
      }
    }
    assert results == Found(searchType, bySerial, byName);
    if |results| > 0 {
      card, error := Some(Display(results[0], now, localDate)), "";
    } else {
      card, error := None, NOT_FOUND_ERROR;
    }
  }
}
