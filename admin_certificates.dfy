/**
 * The admin certificate list: search (name search, then serial search for terms with a
 * digit, merged by id), the mapping of API records to table rows, the client-side filter,
 * the row selection, and single and bulk deletion.
 *
 * The two search calls and the delete calls are inputs: what `searchServiceByName`,
 * `searchServiceBySerialNumber` and `deleteService` resolved or rejected with.
 */
module AdminCertificates {
  import opened Wrappers
  import opened JsText
  import opened Records
  import opened SearchMerge

  /**
   * One table row. `issueDate` is `None` when the record has no start date (the row then
   * shows the current date) and `expiryDate` is `None` when it has no end date (a year from
   * now is shown).
   */
  datatype UiCertificate = UiCertificate(
    id: string,
    name: string,
    title: string,
    serialNumber: string,
    issueDate: Option<int>,
    expiryDate: Option<int>,
    status: string,
    category: string)

  /** `id.split("-")[1]`: the number the delete request is sent with. */
  function CertificateNumber(id: string): (n: Option<string>)
    ensures n.None? <==> '-' !in id
    ensures n.Some? ==> '-' !in n.value
  {
    SecondField(id, '-')
  }

  /**
   * The mapping of one API record to a row at time `now`; the row id is `CERT-<id>`.
   */
  function ToUi(item: Service, now: int): (c: UiCertificate)
    ensures c.status == "active" <==> item.endDate.Some? && item.endDate.value > now
    ensures c.title == "ISO Certificate" <==> item.methodCode == 1
    ensures c.title == CertificateTitle(item.methodCode) && c.category == "Quality Management"
    ensures c.name == OrDefault(item.name, "N/A") && c.serialNumber == OrDefault(item.serialNumber, "N/A")
    ensures c.issueDate == item.startDate && c.expiryDate == item.endDate
  {
    UiCertificate(
      "CERT-" + IntToString(item.id),
      OrDefault(item.name, "N/A"),
      CertificateTitle(item.methodCode),
      OrDefault(item.serialNumber, "N/A"),
      item.startDate,
      item.endDate,
      CertificateStatus(item.endDate, now),
      "Quality Management")
  }

  /** The row id round-trips: the delete request for a row is sent with the record's own id. */
  lemma RowIdRoundTrip(item: Service, now: int)
    requires item.id >= 0
    ensures CertificateNumber(ToUi(item, now).id) == Some(NatToString(item.id))
  {
    assert IntToString(item.id) == NatToString(item.id);
    SecondFieldAfterPrefix("CERT-", NatToString(item.id), '-');
  }

  /** A negative id yields `CERT--<n>`, whose second field is empty: the delete request loses the number. */
  lemma NegativeIdLosesNumber(item: Service, now: int)
    requires item.id < 0
    ensures CertificateNumber(ToUi(item, now).id) == Some("")
  {
    SecondFieldEmpty("CERT-", IntToString(item.id), '-');
  }

  function ToUiAll(items: seq<Service>, now: int): (rows: seq<UiCertificate>)
    ensures |rows| == |items|
    ensures forall i | 0 <= i < |items| :: rows[i] == ToUi(items[i], now)
  {
    seq(|items|, i requires 0 <= i < |items| => ToUi(items[i], now))
  }

  /**
   * The records the search shows for the trimmed term: the name results, then (only when the
   * term has a digit) the serial results with a new id. A rejected search contributes nothing.
   */
  function SearchRecords(term: string, byName: Result<Body, ApiError>, bySerial: Result<Body, ApiError>): seq<Service> {
    Merged(ResultItems(byName), if HasDigit(term) then ResultItems(bySerial) else [])
  }

  /** The serial search only matters for a term with a digit, and a rejected search is the same as no results. */
  lemma SearchRecordsProperties(term: string, byName: Result<Body, ApiError>, bySerial: Result<Body, ApiError>, e: ApiError)
    ensures !HasDigit(term) ==> SearchRecords(term, byName, bySerial) == ResultItems(byName)
    ensures SearchRecords(term, Failure(e), bySerial) == (if HasDigit(term) then ResultItems(bySerial) else [])
    ensures SearchRecords(term, byName, bySerial)[..|ResultItems(byName)|] == ResultItems(byName)
  {
    assert KeepNew([], Ids(ResultItems(byName))) == [];
    assert ResultItems(Failure(e)) == [] && Ids([]) == {};
    KeepNewNothingKnown(if HasDigit(term) then ResultItems(bySerial) else []);
    MergedProperties(ResultItems(byName), if HasDigit(term) then ResultItems(bySerial) else []);
  }

  /** The filter test: a blank query keeps everything; otherwise the lower-cased (untrimmed) query occurs in the lower-cased name, serial number or title. */
  predicate Matches(cert: UiCertificate, query: string) {
    || IsBlank(query)
    || Includes(ToLower(cert.name), ToLower(query))
    || Includes(ToLower(cert.serialNumber), ToLower(query))
    || Includes(ToLower(cert.title), ToLower(query))
  }

  /** `certificates.filter(...)` with `Matches` */
  function Filtered(certs: seq<UiCertificate>, query: string): (r: seq<UiCertificate>)
    ensures IsBlank(query) ==> r == certs
    ensures forall c :: c in r <==> c in certs && Matches(c, query)
    ensures |r| <= |certs|
  {
    if certs == [] then []
    else (if Matches(certs[0], query) then [certs[0]] else []) + Filtered(certs[1..], query)
  }

  /** `certs.map(cert => cert.id)` */
  function IdsOf(certs: seq<UiCertificate>): (ids: seq<string>)
    ensures |ids| == |certs|
    ensures forall i | 0 <= i < |certs| :: ids[i] == certs[i].id
  {
    seq(|certs|, i requires 0 <= i < |certs| => certs[i].id)
  }

  /** `ids.filter(x => x !== id)`: every occurrence of `id` goes, the rest stay in order. */
  function Without(ids: seq<string>, id: string): (r: seq<string>)
    ensures id !in r
    ensures forall x | x != id :: x in r <==> x in ids
    ensures id !in ids ==> r == ids
    ensures |r| <= |ids|
  {
    if ids == [] then []
    else (if ids[0] == id then [] else [ids[0]]) + Without(ids[1..], id)
  }

  /** `certs.filter(cert => cert.id !== id)` */
  function RemoveCertificate(certs: seq<UiCertificate>, id: string): (r: seq<UiCertificate>)
    ensures forall c :: c in r <==> c in certs && c.id != id
    ensures (forall c | c in certs :: c.id != id) ==> r == certs
    ensures |r| <= |certs|
  {
    if certs == [] then []
    else (if certs[0].id == id then [] else [certs[0]]) + RemoveCertificate(certs[1..], id)
  }

  /** `certs.filter(cert => !selected.includes(cert.id))` */
  function RemoveSelected(certs: seq<UiCertificate>, selected: seq<string>): (r: seq<UiCertificate>)
    ensures forall c :: c in r <==> c in certs && c.id !in selected
    ensures selected == [] ==> r == certs
    ensures |r| <= |certs|
  {
    if certs == [] then []
    else (if certs[0].id in selected then [] else [certs[0]]) + RemoveSelected(certs[1..], selected)
  }

  /** The filter keeps the order of the rows: filtering a concatenation filters each part. */
  lemma {:induction false} FilteredAppend(a: seq<UiCertificate>, b: seq<UiCertificate>, query: string)
    ensures Filtered(a + b, query) == Filtered(a, query) + Filtered(b, query)
  {
    if a == [] {
      assert a + b == b;
    } else {
      assert (a + b)[0] == a[0] && (a + b)[1..] == a[1..] + b;
      FilteredAppend(a[1..], b, query);
      assert Filtered(a + b, query) == (if Matches(a[0], query) then [a[0]] else []) + Filtered(a[1..] + b, query);
    }
  }

  /** Removing an id keeps the order of the other ids. */
  lemma {:induction false} WithoutAppend(a: seq<string>, b: seq<string>, id: string)
    ensures Without(a + b, id) == Without(a, id) + Without(b, id)
  {
    if a == [] {
      assert a + b == b;
    } else {
      assert (a + b)[0] == a[0] && (a + b)[1..] == a[1..] + b;
      WithoutAppend(a[1..], b, id);
      assert Without(a + b, id) == (if a[0] == id then [] else [a[0]]) + Without(a[1..] + b, id);
    }
  }

  /** Deleting a row keeps the order of the other rows. */
  lemma {:induction false} RemoveCertificateAppend(a: seq<UiCertificate>, b: seq<UiCertificate>, id: string)
    ensures RemoveCertificate(a + b, id) == RemoveCertificate(a, id) + RemoveCertificate(b, id)
  {
    if a == [] {
      assert a + b == b;
    } else {
      assert (a + b)[0] == a[0] && (a + b)[1..] == a[1..] + b;
      RemoveCertificateAppend(a[1..], b, id);
      assert RemoveCertificate(a + b, id) == (if a[0].id == id then [] else [a[0]]) + RemoveCertificate(a[1..] + b, id);
    }
  }

  /** A bulk delete keeps the order of the rows that stay. */
  lemma {:induction false} RemoveSelectedAppend(a: seq<UiCertificate>, b: seq<UiCertificate>, selected: seq<string>)
    ensures RemoveSelected(a + b, selected) == RemoveSelected(a, selected) + RemoveSelected(b, selected)
  {
    if a == [] {
      assert a + b == b;
    } else {
      assert (a + b)[0] == a[0] && (a + b)[1..] == a[1..] + b;
      RemoveSelectedAppend(a[1..], b, selected);
      assert RemoveSelected(a + b, selected) == (if a[0].id in selected then [] else [a[0]]) + RemoveSelected(a[1..] + b, selected);
    }
  }

  /** The numbers a bulk delete sends, one per selected id. */
  function CertificateNumbers(ids: seq<string>): (r: seq<Option<string>>)
    ensures |r| == |ids|
    ensures forall i | 0 <= i < |ids| :: r[i] == CertificateNumber(ids[i])
  {
    seq(|ids|, i requires 0 <= i < |ids| => CertificateNumber(ids[i]))
  }

  /** Whether the first `n` delete requests all succeed. */
  predicate AllSucceed(succeeds: nat -> bool, n: nat) {
    forall j: nat | j < n :: succeeds(j)
  }

  /**
   * What `fetchCertificates` requests and shows for the query `query`: a blank query
   * requests nothing and shows no rows; otherwise the name search runs with the trimmed
   * term, the serial search runs too when that term has a digit, and the rows are the
   * merged records mapped for display.
   */
  predicate FetchShows(query: string, now: int, byName: Result<Body, ApiError>, bySerial: Result<Body, ApiError>,
                       rows: seq<UiCertificate>, nameSearch: Option<string>, serialSearch: Option<string>)
  {
    var term := Trim(query);
    && (term == [] ==> rows == [] && nameSearch == None && serialSearch == None)
    && (term != [] ==> nameSearch == Some(term))
    && (term != [] ==> serialSearch == (if HasDigit(term) then nameSearch else None))
    && (term != [] ==> rows == ToUiAll(SearchRecords(term, byName, bySerial), now))
  }

  /** The body of `fetchCertificates` after its flags are set. */
  method FetchRows(query: string, now: int, byName: Result<Body, ApiError>, bySerial: Result<Body, ApiError>)
    returns (rows: seq<UiCertificate>, nameSearch: Option<string>, serialSearch: Option<string>)
    ensures FetchShows(query, now, byName, bySerial, rows, nameSearch, serialSearch)
  {
    var searchTerm := Trim(query);
    if searchTerm == [] {
      return [], None, None;
    }
    nameSearch := Some(searchTerm);
    rows, serialSearch := SearchRows(searchTerm, now, byName, bySerial);
  }

  /**
   * The two awaited searches for a non-blank term: the name results when there are any,
   * then the serial results with a new id when the term has a digit; the rows are those
   * records mapped for display, or none when there are no records.
   */
  method SearchRows(searchTerm: string, now: int, byName: Result<Body, ApiError>, bySerial: Result<Body, ApiError>)
    returns (rows: seq<UiCertificate>, serialSearch: Option<string>)
    ensures rows == ToUiAll(SearchRecords(searchTerm, byName, bySerial), now)
    ensures serialSearch == if HasDigit(searchTerm) then Some(searchTerm) else None
  {
    var data := [];
    var nameResults := ResultItems(byName);
    if nameResults != [] {
      data := nameResults;
    }
    serialSearch := None;
    if HasDigit(searchTerm) {
      serialSearch := Some(searchTerm);
      var serialResults := ResultItems(bySerial);
      if serialResults != [] {
        data := AppendNew(data, serialResults);
      } else {
        assert KeepNew(serialResults, Ids(data)) == [];
      }
    } else {
      assert KeepNew([], Ids(data)) == [];
    }
    assert data == SearchRecords(searchTerm, byName, bySerial);
    if data == [] {
      rows := [];
      assert rows == ToUiAll(data, now);
      return;
    }
    rows := ToUiAll(data, now);
  }

  /** The toast after a single delete succeeded. */
  function DeletedNotice(id: string): Notice {
    Notice("Certificate Deleted", "Certificate " + id + " has been successfully deleted.", None)
  }

  /** The toast after a single delete failed. */
  const DELETE_FAILED := Notice("Error", "Failed to delete certificate. Please try again.", Some("destructive"))

  /** The toast after every delete of a bulk delete of `n` certificates succeeded. */
  function BulkDeletedNotice(n: nat): Notice {
    Notice("Certificates Deleted", NatToString(n) + " certificate(s) successfully deleted.", None)
  }

  /** The toast after a delete of a bulk delete failed. */
  const BULK_DELETE_FAILED := Notice("Error", "Failed to delete some certificates. Please try again.", Some("destructive"))

  class CertificatesPage {
    var certificates: seq<UiCertificate>
    var loading: bool
    var searchQuery: string
    var selected: seq<string>
    var apiError: Option<string>
    var hasSearched: bool

    constructor ()
      ensures certificates == [] && !loading && searchQuery == "" && selected == []
      ensures apiError == None && !hasSearched
    {
      certificates, loading, searchQuery, selected, apiError, hasSearched := [], false, "", [], None, false;
    }

    /** `filteredCertificates` */
    function FilteredCertificates(): seq<UiCertificate>
      reads this
    {
      Filtered(certificates, searchQuery)
    }

    /** The search box's `onChange`. */
    method SetSearchQuery(value: string)
      modifies this
      ensures searchQuery == value
      ensures certificates == old(certificates) && selected == old(selected)
      ensures loading == old(loading) && apiError == old(apiError) && hasSearched == old(hasSearched)
    {
      searchQuery := value;
    }

    /**
     * `fetchCertificates`: a blank query clears the list and calls nothing; otherwise the name
     * search runs with the trimmed term, the serial search runs too when that term has a
     * digit, and the merged records become the rows.
     */
    method FetchCertificates(now: int, byName: Result<Body, ApiError>, bySerial: Result<Body, ApiError>)
      returns (nameSearch: Option<string>, serialSearch: Option<string>)
      modifies this
      ensures FetchShows(old(searchQuery), now, byName, bySerial, certificates, nameSearch, serialSearch)
      ensures !loading && hasSearched && apiError == None
      ensures searchQuery == old(searchQuery) && selected == old(selected)
    {
      var rows;
      rows, nameSearch, serialSearch := FetchRows(searchQuery, now, byName, bySerial);
      certificates, loading, apiError, hasSearched := rows, false, None, true;
    }

    /** `handleSelectAll(checked)`: exactly the ids of the filtered rows, or nothing. */
    method SelectAll(checked: bool)
      modifies this
      ensures selected == if checked then IdsOf(Filtered(old(certificates), old(searchQuery))) else []
      ensures certificates == old(certificates) && searchQuery == old(searchQuery)
      ensures loading == old(loading) && apiError == old(apiError) && hasSearched == old(hasSearched)
    {
      if checked {
        selected := IdsOf(FilteredCertificates());
      } else {
        selected := [];
      }
    }

    /** `handleSelectCertificate(id, checked)`: append the id, or remove all its occurrences. */
    method SelectCertificate(id: string, checked: bool)
      modifies this
      ensures selected == if checked then old(selected) + [id] else Without(old(selected), id)
      ensures certificates == old(certificates) && searchQuery == old(searchQuery)
      ensures loading == old(loading) && apiError == old(apiError) && hasSearched == old(hasSearched)
    {
      if checked {
        selected := selected + [id];
      } else {
        selected := Without(selected, id);
      }
    }

    /**
     * `handleDeleteCertificate(id)`: the delete is requested with the second field of the id;
     * only when it succeeds does the row leave the list and the selection.
     */
    method DeleteCertificate(id: string, deleted: bool) returns (requested: Option<string>, notice: Notice)
      modifies this
      ensures requested == CertificateNumber(id)
      ensures deleted ==> certificates == RemoveCertificate(old(certificates), id) && selected == Without(old(selected), id)
      ensures deleted ==> notice == DeletedNotice(id)
      ensures !deleted ==> certificates == old(certificates) && selected == old(selected)
      ensures !deleted ==> notice == DELETE_FAILED
      ensures searchQuery == old(searchQuery)
      ensures loading == old(loading) && apiError == old(apiError) && hasSearched == old(hasSearched)
    {
      requested := CertificateNumber(id);
      if deleted {
        notice := DeletedNotice(id);
        certificates := RemoveCertificate(certificates, id);
        selected := Without(selected, id);
      } else {
        notice := DELETE_FAILED;
      }
    }

    /**
     * `handleBulkDelete`: nothing at all for an empty selection. Otherwise the selected ids
     * are deleted one after the other (`succeeds(j)` is the outcome of the j-th request) and
     * the first failure stops the loop; the list and the selection change only when every
     * request succeeded, even though the requests before a failure did delete remotely.
     */
    method BulkDelete(succeeds: nat -> bool) returns (requested: seq<Option<string>>, notice: Option<Notice>)
      modifies this
      ensures old(selected) == [] ==> requested == [] && notice == None
      ensures old(selected) != [] && AllSucceed(succeeds, |old(selected)|) ==>
                && requested == CertificateNumbers(old(selected))
                && certificates == RemoveSelected(old(certificates), old(selected))
                && selected == []
                && notice == Some(BulkDeletedNotice(|old(selected)|))
      ensures old(selected) == [] || !AllSucceed(succeeds, |old(selected)|) ==>
                certificates == old(certificates) && selected == old(selected)
      ensures !AllSucceed(succeeds, |old(selected)|) ==>
                && FailedAt(old(selected), succeeds, requested)
                && notice == Some(BULK_DELETE_FAILED)
      ensures searchQuery == old(searchQuery)
      ensures loading == old(loading) && apiError == old(apiError) && hasSearched == old(hasSearched)
    {
      var ids := selected;
      if |ids| == 0 {
        return [], None;
      }
      var allDeleted;
      requested, allDeleted := DeleteEach(ids, succeeds);
      if !allDeleted {
        notice := Some(BULK_DELETE_FAILED);
        return;
      }
      notice := Some(BulkDeletedNotice(|ids|));
      certificates, selected := RemoveSelected(certificates, ids), [];
    }
  }

  /**
   * The requests of a bulk delete that stopped at a failure: the numbers of a non-empty
   * prefix of `ids`, all of whose requests but the last succeeded.
   */
  predicate FailedAt(ids: seq<string>, succeeds: nat -> bool, requested: seq<Option<string>>) {
    && 0 < |requested| <= |ids|
    && requested == CertificateNumbers(ids[..|requested|])
    && AllSucceed(succeeds, |requested| - 1) && !succeeds(|requested| - 1)
  }

  /**
   * The `for ... of` loop of `handleBulkDelete`: one awaited delete per id, in order,
   * stopping at the first that fails.
   */
  method DeleteEach(ids: seq<string>, succeeds: nat -> bool) returns (requested: seq<Option<string>>, allDeleted: bool)
    ensures allDeleted <==> AllSucceed(succeeds, |ids|)
    ensures allDeleted ==> requested == CertificateNumbers(ids)
    ensures !allDeleted ==> FailedAt(ids, succeeds, requested)
  {
    requested := [];
    var i := 0;
    while i < |ids|
      invariant 0 <= i <= |ids|
      invariant requested == CertificateNumbers(ids[..i])
      invariant AllSucceed(succeeds, i)
    {
      requested := requested + [CertificateNumber(ids[i])];
      assert ids[..i + 1] == ids[..i] + [ids[i]];
      if !succeeds(i) {
        return requested, false;
      }
      i := i + 1;
    }
    assert ids[..i] == ids;
    allDeleted := true;
  }
}
