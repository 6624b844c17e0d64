/**
 * The approval page (src/app/approval/approval.page.ts): the list of Form 137
 * requests it shows, its two searches, and the local list updates after an
 * edit or a delete.
 */
module Approval {
  import opened Wrappers
  import opened Text
  import opened Sequences
  import Service
  import opened Mail

  /** The only document type the page lists. */
  const Form137: string := "Form 137"

  /** A request as the listing delivers it: the stored fields, its key when the listing carries one, and its date. */
  datatype ListedRequest = ListedRequest(
    id: Option<string>,
    student_name: string,
    document_type: string,
    status: string,
    student_id: string,
    email: string,
    request_date: string)

  /** JavaScript truthiness of an optional string: set and not empty. */
  predicate Truthy(s: Option<string>)
  {
    s.Some? && s.value != ""
  }

  predicate IsForm137(r: ListedRequest)
  {
    r.document_type == Form137
  }

  /** The test `searchItems` applies for a non-empty search text. */
  function SearchTest(text: string): ListedRequest -> bool
  {
    (r: ListedRequest) => IsForm137(r)
      && (MatchesIgnoringCase(r.student_name, text)
          || MatchesIgnoringCase(r.status, text)
          || MatchesIgnoringCase(r.request_date, text))
  }

  /** What `searchItems` shows for the freshly fetched list. */
  function SearchResults(text: Option<string>, fetched: seq<ListedRequest>): (r: seq<ListedRequest>)
    ensures IsSubsequence(r, fetched)
    ensures forall x :: x in r ==> IsForm137(x)
  {
    var keep := if Truthy(text) then SearchTest(text.value) else IsForm137;
    FilterIsSubsequence(fetched, keep);
    Filter(fetched, keep)
  }

  /**
   * `searchItems` keeps a fetched request exactly when it is a Form 137 request
   * and, if the search text is set, the text occurs, ignoring case, in its
   * student name, status or request date.
   */
  lemma SearchResultsMembership(text: Option<string>, fetched: seq<ListedRequest>, x: ListedRequest)
    ensures x in SearchResults(text, fetched) <==>
      && x in fetched
      && IsForm137(x)
      && (!Truthy(text)
          || MatchesIgnoringCase(x.student_name, text.value)
          || MatchesIgnoringCase(x.status, text.value)
          || MatchesIgnoringCase(x.request_date, text.value))
  {
    FilterMembership(fetched, if Truthy(text) then SearchTest(text.value) else IsForm137, x);
  }

  /** With no search text, `searchItems` shows every Form 137 request and only those, as the page first does. */
  lemma SearchWithoutTextIsForm137List(fetched: seq<ListedRequest>)
    ensures SearchResults(None, fetched) == SearchResults(Some(""), fetched) == Filter(fetched, IsForm137)
  {
  }

  /** The test `filterList` applies for a non-empty term; it does not look at the request date. */
  function NarrowTest(term: string): ListedRequest -> bool
  {
    (r: ListedRequest) => r.student_name != ""
      && (IndexOf(Lower(r.student_name), Lower(term)) > -1
          || IndexOf(Lower(r.status), Lower(term)) > -1
          || IndexOf(Lower(r.document_type), Lower(term)) > -1)
  }

  /** What `filterList` leaves of the current list: all of it for an empty term, else the matching entries. */
  function Narrowed(current: seq<ListedRequest>, term: Option<string>): (r: seq<ListedRequest>)
    ensures IsSubsequence(r, current)
    ensures !Truthy(term) ==> r == current
  {
    if !Truthy(term) then
      SubsequenceReflexive(current);
      current
    else
      FilterIsSubsequence(current, NarrowTest(term.value));
      Filter(current, NarrowTest(term.value))
  }

  /**
   * For a non-empty term, `filterList` keeps an entry exactly when its student
   * name is not empty and the term occurs, ignoring case, in its name, status
   * or document type.
   */
  lemma NarrowedMembership(current: seq<ListedRequest>, term: string, x: ListedRequest)
    requires term != ""
    ensures x in Narrowed(current, Some(term)) <==>
      && x in current
      && x.student_name != ""
      && (MatchesIgnoringCase(x.student_name, term)
          || MatchesIgnoringCase(x.status, term)
          || MatchesIgnoringCase(x.document_type, term))
  {
    FilterMembership(current, NarrowTest(term), x);
  }

  /** `filterList` never looks at the request date. */
  lemma NarrowIgnoresRequestDate(term: string, x: ListedRequest, date: string)
    ensures NarrowTest(term)(x) == NarrowTest(term)(x.(request_date := date))
  {
  }

  /**
   * `filterList` narrows what is already shown: two calls in a row keep a
   * subsequence of the list before the first, holding the entries both terms match.
   */
  lemma {:induction false} NarrowedTwice(current: seq<ListedRequest>, first: string, second: string, x: ListedRequest)
    requires first != "" && second != ""
    ensures IsSubsequence(Narrowed(Narrowed(current, Some(first)), Some(second)), current)
    ensures x in Narrowed(Narrowed(current, Some(first)), Some(second)) <==>
      x in current && NarrowTest(first)(x) && NarrowTest(second)(x)
  {
    FilterTwice(current, NarrowTest(first), NarrowTest(second));
    FilterIsSubsequence(current, Both(NarrowTest(first), NarrowTest(second)));
    FilterMembership(current, Both(NarrowTest(first), NarrowTest(second)), x);
  }

  /**
   * Because `filterList` also matches the document type, a term that occurs in
   * "form 137" keeps every named entry of a Form 137 list.
   */
  lemma {:induction false} NarrowByDocumentTypeKeepsAll(current: seq<ListedRequest>, term: string)
    requires term != "" && Contains(Lower(Form137), Lower(term))
    requires forall i :: 0 <= i < |current| ==> IsForm137(current[i]) && current[i].student_name != ""
    ensures Narrowed(current, Some(term)) == current
  {
    FilterAllPass(current, NarrowTest(term));
  }

  /** The entries whose key is not `id`; entries without a key are kept. */
  function WithoutId(current: seq<ListedRequest>, id: string): (r: seq<ListedRequest>)
    ensures IsSubsequence(r, current)
    ensures forall x :: x in r ==> x.id != Some(id)
  {
    FilterIsSubsequence(current, (x: ListedRequest) => x.id != Some(id));
    Filter(current, (x: ListedRequest) => x.id != Some(id))
  }

  /** After a delete, every entry with another key (or none) is still shown. */
  lemma WithoutIdKeepsOthers(current: seq<ListedRequest>, id: string, x: ListedRequest)
    ensures x in WithoutId(current, id) <==> x in current && x.id != Some(id)
  {
    FilterMembership(current, (x: ListedRequest) => x.id != Some(id), x);
  }

  /** The record `editItem` adds to the `logs` collection. */
  datatype LogRecord = LogRecord(itemId: string, updatedData: Service.Document, timestamp: string)

  /** The page's list state. */
  class ApprovalPage {
    var fromName: string
    var initialFromName: string
    var requests: seq<ListedRequest>
    var searchText: Option<string>

    constructor ()
      ensures fromName == SchoolName && initialFromName == fromName
      ensures requests == [] && searchText == None
    {
      fromName := SchoolName;
      initialFromName := SchoolName;
      requests := [];
      searchText := None;
    }

    /** The request listing arrives (constructor and `ngOnInit`): only Form 137 requests are shown. */
    method OnRequests(fetched: seq<ListedRequest>)
      modifies this`requests
      ensures requests == Filter(fetched, IsForm137)
    {
      requests := Filter(fetched, IsForm137);
    }

    /** `searchItems`, once the fresh listing `fetched` arrives. */
    method SearchItems(fetched: seq<ListedRequest>)
      modifies this`requests
      ensures requests == SearchResults(searchText, fetched)
    {
      if !Truthy(searchText) {
        requests := Filter(fetched, IsForm137);
      } else {
        requests := Filter(fetched, SearchTest(searchText.value));
      }
    }

    /** `filterList` with the input's value `term`: an empty term returns at once, else the shown list narrows. */
    method FilterList(term: Option<string>)
      modifies this`requests
      ensures requests == Narrowed(old(requests), term)
    {
      if !Truthy(term) {
        return;
      }
      requests := Filter(requests, NarrowTest(term.value));
    }

    /**
     * `editItem`: when the update succeeds, the page shows the whole re-fetched
     * listing (no Form 137 restriction) and logs the id and the patch at `now`.
     */
    method EditItem(id: string, newData: Service.Document, updated: bool, refetched: seq<ListedRequest>, now: string)
      returns (log: Option<LogRecord>)
      modifies this`requests
      ensures updated ==> requests == refetched && log == Some(LogRecord(id, newData, now))
      ensures !updated ==> requests == old(requests) && log == None
    {
      if updated {
        requests := refetched;
        log := Some(LogRecord(id, newData, now));
      } else {
        log := None;
      }
    }

    /** `deleteItem`: once the user confirms and the delete succeeds, the entries keyed `id` leave the list. */
    method DeleteItem(id: string, confirmed: bool, deleted: bool)
      modifies this`requests
      ensures confirmed && deleted ==> requests == WithoutId(old(requests), id)
      ensures !(confirmed && deleted) ==> requests == old(requests)
    {
      if confirmed && deleted {
        requests := Filter(requests, (x: ListedRequest) => x.id != Some(id));
      }
    }
  }
}
