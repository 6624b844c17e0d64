/**
 * The student-account page (src/app/editstudent/editstudent.page.ts): the
 * account search, the record `signup` saves, and the form fields `sendEmail`
 * clears.
 */
module EditStudent {
  import opened Wrappers
  import opened Text
  import opened Sequences
  import opened Mail

  /** An account as the `users` listing delivers it; `status` is the optional `Status` field. */
  datatype ListedAccount = ListedAccount(
    id: Option<string>,
    displayName: string,
    email: string,
    password: string,
    status: Option<string>)

  /**
   * The `filterList` callback on one account, as written: display name, then
   * `Status`, then e-mail. Reading `Status.toLowerCase()` on an account with
   * no `Status` throws, which is `None` here.
   */
  function AccountMatchesAsWritten(a: ListedAccount, term: string): Option<bool>
  {
    if MatchesIgnoringCase(a.displayName, term) then Some(true)
    else if a.status.None? then None
    else Some(MatchesIgnoringCase(a.status.value, term) || MatchesIgnoringCase(a.email, term))
  }

  /** `accounts.filter(...)` as written: `None` when the callback throws on some account. */
  function FilterAccountsAsWritten(accounts: seq<ListedAccount>, term: string): (r: Option<seq<ListedAccount>>)
    ensures r.Some? ==> |r.value| <= |accounts|
    ensures r.Some? ==> forall x :: x in r.value ==> x in accounts
    ensures accounts == [] ==> r == Some([])
  {
    if accounts == [] then Some([])
    else
      match AccountMatchesAsWritten(accounts[0], term)
      case None => None
      case Some(keep) =>
        match FilterAccountsAsWritten(accounts[1..], term)
        case None => None
        case Some(rest) => Some(if keep then [accounts[0]] + rest else rest)
  }

  /** The intended test: the term occurs, ignoring case, in the display name, the `Status` when there is one, or the e-mail. */
  function AccountTest(term: string): ListedAccount -> bool
  {
    (a: ListedAccount) =>
      MatchesIgnoringCase(a.displayName, term)
      || (a.status.Some? && MatchesIgnoringCase(a.status.value, term))
      || MatchesIgnoringCase(a.email, term)
  }

  /** What `filterList` shows for a freshly fetched listing: all of it for an empty term, else the matching accounts. */
  function FilteredAccounts(fetched: seq<ListedAccount>, term: string): (r: seq<ListedAccount>)
    ensures IsSubsequence(r, fetched)
    ensures term == "" ==> r == fetched
  {
    if term == "" then
      SubsequenceReflexive(fetched);
      fetched
    else
      FilterIsSubsequence(fetched, AccountTest(term));
      Filter(fetched, AccountTest(term))
  }

  /** For a non-empty term, an account is shown exactly when the term occurs in one of its three fields. */
  lemma FilteredAccountsMembership(fetched: seq<ListedAccount>, term: string, x: ListedAccount)
    requires term != ""
    ensures x in FilteredAccounts(fetched, term) <==>
      && x in fetched
      && (MatchesIgnoringCase(x.displayName, term)
          || (x.status.Some? && MatchesIgnoringCase(x.status.value, term))
          || MatchesIgnoringCase(x.email, term))
  {
    FilterMembership(fetched, AccountTest(term), x);
  }

  /** The code as written throws exactly when some account has no `Status` and its display name does not match. */
  lemma {:induction false} AsWrittenThrowsIff(accounts: seq<ListedAccount>, term: string)
    ensures FilterAccountsAsWritten(accounts, term).None? <==>
      exists i :: 0 <= i < |accounts| && accounts[i].status.None? && !MatchesIgnoringCase(accounts[i].displayName, term)
  {
    if accounts != [] {
      AsWrittenThrowsIff(accounts[1..], term);
      if FilterAccountsAsWritten(accounts[1..], term).None? {
        var j :| 0 <= j < |accounts[1..]| && accounts[1..][j].status.None? && !MatchesIgnoringCase(accounts[1..][j].displayName, term);
        assert accounts[j + 1] == accounts[1..][j];
      }
      if exists i :: 0 <= i < |accounts| && accounts[i].status.None? && !MatchesIgnoringCase(accounts[i].displayName, term) {
        var i :| 0 <= i < |accounts| && accounts[i].status.None? && !MatchesIgnoringCase(accounts[i].displayName, term);
        if i > 0 {
          assert accounts[1..][i - 1] == accounts[i];
        }
      }
    }
  }

  /** Where the code as written does not throw, it shows what the intended test shows. */
  lemma {:induction false} AsWrittenAgreesWhenItReturns(accounts: seq<ListedAccount>, term: string)
    requires FilterAccountsAsWritten(accounts, term).Some?
    ensures FilterAccountsAsWritten(accounts, term).value == Filter(accounts, AccountTest(term))
  {
    if accounts != [] {
      AsWrittenAgreesWhenItReturns(accounts[1..], term);
    }
  }

  /**
   * An account saved without `Status` (as `signup` does when the form's status
   * is empty) whose name does not match makes the search throw, so the list is
   * not updated; the intended test simply leaves that account out.
   */
  lemma MissingStatusThrows()
    ensures var accounts := [ListedAccount(None, "ana", "a@b", "pw", None)];
      && FilterAccountsAsWritten(accounts, "x") == None
      && FilteredAccounts(accounts, "x") == []
  {
  }

  /** A form field's value: unset, a string, or a boolean. */
  datatype Value = Undefined | Str(s: string) | Flag(b: bool)

  /** JavaScript truthiness of a form value. */
  predicate Truthy(v: Value)
  {
    match v
    case Undefined => false
    case Str(s) => s != ""
    case Flag(b) => b
  }

  /** The fields every saved account record has. */
  const SignupFields: set<string> := {"email", "password", "displayName", "isAdmin", "uid"}

  /**
   * The record `signup` saves: the four form fields and the new user's id,
   * plus `Status` exactly when the form's status is truthy.
   */
  function SignupRecord(email: Value, password: Value, displayName: Value, isAdmin: Value, status: Value, uid: string)
    : (data: map<string, Value>)
    ensures data.Keys == SignupFields + (if Truthy(status) then {"Status"} else {})
    ensures "Status" in data <==> Truthy(status)
    ensures data["email"] == email && data["password"] == password
    ensures data["displayName"] == displayName && data["isAdmin"] == isAdmin
    ensures data["uid"] == Str(uid)
    ensures "Status" in data ==> data["Status"] == status
  {
    var data := map["email" := email, "password" := password, "displayName" := displayName,
                    "isAdmin" := isAdmin, "uid" := Str(uid)];
    if Truthy(status) then data["Status" := status] else data
  }

  /** The page's state. */
  class EditstudentPage {
    var email: Value
    var password: Value
    var displayName: Value
    var isAdmin: Value
    var status: Value
    var searchTerm: string
    var accounts: seq<ListedAccount>
    var fromName: string
    var initialFromName: string
    var toEmail: string
    var subject: string
    var message: string

    constructor ()
      ensures fromName == SchoolName && initialFromName == fromName
      ensures accounts == [] && searchTerm == ""
      ensures toEmail == "" && subject == "" && message == ""
      ensures email == password == displayName == isAdmin == status == Undefined
    {
      email, password, displayName, isAdmin, status := Undefined, Undefined, Undefined, Undefined, Undefined;
      searchTerm := "";
      accounts := [];
      fromName := SchoolName;
      initialFromName := SchoolName;
      toEmail, subject, message := "", "", "";
    }

    /**
     * `filterList`, once the fresh account listing `fetched` arrives: each
     * search starts from the full listing. The callback runs as written; when it
     * throws, the assignment is skipped and the list stays as it was. When it
     * does not, the list is what the intended test shows.
     */
    method FilterList(fetched: seq<ListedAccount>)
      modifies this`accounts
      ensures searchTerm == "" ==> accounts == fetched
      ensures searchTerm != "" && FilterAccountsAsWritten(fetched, searchTerm).Some? ==>
        accounts == FilterAccountsAsWritten(fetched, searchTerm).value == FilteredAccounts(fetched, searchTerm)
      ensures searchTerm != "" && FilterAccountsAsWritten(fetched, searchTerm).None? ==>
        accounts == old(accounts)
    {
      if searchTerm == "" {
        accounts := fetched;
      } else {
        match FilterAccountsAsWritten(fetched, searchTerm)
        case Some(shown) =>
          AsWrittenAgreesWhenItReturns(fetched, searchTerm);
          accounts := shown;
        case None =>
      }
    }

    /**
     * `signup`: when creating the user yields a non-empty id, the record built
     * from the form and that id is saved; otherwise nothing is.
     */
    method Signup(createdUid: Option<string>) returns (saved: Option<map<string, Value>>)
      ensures saved.Some? <==> createdUid.Some? && createdUid.value != ""
      ensures saved.Some? ==> saved.value == SignupRecord(email, password, displayName, isAdmin, status, createdUid.value)
    {
      if createdUid.Some? && createdUid.value != "" {
        saved := Some(SignupRecord(email, password, displayName, isAdmin, status, createdUid.value));
      } else {
        saved := None;
      }
    }

    /** `sendEmail`: the mail goes out with the current fields, which are cleared once it is sent. */
    method SendEmail(sent: bool) returns (mail: Email)
      modifies this`toEmail, this`message, this`fromName
      ensures mail == Email(old(toEmail), old(message), old(fromName))
      ensures sent ==> toEmail == "" && message == "" && fromName == ""
      ensures !sent ==> toEmail == old(toEmail) && message == old(message) && fromName == old(fromName)
    {
      mail := Email(toEmail, message, fromName);
      if sent {
        toEmail, message, fromName := "", "", "";
      }
    }
  }
}
