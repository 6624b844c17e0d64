/**
 * The completion page (src/app/completion/completion.page.ts): the listing of
 * the completion folder, its name search, the path a delete targets, and the
 * upload of the selected file to the folder and to a dated backup folder.
 */
module Completion {
  import opened Wrappers
  import opened Text
  import opened Sequences
  import opened Service

  /** The folder the page lists and deletes from. */
  const CompletionFolder: string := "/Completion"

  /** The folder `uploadFile` uploads to first. */
  const UploadFolder: string := "Completion"

  /** The path `deleteItem` deletes: the folder, a slash, the entry's name. */
  function DeletePath(folder: string, name: string): (r: string)
    ensures |r| == |folder| + 1 + |name|
    ensures r[..|folder|] == folder && r[|folder|] == '/' && r[|folder| + 1..] == name
  {
    folder + "/" + name
  }

  /** The last segment of a path: what follows its last '/', or all of it when it has none. */
  function NameOf(path: string): (r: string)
    ensures '/' !in r
    ensures |r| <= |path| && r == path[|path| - |r|..]
    ensures |r| < |path| ==> path[|path| - |r| - 1] == '/'
  {
    if path == [] || path[|path| - 1] == '/' then []
    else NameOf(path[..|path| - 1]) + [path[|path| - 1]]
  }

  /** The folder part of a path: what precedes its last '/', or nothing when it has none. */
  function DirOf(path: string): string
  {
    var name := NameOf(path);
    if |name| < |path| then path[..|path| - |name| - 1] else ""
  }

  /** A delete path splits back into the folder and the name it was built from. */
  lemma {:induction false} DeletePathSplits(folder: string, name: string)
    requires '/' !in name
    ensures NameOf(DeletePath(folder, name)) == name
    ensures DirOf(DeletePath(folder, name)) == folder
  {
    if name != [] {
      var front := name[..|name| - 1];
      DeletePathSplits(folder, front);
      assert DeletePath(folder, name)[..|DeletePath(folder, name)| - 1] == DeletePath(folder, front);
      assert name == front + [name[|name| - 1]];
    }
  }

  /** The backup folder `uploadFile` builds from an ISO timestamp: "backups/", its date part, "/". */
  function BackupFolder(isoNow: string): (r: string)
    ensures |r| >= 9 && r[..8] == "backups/" && r[|r| - 1] == '/'
    ensures 'T' !in r[8..|r| - 1] && r[8..|r| - 1] <= isoNow
    ensures |r| - 9 < |isoNow| ==> isoNow[|r| - 9] == 'T'
  {
    "backups/" + BeforeFirst(isoNow, 'T') + "/"
  }

  /** For a timestamp `date` + "T" + `time`, the backup folder is "backups/" + `date` + "/". */
  lemma BackupFolderOfTimestamp(date: string, time: string)
    requires 'T' !in date
    ensures BackupFolder(date + "T" + time) == "backups/" + date + "/"
  {
    BeforeFirstOfJoin(date, 'T', time);
  }

  /** The test `filterContents` applies: the untrimmed text occurs in the name, ignoring case. */
  function NameTest(text: string): Entry -> bool
  {
    (e: Entry) => MatchesIgnoringCase(e.name, text)
  }

  /** What `filterContents` shows: a copy of the listing for blank text, else the entries whose name matches. */
  function FilteredContents(contents: seq<Entry>, text: string): (r: seq<Entry>)
    ensures IsSubsequence(r, contents)
    ensures Trim(text) == "" ==> r == contents
  {
    if Trim(text) == "" then
      SubsequenceReflexive(contents);
      contents
    else
      FilterIsSubsequence(contents, NameTest(text));
      Filter(contents, NameTest(text))
  }

  /** For text that is not blank, an entry is shown exactly when the text occurs in its name, ignoring case. */
  lemma FilteredContentsMembership(contents: seq<Entry>, text: string, x: Entry)
    requires Trim(text) != ""
    ensures x in FilteredContents(contents, text) <==> x in contents && MatchesIgnoringCase(x.name, text)
  {
    FilterMembership(contents, NameTest(text), x);
  }

  /** Text made only of white space shows the whole listing. */
  lemma BlankTextShowsAll(contents: seq<Entry>, text: string)
    requires forall i :: 0 <= i < |text| ==> IsTrimmable(text[i])
    ensures FilteredContents(contents, text) == contents
  {
  }

  /**
   * Trimming decides only whether the text is blank: the spaces around a term
   * take part in the match, so " a" misses "a.pdf" although "a" finds it.
   */
  lemma UntrimmedTextTakesPart()
    ensures FilteredContents([Entry("a.pdf", "u")], " a") == []
    ensures FilteredContents([Entry("a.pdf", "u")], "a") == [Entry("a.pdf", "u")]
  {
    var e := Entry("a.pdf", "u");
    assert !IsTrimmable(" a"[1]);
    TrimEmptyIffBlank(" a");
    assert !IsTrimmable("a"[0]);
    TrimEmptyIffBlank("a");
    LowerOfLowerCase("a.pdf");
    LowerOfLowerCase(" a");
    LowerOfLowerCase("a");
    assert Lower(" a") == " a" && Lower("a") == "a" && Lower("a.pdf") == "a.pdf";
    MissingCharNotContained("a.pdf", " a", 0);
    assert !NameTest(" a")(e);
    assert OccursAt("a.pdf", "a", 0);
    assert NameTest("a")(e);
  }

  /** An upload handed to the upload service: the selected file and the destination folder. */
  datatype UploadRequest = UploadRequest(file: string, destination: string)

  /** How an upload ends: with a download URL, or with an error. */
  datatype UploadOutcome = Uploaded(url: string) | UploadFailed

  /** The page's state. */
  class CompletionPage {
    var selectedFile: Option<string>
    var uploadProgress: Option<int>
    var downloadURL: Option<string>
    var folderPath: string
    var contents: seq<Entry>
    var searchText: string
    var filteredContents: seq<Entry>

    constructor ()
      ensures selectedFile == None && uploadProgress == None && downloadURL == None
      ensures folderPath == CompletionFolder && searchText == ""
      ensures contents == [] && filteredContents == []
    {
      selectedFile, uploadProgress, downloadURL := None, None, None;
      folderPath := CompletionFolder;
      searchText := "";
      contents, filteredContents := [], [];
    }

    /**
     * `upload`: without a selected file nothing happens; otherwise the file
     * goes to `destination`, a URL it yields becomes `downloadURL`, and the
     * progress is cleared however the upload ends.
     */
    method Upload(destination: string, outcome: UploadOutcome) returns (sent: Option<UploadRequest>)
      modifies this`downloadURL, this`uploadProgress
      ensures selectedFile.None? ==> sent == None && downloadURL == old(downloadURL) && uploadProgress == old(uploadProgress)
      ensures selectedFile.Some? ==> sent == Some(UploadRequest(selectedFile.value, destination)) && uploadProgress == None
      ensures selectedFile.Some? && outcome.Uploaded? ==> downloadURL == Some(outcome.url)
      ensures outcome.UploadFailed? ==> downloadURL == old(downloadURL)
    {
      sent := None;
      if selectedFile.Some? {
        sent := Some(UploadRequest(selectedFile.value, destination));
        match outcome
        case Uploaded(url) =>
          downloadURL := Some(url);
          uploadProgress := None;
        case UploadFailed =>
          uploadProgress := None;
      }
    }

    /**
     * `uploadFile`: upload to "Completion", then to the backup folder dated by
     * `isoNow`; the two outcomes are taken in that order.
     */
    method UploadFile(isoNow: string, first: UploadOutcome, second: UploadOutcome) returns (sent: seq<UploadRequest>)
      modifies this`downloadURL, this`uploadProgress
      ensures selectedFile.None? ==> sent == [] && downloadURL == old(downloadURL) && uploadProgress == old(uploadProgress)
      ensures selectedFile.Some? ==> sent == [UploadRequest(selectedFile.value, UploadFolder),
                                              UploadRequest(selectedFile.value, BackupFolder(isoNow))]
      ensures selectedFile.Some? ==> uploadProgress == None
      ensures selectedFile.Some? ==>
                downloadURL == (if second.Uploaded? then Some(second.url)
                                else if first.Uploaded? then Some(first.url)
                                else old(downloadURL))
    {
      var toFolder := Upload(UploadFolder, first);
      var backupFolder := BackupFolder(isoNow);
      var toBackup := Upload(backupFolder, second);
      sent := if toFolder.Some? then [toFolder.value, toBackup.value] else [];
    }

    /** A folder listing arrives: both the listing and the shown list become it. */
    method OnFolderContents(data: seq<Entry>)
      modifies this`contents, this`filteredContents
      ensures contents == data && filteredContents == data
    {
      contents := data;
      filteredContents := data;
    }

    /** `getFolderContents`: a successful listing replaces both lists; a failed one changes nothing. */
    method GetFolderContents(listing: Option<seq<string>>, urls: seq<Option<string>>)
      requires listing.Some? ==> |urls| == |listing.value|
      modifies this`contents, this`filteredContents
      ensures Service.GetFolderContents(listing, urls).Success? ==>
        contents == filteredContents == Service.GetFolderContents(listing, urls).value
      ensures Service.GetFolderContents(listing, urls).Failure? ==>
        contents == old(contents) && filteredContents == old(filteredContents)
    {
      var result := Service.GetFolderContents(listing, urls);
      if result.Success? {
        OnFolderContents(result.value);
      }
    }

    /** `filterContents`. */
    method FilterContents()
      modifies this`filteredContents
      ensures filteredContents == FilteredContents(contents, searchText)
    {
      if Trim(searchText) == "" {
        filteredContents := contents;
      } else {
        filteredContents := Filter(contents, NameTest(searchText));
      }
    }

    /** `deleteItem`: the path handed to the file store, when the user confirms. */
    method DeleteItem(item: Entry, confirmed: bool) returns (target: Option<string>)
      ensures confirmed ==> target == Some(DeletePath(folderPath, item.name))
      ensures confirmed && '/' !in item.name ==>
        DirOf(target.value) == folderPath && NameOf(target.value) == item.name
      ensures !confirmed ==> target == None
    {
      if confirmed {
        target := Some(DeletePath(folderPath, item.name));
        if '/' !in item.name {
          DeletePathSplits(folderPath, item.name);
        }
      } else {
        target := None;
      }
    }
  }
}
