/**
 * The data service in front of the `requests` collection and the file store
 * (src/app/service/firebase.service.ts). The collection is a keyed store of
 * documents; each document is a map from field name to value.
 */
module Service {
  import opened Wrappers

  /** A stored document: its fields by name. */
  type Document = map<string, string>

  /** The `Request` shape; `id` is optional and is the document key when set. */
  datatype Request = Request(
    id: Option<string>,
    student_name: string,
    document_type: string,
    status: string,
    student_id: string,
    email: string)

  /** The four fields `updateRequest` writes; `email` is not among them. */
  const UpdatedFields: set<string> := {"student_name", "document_type", "status", "student_id"}

  /** The object `addDoc` writes for a request: all its fields, `id` only when it is set. */
  function ToDocument(r: Request): (d: Document)
    ensures d.Keys == UpdatedFields + {"email"} + (if r.id.Some? then {"id"} else {})
    ensures d["student_name"] == r.student_name && d["document_type"] == r.document_type
    ensures d["status"] == r.status && d["student_id"] == r.student_id && d["email"] == r.email
    ensures r.id.Some? ==> d["id"] == r.id.value
  {
    var fields := map["student_name" := r.student_name, "document_type" := r.document_type,
                       "status" := r.status, "student_id" := r.student_id, "email" := r.email];
    if r.id.Some? then fields["id" := r.id.value] else fields
  }

  /** The key that the path template `requests/${request.id}` names; an unset id reads as "undefined". */
  function DocKey(id: Option<string>): (k: string)
    ensures id.Some? ==> k == id.value
    ensures id.None? ==> k == "undefined"
  {
    if id.Some? then id.value else "undefined"
  }

  /** The patch `updateRequest` hands to `updateDoc`. */
  function RequestPatch(r: Request): (p: Document)
    ensures p.Keys == UpdatedFields
    ensures p["student_name"] == r.student_name && p["document_type"] == r.document_type
    ensures p["status"] == r.status && p["student_id"] == r.student_id
  {
    map["student_name" := r.student_name, "document_type" := r.document_type,
        "status" := r.status, "student_id" := r.student_id]
  }

  /** The store after `addDoc` writes `doc` under the freshly generated `key`. */
  function Added(docs: map<string, Document>, key: string, doc: Document): (r: map<string, Document>)
    requires key !in docs
    ensures r.Keys == docs.Keys + {key} && |r| == |docs| + 1
    ensures r[key] == doc
    ensures forall k :: k in docs ==> r[k] == docs[k]
  {
    docs[key := doc]
  }

  /** The store after `deleteDoc` on `key`: that document is gone and every other one is as it was. */
  function Removed(docs: map<string, Document>, key: string): (r: map<string, Document>)
    ensures r.Keys == docs.Keys - {key}
    ensures forall k :: k in r ==> r[k] == docs[k]
  {
    docs - {key}
  }

  /**
   * The store after `updateDoc` merges `patch` into the document at `key`:
   * the fields the patch names take its values, every other field and every
   * other document keeps its value. A key with no document is left without one.
   */
  function Patched(docs: map<string, Document>, key: string, patch: Document): (r: map<string, Document>)
    ensures r.Keys == docs.Keys
    ensures forall k :: k in docs && k != key ==> r[k] == docs[k]
    ensures key in docs ==> r[key].Keys == docs[key].Keys + patch.Keys
    ensures key in docs ==> forall f :: f in patch ==> r[key][f] == patch[f]
    ensures key in docs ==> forall f :: f in docs[key] && f !in patch ==> r[key][f] == docs[key][f]
  {
    if key in docs then docs[key := docs[key] + patch] else docs
  }

  /** `getUserDataByUID`: the documents whose `student_id` field equals `uid`, and no others. */
  function GetUserDataByUID(docs: map<string, Document>, uid: string): (r: map<string, Document>)
    ensures forall k :: k in r <==> k in docs && "student_id" in docs[k] && docs[k]["student_id"] == uid
    ensures forall k :: k in r ==> r[k] == docs[k]
  {
    map k | k in docs && "student_id" in docs[k] && docs[k]["student_id"] == uid :: docs[k]
  }

  /**
   * `updateRequest` on a stored request rewrites its four fields from `r` and
   * keeps `email` and every other field; all other documents are untouched.
   */
  lemma UpdateRequestFrame(docs: map<string, Document>, r: Request)
    requires DocKey(r.id) in docs
    ensures var key, after := DocKey(r.id), Patched(docs, DocKey(r.id), RequestPatch(r));
      && after[key]["student_name"] == r.student_name
      && after[key]["document_type"] == r.document_type
      && after[key]["status"] == r.status
      && after[key]["student_id"] == r.student_id
      && ("email" in docs[key] <==> "email" in after[key])
      && ("email" in docs[key] ==> after[key]["email"] == docs[key]["email"])
      && (forall f :: f in after[key] && f !in UpdatedFields ==> f in docs[key] && after[key][f] == docs[key][f])
      && (forall k :: k in docs && k != key ==> after[k] == docs[k])
  {
  }

  /**
   * `addRequest` checks nothing: two requests of one student for one document
   * type are both stored, under two keys, and the student's query sees both.
   */
  lemma AddRequestStoresDuplicates(docs: map<string, Document>, r1: Request, r2: Request, id1: string, id2: string)
    requires id1 !in docs && id2 !in docs && id1 != id2
    requires r1.student_id == r2.student_id && r1.document_type == r2.document_type
    ensures var after := Added(Added(docs, id1, ToDocument(r1)), id2, ToDocument(r2));
      && |after| == |docs| + 2
      && after[id1]["document_type"] == after[id2]["document_type"]
      && id1 in GetUserDataByUID(after, r1.student_id)
      && id2 in GetUserDataByUID(after, r1.student_id)
  {
  }

  /** After `updateRequest`, the stored request is found under the student id it was given. */
  lemma UpdateRequestMovesStudent(docs: map<string, Document>, r: Request)
    requires DocKey(r.id) in docs
    ensures var after := Patched(docs, DocKey(r.id), RequestPatch(r));
      DocKey(r.id) in GetUserDataByUID(after, r.student_id)
  {
  }

  /** Deleting what was just added gives back the store as it was. */
  lemma RemovedUndoesAdded(docs: map<string, Document>, key: string, doc: Document)
    requires key !in docs
    ensures Removed(Added(docs, key, doc), key) == docs
  {
  }

  /** Deleting a key twice leaves the store as deleting it once. */
  lemma RemovedIdempotent(docs: map<string, Document>, key: string)
    ensures Removed(Removed(docs, key), key) == Removed(docs, key)
  {
  }

  /** One entry of a folder listing: the object's name and its resolved download URL. */
  datatype Entry = Entry(name: string, url: string)

  /** Why a folder listing yields nothing: the listing itself failed, or some URL did not resolve. */
  datatype StorageError = ListingFailed | UrlResolutionFailed

  /** The names of a listing's entries, in order. */
  function Names(entries: seq<Entry>): (names: seq<string>)
    ensures |names| == |entries|
    ensures forall i :: 0 <= i < |entries| ==> names[i] == entries[i].name
  {
    if entries == [] then [] else [entries[0].name] + Names(entries[1..])
  }

  /** The i-th name paired with the i-th URL, or nothing when some URL is missing. */
  function Pair(names: seq<string>, urls: seq<Option<string>>): (r: Option<seq<Entry>>)
    requires |names| == |urls|
    ensures r.Some? <==> forall i :: 0 <= i < |urls| ==> urls[i].Some?
    ensures r.Some? ==> |r.value| == |names|
    ensures r.Some? ==> forall i :: 0 <= i < |names| ==> r.value[i] == Entry(names[i], urls[i].value)
  {
    if names == [] then Some([])
    else
      var rest := Pair(names[1..], urls[1..]);
      if urls[0].None? || rest.None? then
        assert urls[0].None? || (exists i :: 1 <= i < |urls| && urls[i].None? && urls[1..][i - 1].None?);
        None
      else
        Some([Entry(names[0], urls[0].value)] + rest.value)
  }

  /**
   * `getFolderContents`: list the folder, resolve every item's URL, and pair
   * item i's name with URL i. A failed listing or any failed resolution fails
   * the whole call; no partial list is produced.
   */
  function GetFolderContents(listing: Option<seq<string>>, urls: seq<Option<string>>): (r: Result<seq<Entry>, StorageError>)
    requires listing.Some? ==> |urls| == |listing.value|
    ensures listing.None? ==> r == Failure(ListingFailed)
    ensures listing.Some? ==> (r.Success? <==> forall i :: 0 <= i < |urls| ==> urls[i].Some?)
    ensures r.Failure? && listing.Some? ==> r.error == UrlResolutionFailed
    ensures r.Success? ==> Names(r.value) == listing.value
    ensures r.Success? ==> forall i :: 0 <= i < |r.value| ==> urls[i] == Some(r.value[i].url)
  {
    if listing.None? then Failure(ListingFailed)
    else
      match Pair(listing.value, urls)
      case Some(entries) => Success(entries)
      case None => Failure(UrlResolutionFailed)
  }

  /** The fixed location `getFilesFromFolder` lists. */
  const FilesRoot: string := "gs://your-firebase-project.appspot.com/documents"

  /** `getFilesFromFolder`: the location it lists; its argument is not used. */
  function GetFilesFromFolder(folderPath: string): (root: string)
    ensures root == FilesRoot
  {
    FilesRoot
  }

  /** Every folder path lists the same location. */
  lemma GetFilesFromFolderIgnoresPath(p: string, q: string)
    ensures GetFilesFromFolder(p) == GetFilesFromFolder(q) == FilesRoot
  {
  }

  /** The `requests` collection, updated in place by the service's write operations. */
  class FirebaseService {
    var requests: map<string, Document>

    constructor (initial: map<string, Document>)
      ensures requests == initial
    {
      requests := initial;
    }

    /** `addRequest`: store the request under a fresh key; nothing is checked for duplicates. */
    method AddRequest(request: Request, freshKey: string) returns (key: string)
      requires freshKey !in requests
      modifies this
      ensures key == freshKey
      ensures requests == Added(old(requests), key, ToDocument(request))
    {
      key := freshKey;
      requests := requests[key := ToDocument(request)];
    }

    /** `deleteRequest`: remove the document keyed by the request's id. */
    method DeleteRequest(request: Request)
      modifies this
      ensures requests == Removed(old(requests), DocKey(request.id))
    {
      requests := requests - {DocKey(request.id)};
    }

    /** `updateRequest`: write the four request fields into the document keyed by its id. */
    method UpdateRequest(request: Request)
      modifies this
      ensures requests == Patched(old(requests), DocKey(request.id), RequestPatch(request))
    {
      var key := DocKey(request.id);
      if key in requests {
        requests := requests[key := requests[key] + RequestPatch(request)];
      }
    }

    /** `updateItem`: merge `newData` into the document keyed `id`. */
    method UpdateItem(id: string, newData: Document)
      modifies this
      ensures requests == Patched(old(requests), id, newData)
    {
      if id in requests {
        requests := requests[id := requests[id] + newData];
      }
    }

    /** `deleteItem`: remove the document keyed `id`. */
    method DeleteItem(id: string)
      modifies this
      ensures requests == Removed(old(requests), id)
    {
      requests := requests - {id};
    }
  }
}
