/** Resolving one page of likes into the posts they point at, and fetching one post.

    The app has two versions of this code: an older one in `src/App.tsx` that checks records
    by type tag and schema against one fixed service, and a newer one in `src/utils/api.ts`
    that checks by type tag alone against a service it is given. Both are this module with a
    `Validation` mode and a service URL. The concurrent fan-out over a page's records is a
    sequential map: its results are gathered in listing order. */
module Resolve {
  import opened Records

  /** One entry of the timeline: the liked post, or why it could not be shown. */
  datatype Like = LikeOk(uri: AtUri, value: PostRecord) | LikeError(uri: AtUri, error: string)

  datatype Page = Page(likes: seq<Like>, cursor: Option<string>)

  function InvalidLikeMessage(uri: AtUri): string {
    "Invalid like record " + UriString(uri)
  }

  function InvalidPostMessage(uri: AtUri): string {
    "Invalid post record " + UriString(uri)
  }

  /** The listing call for one page of a repository's likes. */
  function LikeListRequest(handle: string, cursor: Option<string>): ListRequest {
    ListRequest(handle, LikeCollection, PageSize, cursor)
  }

  /** What fetching the subject of a like yields. */
  function SubjectFetch(service: string, net: Network, subject: StrongRef): Fetched {
    net.getRecord(service, RecordRequest(subject.uri, subject.cid))
  }

  /** The message of the `TypeError` thrown when the code reads `uri` from a missing subject,
      in V8's wording; other JavaScript engines word it differently. */
  const MissingSubjectError := "Cannot read properties of undefined (reading 'uri')"

  /** A record the check accepts as a like but that has no subject: resolving it reads a field
      of `undefined` and throws before any fetch is made. Only the type-tag check lets one
      through. */
  predicate SubjectMissing(check: Validation, record: ListedRecord) {
    IsLike(record.value, check) && record.value.subject.None?
  }

  /** One listed record, resolved; a failure is the error the resolution throws. A record that
      is not a like is an error entry about the like's own URI. Otherwise the like's subject is
      fetched. The entry carries the URI the service answered with, or the subject's URI when
      the fetch failed. */
  function ResolveLike(check: Validation, service: string, net: Network, record: ListedRecord): (r: Result<Like, string>)
    ensures r.Failure? <==> SubjectMissing(check, record)
    ensures r.Failure? ==> r.error == MissingSubjectError
    ensures !IsLike(record.value, check) ==> r == Success(LikeError(record.uri, InvalidLikeMessage(record.uri)))
    ensures IsLike(record.value, check) && record.value.subject.Some? ==>
      var fetched := SubjectFetch(service, net, record.value.subject.value);
      && r.Success?
      && (r.value.LikeOk? <==> fetched.Found? && IsPost(fetched.value, check))
      && (r.value.LikeOk? ==> r.value == LikeOk(fetched.uri, fetched.value.post))
      && (fetched.Found? && !IsPost(fetched.value, check) ==>
            r.value == LikeError(fetched.uri, InvalidPostMessage(fetched.uri)))
      && (fetched.FetchFailed? ==> r.value == LikeError(record.value.subject.value.uri, fetched.message))
  {
    if !IsLike(record.value, check) then
      Success(LikeError(record.uri, InvalidLikeMessage(record.uri)))
    else if record.value.subject.None? then
      Failure(MissingSubjectError)
    else
      var post := record.value.subject.value;
      match SubjectFetch(service, net, post)
      case Found(uri, value) =>
        Success(if IsPost(value, check) then LikeOk(uri, value.post) else LikeError(uri, InvalidPostMessage(uri)))
      case FetchFailed(message) => Success(LikeError(post.uri, message))
  }

  /** The per-record resolutions of a listing, in listing order. The records are mapped
      synchronously, so one record whose resolution throws makes the whole map throw. */
  function ResolveLikes(check: Validation, service: string, net: Network, records: seq<ListedRecord>)
    : (r: Result<seq<Like>, string>)
    ensures r.Failure? <==> exists i :: 0 <= i < |records| && SubjectMissing(check, records[i])
    ensures r.Failure? ==> r.error == MissingSubjectError
    ensures r.Success? ==>
      && |r.value| == |records|
      && forall i :: 0 <= i < |records| ==> ResolveLike(check, service, net, records[i]) == Success(r.value[i])
  {
    if records == [] then Success([])
    else
      var first := ResolveLike(check, service, net, records[0]);
      var rest := ResolveLikes(check, service, net, records[1..]);
      assert forall i :: 1 <= i < |records| ==> records[1..][i - 1] == records[i];
      if first.Failure? then Failure(first.error)
      else if rest.Failure? then rest
      else Success([first.value] + rest.value)
  }

  /** One page: list up to `PageSize` likes after `cursor`, then resolve each. The page fails
      when the listing fails, with its error, or when a record's resolution throws; its cursor is
      the listing's. */
  function FetchLikePage(check: Validation, service: string, handle: string, cursor: Option<string>, net: Network)
    : (r: Result<Page, string>)
    ensures var listed := net.listRecords(service, LikeListRequest(handle, cursor));
      && (listed.Failure? ==> r == Failure(listed.error))
      && (listed.Success? ==>
            && (r.Failure? <==> exists i :: 0 <= i < |listed.value.records| && SubjectMissing(check, listed.value.records[i]))
            && (r.Failure? ==> r.error == MissingSubjectError))
    ensures r.Success? ==>
      var listing := net.listRecords(service, LikeListRequest(handle, cursor)).value;
      && r.value.cursor == listing.cursor
      && |r.value.likes| == |listing.records|
      && forall i :: 0 <= i < |listing.records| ==>
           ResolveLike(check, service, net, listing.records[i]) == Success(r.value.likes[i])
  {
    match net.listRecords(service, LikeListRequest(handle, cursor))
    case Failure(message) => Failure(message)
    case Success(listing) =>
      match ResolveLikes(check, service, net, listing.records)
      case Failure(message) => Failure(message)
      case Success(likes) => Success(Page(likes, listing.cursor))
  }

  /** Fetch the post `uri` names, pinned to `cid`: its value when the answer is a post record;
      otherwise a failure naming the requested URI, or the transport's failure. */
  function FetchPost(check: Validation, service: string, uri: AtUri, cid: Option<string>, net: Network)
    : (r: Result<PostRecord, string>)
    ensures var fetched := net.getRecord(service, RecordRequest(uri, cid));
      && (r.Success? <==> fetched.Found? && IsPost(fetched.value, check))
      && (r.Success? ==> r.value == fetched.value.post)
      && (fetched.Found? && r.Failure? ==> r.error == InvalidPostMessage(uri))
      && (fetched.FetchFailed? ==> r == Failure(fetched.message))
  {
    match net.getRecord(service, RecordRequest(uri, cid))
    case FetchFailed(message) => Failure(message)
    case Found(_, value) => if IsPost(value, check) then Success(value.post) else Failure(InvalidPostMessage(uri))
  }

  /** A record that is not a like is resolved without the network: any two networks give it
      the same entry, so no post fetch is made for it. */
  lemma InvalidLikeFetchesNothing(check: Validation, service: string, net1: Network, net2: Network, record: ListedRecord)
    requires !IsLike(record.value, check)
    ensures ResolveLike(check, service, net1, record) == ResolveLike(check, service, net2, record)
  {
  }

  /** Per-item isolation: whether a page's resolution throws does not depend on the network at
      all, and entry `i` depends on it only through the fetch of record `i`'s own subject;
      whatever the other records' fetches answer, it is the same. */
  lemma ItemIsolation(check: Validation, service: string, net1: Network, net2: Network, records: seq<ListedRecord>, i: nat)
    requires i < |records|
    requires IsLike(records[i].value, check) && records[i].value.subject.Some? ==>
      SubjectFetch(service, net1, records[i].value.subject.value)
      == SubjectFetch(service, net2, records[i].value.subject.value)
    ensures ResolveLikes(check, service, net1, records).Success? == ResolveLikes(check, service, net2, records).Success?
    ensures ResolveLikes(check, service, net1, records).Success? ==>
      ResolveLikes(check, service, net1, records).value[i] == ResolveLikes(check, service, net2, records).value[i]
  {
  }

  /** A liked post resolves exactly as fetching the like's subject with `FetchPost` does: it is
      shown exactly when that fetch succeeds, with the same record. The two differ only in the
      URI an invalid record's error names (the answered URI here, the requested one there). */
  lemma LikeAgreesWithFetchPost(check: Validation, service: string, net: Network, record: ListedRecord)
    requires IsLike(record.value, check) && record.value.subject.Some?
    ensures var subject := record.value.subject.value;
      var like := ResolveLike(check, service, net, record).value;
      var post := FetchPost(check, service, subject.uri, subject.cid, net);
      && (like.LikeOk? <==> post.Success?)
      && (like.LikeOk? ==> like.value == post.value)
      && (SubjectFetch(service, net, subject).FetchFailed? ==> like.error == post.error)
  {
  }

  /** The stricter check accepts less: whatever resolves under type tag and schema resolves to
      the same post under the type tag alone. */
  lemma SchemaCheckIsStricter(service: string, net: Network, record: ListedRecord)
    ensures var strict := ResolveLike(TypeTagAndSchema, service, net, record);
      strict.Success? && strict.value.LikeOk? ==> ResolveLike(TypeTagOnly, service, net, record) == strict
  {
  }

  /** Under the schema check no record's resolution throws: a page fails only when its listing
      does. */
  lemma SchemaCheckNeverThrows(service: string, handle: string, cursor: Option<string>, net: Network)
    ensures FetchLikePage(TypeTagAndSchema, service, handle, cursor, net).Failure?
      <==> net.listRecords(service, LikeListRequest(handle, cursor)).Failure?
  {
  }
}
