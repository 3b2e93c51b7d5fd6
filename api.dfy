/** `src/utils/api.ts`: the likes page, the memoised profile lookup and the post fetch, each
    against a service URL the caller gives and with records checked by type tag alone. */
module Api {
  import opened Records
  import Memo
  import Resolve

  /** One page of a repository's likes (`fetchLikedPosts`). Only the type tags are checked: an
      entry shows a post exactly when its record is tagged as a like and the subject fetch
      answers a record tagged as a post, whether or not either conforms to its schema. A record
      tagged as a like but without a subject makes the whole page fail. */
  function FetchLikedPosts(handle: string, cursor: Option<string>, service: string, net: Network)
    : (r: Result<Resolve.Page, string>)
    ensures var listed := net.listRecords(service, Resolve.LikeListRequest(handle, cursor));
      && (listed.Failure? ==> r == Failure(listed.error))
      && (listed.Success? ==>
            && (r.Failure? <==> exists i :: 0 <= i < |listed.value.records|
                                  && listed.value.records[i].value.LikeValue? && listed.value.records[i].value.subject.None?)
            && (r.Failure? ==> r.error == Resolve.MissingSubjectError))
    ensures r.Success? ==>
      var listing := net.listRecords(service, Resolve.LikeListRequest(handle, cursor)).value;
      && |r.value.likes| == |listing.records|
      && r.value.cursor == listing.cursor
      && forall i :: 0 <= i < |listing.records| ==>
           && Resolve.ResolveLike(TypeTagOnly, service, net, listing.records[i]) == Success(r.value.likes[i])
           && (!listing.records[i].value.LikeValue? ==>
                 r.value.likes[i] == Resolve.LikeError(listing.records[i].uri, Resolve.InvalidLikeMessage(listing.records[i].uri)))
           && (listing.records[i].value.LikeValue? ==>
                 && listing.records[i].value.subject.Some?
                 && var fetched := Resolve.SubjectFetch(service, net, listing.records[i].value.subject.value);
                    r.value.likes[i].LikeOk? <==> fetched.Found? && fetched.value.PostValue?)
  {
    Resolve.FetchLikePage(TypeTagOnly, service, handle, cursor, net)
  }

  /** One post (`fetchPost`): its value exactly when the answer is tagged as a post; otherwise
      an error naming the requested URI, or the transport's error. */
  function FetchPost(uri: AtUri, service: string, cid: Option<string>, net: Network): (r: Result<PostRecord, string>)
    ensures var fetched := net.getRecord(service, RecordRequest(uri, cid));
      && (r.Success? <==> fetched.Found? && fetched.value.PostValue?)
      && (r.Success? ==> r.value == fetched.value.post)
      && (fetched.Found? && r.Failure? ==> r.error == Resolve.InvalidPostMessage(uri))
      && (fetched.FetchFailed? ==> r == Failure(fetched.message))
  {
    Resolve.FetchPost(TypeTagOnly, service, uri, cid, net)
  }

  /** What one uncached profile lookup yields. It never fails: a profile record that cannot be
      fetched, or is not a profile, gives the repository's own URI and an empty profile; the
      handle is the directory's answer for the profile's host, or the input handle when the
      directory lookup fails. */
  function ResolveProfile(handle: string, service: string, net: Network): (r: ResolvedProfile)
    ensures var fetched := net.getRecord(service, ProfileRequest(handle));
      && (fetched.Found? && IsProfile(fetched.value, TypeTagOnly) ==>
            r.uri == fetched.uri && r.profile == fetched.value.profile)
      && (!(fetched.Found? && IsProfile(fetched.value, TypeTagOnly)) ==>
            r.uri == RepoUri(handle) && r.profile == EmptyProfile)
    ensures r.handle == net.describeRepo(service, r.uri.host).GetOr(handle)
  {
    var fetched := net.getRecord(service, ProfileRequest(handle));
    var (uri, profile) :=
      if fetched.Found? && IsProfile(fetched.value, TypeTagOnly) then (fetched.uri, fetched.value.profile)
      else (RepoUri(handle), EmptyProfile);
    ResolvedProfile(uri, net.describeRepo(service, uri.host).GetOr(handle), profile)
  }

  /** When the profile record is missing or invalid, the directory is asked about the input
      handle itself, so a failing directory leaves exactly that handle. */
  lemma FallbackAsksDirectoryForInputHandle(handle: string, service: string, net: Network)
    requires net.getRecord(service, ProfileRequest(handle)).FetchFailed?
      || !IsProfile(net.getRecord(service, ProfileRequest(handle)).value, TypeTagOnly)
    ensures ResolveProfile(handle, service, net).handle == net.describeRepo(service, handle).GetOr(handle)
  {
  }

  /** The key `fast-memoize` caches a two-argument call under. */
  type MemoKey = (string, string)

  /** `fetchProfile` wrapped by `memoize`: the wrapper's hidden cache maps each (handle, service)
      pair to the first result computed for it. */
  class ProfileMemo {
    var cache: map<MemoKey, ResolvedProfile>

    constructor ()
      ensures cache == map[]
    {
      cache := map[];
    }

    /** A cached pair is answered from the cache; otherwise the lookup runs step by step (the
        profile record, its fallback, then the handle, which is reassigned from the directory)
        and its result is stored. */
    method FetchProfile(handle: string, service: string, net: Network) returns (r: ResolvedProfile)
      modifies this
      ensures (cache, r) == Memo.Lookup(old(cache), (handle, service), ResolveProfile(handle, service, net))
    {
      if (handle, service) in cache {
        return cache[(handle, service)];
      }
      var fetched := net.getRecord(service, ProfileRequest(handle));
      var uri, profile;
      if fetched.Found? && IsProfile(fetched.value, TypeTagOnly) {
        uri, profile := fetched.uri, fetched.value.profile;
      } else {
        uri, profile := RepoUri(handle), EmptyProfile;
      }
      var resolvedHandle := handle;
      match net.describeRepo(service, uri.host) {
        case Success(directoryHandle) => resolvedHandle := directoryHandle;
        case Failure(_) =>
      }
      r := ResolvedProfile(uri, resolvedHandle, profile);
      cache := cache[(handle, service) := r];
    }
  }

  /** Over any run of calls on a fresh memo, with the network fixed, memoisation is invisible:
      every call gets what an uncached lookup gives, and each distinct (handle, service) pair
      is looked up on the network once. */
  lemma {:induction false} MemoIsTransparent(keys: seq<MemoKey>, net: Network)
    ensures var answers := seq(|keys|, i requires 0 <= i < |keys| => ResolveProfile(keys[i].0, keys[i].1, net));
      var run := Memo.Calls(map[], keys, answers);
      && (forall i :: 0 <= i < |keys| ==> run.results[i] == ResolveProfile(keys[i].0, keys[i].1, net))
      && run.computed == |Memo.KeySet(keys)|
  {
    var answers := seq(|keys|, i requires 0 <= i < |keys| => ResolveProfile(keys[i].0, keys[i].1, net));
    var run := Memo.Calls(map[], keys, answers);
    forall j | 0 <= j < |keys| ensures run.results[j] == ResolveProfile(keys[j].0, keys[j].1, net) {
      var i := Memo.FirstOccurrence(keys, j);
      Memo.FirstCallWins(map[], keys, answers, i, j);
    }
    Memo.CallsComputeOncePerKey(map[], keys, answers);
  }
}
