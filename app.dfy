/** `src/App.tsx`: the older, self-contained version of the app. It talks to one fixed
    service, checks records by type tag and schema, caches profile lookups in a module-level
    dictionary, and drives the paginated likes timeline. */
module App {
  import opened Records
  import Memo
  import Resolve
  import opened Views

  const BskySocial := "https://bsky.social"

  /** The handle the form starts with. */
  const InitialHandle := "jesopo.bsky.social"

  /** One page of likes (`loadLikes`). An entry shows a post exactly when the like passed both
      checks and so did the record fetched for it. Only a failed listing fails the page. */
  function LoadLikes(handle: string, cursor: Option<string>, net: Network): (r: Result<Resolve.Page, string>)
    ensures var listed := net.listRecords(BskySocial, Resolve.LikeListRequest(handle, cursor));
      && (r.Failure? <==> listed.Failure?)
      && (listed.Failure? ==> r == Failure(listed.error))
    ensures r.Success? ==>
      var listing := net.listRecords(BskySocial, Resolve.LikeListRequest(handle, cursor)).value;
      && |r.value.likes| == |listing.records|
      && r.value.cursor == listing.cursor
      && forall i :: 0 <= i < |listing.records| ==>
           && Resolve.ResolveLike(TypeTagAndSchema, BskySocial, net, listing.records[i]) == Success(r.value.likes[i])
           && (r.value.likes[i].LikeOk? <==>
                 var like := listing.records[i].value;
                 && like.LikeValue? && like.conforms && like.subject.Some?
                 && var fetched := Resolve.SubjectFetch(BskySocial, net, like.subject.value);
                    fetched.Found? && fetched.value.PostValue? && fetched.value.conforms)
  {
    Resolve.FetchLikePage(TypeTagAndSchema, BskySocial, handle, cursor, net)
  }

  /** One post (`fetchPost`): its value exactly when the fetched record passes both checks;
      otherwise an error naming the requested URI, or the transport's error. */
  function FetchPost(uri: AtUri, cid: Option<string>, net: Network): (r: Result<PostRecord, string>)
    ensures var fetched := net.getRecord(BskySocial, RecordRequest(uri, cid));
      && (r.Success? <==> fetched.Found? && fetched.value.PostValue? && fetched.value.conforms)
      && (r.Success? ==> r.value == fetched.value.post)
      && (fetched.Found? && r.Failure? ==> r.error == Resolve.InvalidPostMessage(uri))
      && (fetched.FetchFailed? ==> r == Failure(fetched.message))
  {
    Resolve.FetchPost(TypeTagAndSchema, BskySocial, uri, cid, net)
  }

  function InvalidProfileMessage(uri: AtUri): string {
    "Invalid profile record " + UriString(uri)
  }

  /** What one uncached profile lookup settles to. It rejects when the profile record cannot
      be fetched or fails either check; otherwise the handle is the directory's answer for the
      profile's host, or `repo` when the directory lookup fails. */
  function LookupProfile(repo: string, net: Network): (r: Result<ResolvedProfile, string>)
    ensures var fetched := net.getRecord(BskySocial, ProfileRequest(repo));
      && (r.Success? <==> fetched.Found? && IsProfile(fetched.value, TypeTagAndSchema))
      && (fetched.FetchFailed? ==> r == Failure(fetched.message))
      && (fetched.Found? && r.Failure? ==> r.error == InvalidProfileMessage(fetched.uri))
      && (r.Success? ==> r.value.uri == fetched.uri && r.value.profile == fetched.value.profile
                         && r.value.handle == net.describeRepo(BskySocial, fetched.uri.host).GetOr(repo))
  {
    match net.getRecord(BskySocial, ProfileRequest(repo))
    case FetchFailed(message) => Failure(message)
    case Found(uri, value) =>
      if IsProfile(value, TypeTagAndSchema) then
        Success(ResolvedProfile(uri, net.describeRepo(BskySocial, uri.host).GetOr(repo), value.profile))
      else
        Failure(InvalidProfileMessage(uri))
  }

  /** The module-level dictionary `fetchProfilePromises`, from repository to the (possibly
      rejected) result of its first lookup. */
  class ProfileCache {
    var promises: map<string, Result<ResolvedProfile, string>>

    constructor ()
      ensures promises == map[]
    {
      promises := map[];
    }

    /** `fetchProfile`: store a lookup for `repo` only when none is stored, then answer the
        stored one. */
    method FetchProfile(repo: string, net: Network) returns (r: Result<ResolvedProfile, string>)
      modifies this
      ensures (promises, r) == Memo.Lookup(old(promises), repo, LookupProfile(repo, net))
    {
      if repo !in promises {
        var outcome: Result<ResolvedProfile, string>;
        var fetched := net.getRecord(BskySocial, ProfileRequest(repo));
        if fetched.FetchFailed? {
          outcome := Failure(fetched.message);
        } else if !IsProfile(fetched.value, TypeTagAndSchema) {
          outcome := Failure(InvalidProfileMessage(fetched.uri));
        } else {
          var handle := net.describeRepo(BskySocial, fetched.uri.host).GetOr(repo);
          outcome := Success(ResolvedProfile(fetched.uri, handle, fetched.value.profile));
        }
        promises := promises[repo := outcome];
      }
      r := promises[repo];
    }
  }

  /** Over any run of calls on the cache, with the network free to answer differently each
      time: the first call for a repository decides, for good, what every later call for it
      gets (a rejection included, even after the network recovers), and each distinct
      repository is looked up on the network exactly once. */
  lemma FirstLookupIsFinal(repos: seq<string>, nets: seq<Network>, i: nat, j: nat)
    requires |nets| == |repos|
    requires i <= j < |repos| && repos[j] == repos[i] && repos[i] !in repos[..i]
    ensures var answers := seq(|repos|, k requires 0 <= k < |repos| => LookupProfile(repos[k], nets[k]));
      && Memo.Calls(map[], repos, answers).results[j] == LookupProfile(repos[i], nets[i])
      && Memo.Calls(map[], repos, answers).computed == |Memo.KeySet(repos)|
  {
    var answers := seq(|repos|, k requires 0 <= k < |repos| => LookupProfile(repos[k], nets[k]));
    Memo.FirstCallWins(map[], repos, answers, i, j);
    Memo.CallsComputeOncePerKey(map[], repos, answers);
  }

  /** The scroll listener the effect on `cursor` installs: the cursor it loads after, the
      `fetchingMore` flag of its closure, and the handle and timeline of the render whose `load`
      it calls. */
  datatype ScrollListener = ScrollListener(cursor: string, fetchingMore: bool, handle: string, shown: seq<Resolve.Like>)

  /** The listener the effect installs for a cursor, in a render showing `handle` and `shown`:
      one only while the cursor is set. */
  function ListenerFor(cursor: Option<string>, handle: string, shown: seq<Resolve.Like>): Option<ScrollListener> {
    if Truthy(cursor) then Some(ScrollListener(cursor.value, false, handle, shown)) else None
  }

  /** The `App` component's state. */
  class App {
    var isLoading: bool
    var profileHandle: string
    var error: Option<string>
    var likes: seq<Resolve.Like>
    var cursor: Option<string>
    var scrollListener: Option<ScrollListener>

    /** A listener is installed exactly while a cursor is set, and it loads after that cursor. */
    ghost predicate Valid()
      reads this
    {
      (scrollListener.Some? <==> Truthy(cursor))
      && (scrollListener.Some? ==> cursor == Some(scrollListener.value.cursor))
    }

    constructor ()
      ensures Valid()
      ensures !isLoading && profileHandle == InitialHandle && error == None
      ensures likes == [] && cursor == None && scrollListener == None
    {
      isLoading, profileHandle, error := false, InitialHandle, None;
      likes, cursor, scrollListener := [], None, None;
    }

    method SetProfileHandle(handle: string)
      modifies this`profileHandle
      ensures profileHandle == handle
    {
      profileHandle := handle;
    }

    /** `setCursor` followed by the effect on `cursor`: the effect re-runs only when the value
        changed, removing the old listener and installing a fresh one while a cursor is set.
        The fresh listener's closure holds the current render's handle and timeline. */
    method CommitCursor(newCursor: Option<string>)
      requires Valid()
      modifies this`cursor, this`scrollListener
      ensures Valid()
      ensures cursor == newCursor
      ensures scrollListener ==
        if newCursor == old(cursor) then old(scrollListener) else ListenerFor(newCursor, profileHandle, likes)
    {
      if newCursor != cursor {
        scrollListener := ListenerFor(newCursor, profileHandle, likes);
      }
      cursor := newCursor;
    }

    /** `load` of a render that showed `handle` and the timeline `shown`: clear the error, fetch
        that handle's page, then append it to `shown` (when a cursor was passed) or replace the
        list with it, and take its cursor; a failed listing empties the list, drops the cursor
        and shows the failure. */
    method Load(c: Option<string>, handle: string, shown: seq<Resolve.Like>, net: Network)
      requires Valid()
      modifies this`error, this`likes, this`cursor, this`scrollListener
      ensures Valid()
      ensures var page := LoadLikes(handle, c, net);
        && (page.Success? ==>
              && likes == (if Truthy(c) then shown + page.value.likes else page.value.likes)
              && cursor == page.value.cursor
              && error == None)
        && (page.Failure? ==> likes == [] && cursor == None && error == Some(page.error))
      ensures scrollListener == if cursor == old(cursor) then old(scrollListener) else ListenerFor(cursor, profileHandle, likes)
    {
      error := None;
      var page := LoadLikes(handle, c, net);
      match page {
        case Success(Page(newLikes, newCursor)) =>
          if Truthy(c) {
            likes := shown + newLikes;
          } else {
            likes := newLikes;
          }
          CommitCursor(newCursor);
        case Failure(message) =>
          likes := [];
          CommitCursor(None);
          error := Some(message);
      }
    }

    /** `onSubmit`: show the spinner, load the current handle's first page, hide the spinner. */
    method OnSubmit(net: Network)
      requires Valid()
      modifies this
      ensures Valid()
      ensures !isLoading && profileHandle == old(profileHandle)
      ensures var page := LoadLikes(profileHandle, None, net);
        && (page.Success? ==> likes == page.value.likes && cursor == page.value.cursor && error == None)
        && (page.Failure? ==> likes == [] && cursor == None && error == Some(page.error))
      ensures scrollListener == if cursor == old(cursor) then old(scrollListener) else ListenerFor(cursor, profileHandle, likes)
    {
      isLoading := true;
      Load(None, profileHandle, likes, net);
      isLoading := false;
    }

    /** A scroll event; whether the page is near its bottom is the event's to say. The
        listener loads after its cursor only if it has not done so already, and it calls the
        `load` of the render that installed it: that render's handle and timeline, not the
        current ones. */
    method OnScroll(nearBottom: bool, net: Network) returns (fired: bool)
      requires Valid()
      modifies this`error, this`likes, this`cursor, this`scrollListener
      ensures Valid()
      ensures fired <==> old(scrollListener).Some? && !old(scrollListener).value.fetchingMore && nearBottom
      ensures !Truthy(old(cursor)) ==> !fired
      ensures !fired ==> unchanged(this)
      ensures fired ==>
        var listener := old(scrollListener).value;
        var page := LoadLikes(listener.handle, old(cursor), net);
        && (page.Success? ==> likes == listener.shown + page.value.likes && cursor == page.value.cursor)
        && (page.Failure? ==> likes == [] && cursor == None && error == Some(page.error))
      ensures fired && LoadLikes(old(scrollListener).value.handle, old(cursor), net).Success? ==> error == None
      ensures fired && cursor == old(cursor) ==> scrollListener == Some(old(scrollListener).value.(fetchingMore := true))
      ensures fired && cursor != old(cursor) ==> scrollListener == ListenerFor(cursor, profileHandle, likes)
    {
      fired := scrollListener.Some? && !scrollListener.value.fetchingMore && nearBottom;
      if fired {
        var listener := scrollListener.value;
        scrollListener := Some(listener.(fetchingMore := true));
        Load(Some(listener.cursor), listener.handle, listener.shown, net);
      }
    }
  }

  /** The quoted post the older `Post` shows: only a record-with-media embed's record, through
      `PostEmbed`; a plain record embed shows nothing. */
  function EmbedRef(post: PostRecord): (r: Option<StrongRef>)
    ensures r.Some? <==> post.embed.Some? && post.embed.value.RecordWithMedia?
    ensures r.Some? ==> r.value == post.embed.value.quote.record
  {
    if post.embed.Some? && post.embed.value.RecordWithMedia? then Some(post.embed.value.quote.record) else None
  }

  /** The images the older `Post` shows: those of an images embed, or the media of a
      record-with-media embed when that media is images. */
  function ShownImages(post: PostRecord): (r: Option<seq<Image>>)
    ensures r.Some? <==>
      (post.embed.Some? && (post.embed.value.Images? || (post.embed.value.RecordWithMedia? && post.embed.value.media.MediaImages?)))
    ensures r.Some? && post.embed.value.Images? ==> r.value == post.embed.value.images
    ensures r.Some? && post.embed.value.RecordWithMedia? ==> r.value == post.embed.value.media.images
  {
    if post.embed.None? then None
    else match post.embed.value
      case Images(images) => Some(images)
      case RecordWithMedia(_, MediaImages(images)) => Some(images)
      case _ => None
  }

  /** The older `Post`: there is no embedded variant; the parent effect runs for any reply. */
  class PostView {
    const uri: AtUri
    const post: PostRecord
    var profile: Slot<ResolvedProfile>
    var parentPost: Slot<PostRecord>

    constructor (uri: AtUri, post: PostRecord)
      ensures this.uri == uri && this.post == post
      ensures profile == EmptySlot() && parentPost == EmptySlot()
    {
      this.uri, this.post := uri, post;
      profile, parentPost := EmptySlot(), EmptySlot();
    }

    /** Fetch the parent, pinned to its content hash, when the post is a reply. */
    method RunParentEffect(net: Network, aborted: bool)
      modifies this`parentPost
      ensures post.reply.None? ==> parentPost == old(parentPost)
      ensures post.reply.Some? ==>
        parentPost == Deliver(old(parentPost), FetchPost(post.reply.value.parent.uri, post.reply.value.parent.cid, net), aborted)
    {
      if post.reply.None? {
        return;
      }
      var parent := post.reply.value.parent;
      match FetchPost(parent.uri, parent.cid, net) {
        case Success(record) =>
          if !aborted {
            parentPost := parentPost.(value := Some(record));
          }
        case Failure(message) =>
          parentPost := parentPost.(error := Some(message));
      }
    }

    /** Look the author up through the cache; when the cached lookup rejects, ask the directory
        for the host's handle and show an empty profile under it (this write is not behind the
        abort flag); when that fails too, show the directory's error. */
    method RunProfileEffect(cache: ProfileCache, net: Network, aborted: bool)
      modifies this`profile, cache
      ensures cache.promises == Memo.Lookup(old(cache.promises), uri.host, LookupProfile(uri.host, net)).0
      ensures var cached := Memo.Lookup(old(cache.promises), uri.host, LookupProfile(uri.host, net)).1;
        && (cached.Success? ==> profile == Deliver(old(profile), cached, aborted))
        && (cached.Failure? ==> profile == FallbackProfile(old(profile), uri.host, net))
    {
      var cached := cache.FetchProfile(uri.host, net);
      match cached {
        case Success(result) =>
          if !aborted {
            profile := profile.(value := Some(result));
          }
        case Failure(_) =>
          match net.describeRepo(BskySocial, uri.host) {
            case Success(handle) =>
              profile := profile.(value := Some(ResolvedProfile(RepoUri(uri.host), handle, EmptyProfile)));
            case Failure(message) =>
              profile := profile.(error := Some(message));
          }
      }
    }
  }

  /** The profile slot after the fallback for a rejected cached lookup. */
  function FallbackProfile(s: Slot<ResolvedProfile>, host: string, net: Network): Slot<ResolvedProfile> {
    match net.describeRepo(BskySocial, host)
    case Success(handle) => s.(value := Some(ResolvedProfile(RepoUri(host), handle, EmptyProfile)))
    case Failure(message) => s.(error := Some(message))
  }

  /** What `PostEmbed` renders. */
  datatype EmbedShape = EmbedFailed(message: string) | EmbedPending | EmbedShown(post: PostRecord)

  /** A (non-empty) fetch error wins over a loaded post; nothing is shown until the post loads. */
  function SelectEmbedShape(post: Slot<PostRecord>): (r: EmbedShape)
    ensures r.EmbedFailed? <==> Truthy(post.error)
    ensures r.EmbedFailed? ==> r.message == post.error.value
    ensures r.EmbedShown? <==> !Truthy(post.error) && post.value.Some?
    ensures r.EmbedShown? ==> r.post == post.value.value
  {
    if Truthy(post.error) then EmbedFailed(post.error.value)
    else if post.value.None? then EmbedPending
    else EmbedShown(post.value.value)
  }

  /** `PostEmbed`: fetches the referenced post and its author's profile, and renders no other
      post. */
  class PostEmbedView {
    const ref: StrongRef
    var post: Slot<PostRecord>
    var profile: Slot<ResolvedProfile>

    constructor (ref: StrongRef)
      ensures this.ref == ref && post == EmptySlot() && profile == EmptySlot()
    {
      this.ref := ref;
      post, profile := EmptySlot(), EmptySlot();
    }

    method RunPostEffect(net: Network, aborted: bool)
      modifies this`post
      ensures post == Deliver(old(post), FetchPost(ref.uri, ref.cid, net), aborted)
    {
      match FetchPost(ref.uri, ref.cid, net) {
        case Success(record) =>
          if !aborted {
            post := post.(value := Some(record));
          }
        case Failure(message) =>
          post := post.(error := Some(message));
      }
    }

    method RunProfileEffect(cache: ProfileCache, net: Network, aborted: bool)
      modifies this`profile, cache
      ensures cache.promises == Memo.Lookup(old(cache.promises), ref.uri.host, LookupProfile(ref.uri.host, net)).0
      ensures profile == Deliver(old(profile), Memo.Lookup(old(cache.promises), ref.uri.host, LookupProfile(ref.uri.host, net)).1, aborted)
    {
      var cached := cache.FetchProfile(ref.uri.host, net);
      match cached {
        case Success(result) =>
          if !aborted {
            profile := profile.(value := Some(result));
          }
        case Failure(message) =>
          profile := profile.(error := Some(message));
      }
    }
  }

  /** The author label `PostEmbed` shows: the display name, else the URI's host. */
  function EmbedAuthorLabel(profile: Option<ResolvedProfile>, host: string): (r: string)
    ensures profile.Some? && profile.value.profile.displayName.Some? ==> r == profile.value.profile.displayName.value
    ensures !(profile.Some? && profile.value.profile.displayName.Some?) ==> r == host
  {
    if profile.Some? && profile.value.profile.displayName.Some? then profile.value.profile.displayName.value else host
  }

  /** Unlike `Post`, `PostEmbed` never labels the author with the handle: for a loaded profile
      without a display name, `Post` shows the handle and `PostEmbed` the host. */
  lemma EmbedLabelSkipsHandle(profile: ResolvedProfile, host: string)
    requires profile.profile.displayName.None?
    ensures EmbedAuthorLabel(Some(profile), host) == host
    ensures AuthorLabel(Some(profile), host) == profile.handle
  {
  }

  /** What a fully loaded timeline post of the older app shows: itself, the parent rendered
      in a thread, and the reference its `PostEmbed` fetches. */
  datatype PostTree = PostTree(uri: AtUri, post: PostRecord, parent: Option<PostTree>, embed: Option<StrongRef>)

  /** The tree a post renders once every effect has settled without being aborted. */
  function Settle(uri: AtUri, post: PostRecord, net: Network): PostTree
    decreases if post.reply.Some? then 1 else 0
  {
    var parentSlot := if post.reply.Some? then Deliver(EmptySlot(), FetchPost(post.reply.value.parent.uri, post.reply.value.parent.cid, net), false) else EmptySlot();
    var shape := SelectShape(post, parentSlot);
    PostTree(uri, post, if shape.Thread? then Some(Settle(shape.parentUri, shape.parent, net)) else None, EmbedRef(post))
  }

  /** The post fetches of a render tree: each post's parent fetch and its `PostEmbed`'s fetch. */
  function TreeFetches(t: PostTree): nat {
    (if t.post.reply.Some? then 1 else 0) + (if t.embed.Some? then 1 else 0)
    + (if t.parent.Some? then TreeFetches(t.parent.value) else 0)
  }

  /** The parent is rendered without its reply, so it fetches no grandparent: the thread is
      one hop deep and a timeline post starts at most three post fetches. */
  lemma {:induction false} SettleIsBounded(uri: AtUri, post: PostRecord, net: Network)
    ensures var t := Settle(uri, post, net);
      && (t.parent.Some? ==> t.parent.value.post.reply.None? && t.parent.value.parent.None?)
      && TreeFetches(t) <= 3
  {
    var t := Settle(uri, post, net);
    if t.parent.Some? {
      var parentSlot := if post.reply.Some? then Deliver(EmptySlot(), FetchPost(post.reply.value.parent.uri, post.reply.value.parent.cid, net), false) else EmptySlot();
      var shape := SelectShape(post, parentSlot);
      assert shape.Thread? && shape.parent.reply.None?;
      var p := Settle(shape.parentUri, shape.parent, net);
      assert t.parent.value == p;
      assert SelectShape(shape.parent, EmptySlot()).Alone?;
    }
  }
}
