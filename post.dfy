/** `src/components/Post.tsx`: one post, with the follow-up fetches it makes (its author's
    profile, its reply parent, the post it quotes) and what it renders from their results.

    The component's fetches are lookups by reference: `lookup` answers a post reference and
    `fetchProfile` a host, each with the record or the message of the error it throws. */
module PostComponent {
  import opened Records
  import opened Views

  /** The component's props. */
  datatype PostProps = PostProps(uri: AtUri, post: PostRecord, isEmbedded: bool)

  /** A quoted post as the component keeps it: the reference's URI and the fetched record. */
  datatype EmbeddedPost = EmbeddedPost(uri: AtUri, record: PostRecord)

  /** The parent the parent effect fetches: only a post that is not embedded and is a reply. */
  function ParentRef(p: PostProps): (r: Option<StrongRef>)
    ensures r.Some? <==> !p.isEmbedded && p.post.reply.Some?
    ensures r.Some? ==> r.value == p.post.reply.value.parent
  {
    if p.isEmbedded || p.post.reply.None? then None else Some(p.post.reply.value.parent)
  }

  /** The post the quote effect fetches: only from a post that is not embedded, and only when
      its embed is a record embed (the reference is `embed.record`) or a record-with-media
      embed (the reference is `embed.record.record`). */
  function QuoteRef(p: PostProps): (r: Option<StrongRef>)
    ensures r.Some? <==> !p.isEmbedded && p.post.embed.Some? && (p.post.embed.value.Record? || p.post.embed.value.RecordWithMedia?)
    ensures r.Some? && p.post.embed.value.Record? ==> r.value == p.post.embed.value.record
    ensures r.Some? && p.post.embed.value.RecordWithMedia? ==> r.value == p.post.embed.value.quote.record
  {
    if p.isEmbedded || p.post.embed.None? then None
    else match p.post.embed.value
      case Record(record) => Some(record)
      case RecordWithMedia(quote, _) => Some(quote.record)
      case _ => None
  }

  /** The images shown under the text: only for a post that is not embedded, from an images
      embed or from the media of a record-with-media embed when that media is images. */
  function ShownImages(p: PostProps): (r: Option<seq<Image>>)
    ensures r.Some? <==>
      (!p.isEmbedded && p.post.embed.Some?
       && (p.post.embed.value.Images? || (p.post.embed.value.RecordWithMedia? && p.post.embed.value.media.MediaImages?)))
    ensures r.Some? && p.post.embed.value.Images? ==> r.value == p.post.embed.value.images
    ensures r.Some? && p.post.embed.value.RecordWithMedia? ==> r.value == p.post.embed.value.media.images
  {
    if p.isEmbedded || p.post.embed.None? then None
    else match p.post.embed.value
      case Images(images) => Some(images)
      case RecordWithMedia(_, MediaImages(images)) => Some(images)
      case _ => None
  }

  /** One mounted `Post` and its state slots. */
  class PostView {
    const props: PostProps
    var profile: Slot<ResolvedProfile>
    var embeddedPost: Slot<EmbeddedPost>
    var parentPost: Slot<PostRecord>

    constructor (props: PostProps)
      ensures this.props == props
      ensures profile == EmptySlot() && embeddedPost == EmptySlot() && parentPost == EmptySlot()
    {
      this.props := props;
      profile, embeddedPost, parentPost := EmptySlot(), EmptySlot(), EmptySlot();
    }

    /** The parent effect: fetch the parent when `ParentRef` names one, and settle it behind
        the abort flag. */
    method RunParentEffect(lookup: StrongRef -> Result<PostRecord, string>, aborted: bool)
      modifies this`parentPost
      ensures ParentRef(props).None? ==> parentPost == old(parentPost)
      ensures ParentRef(props).Some? ==> parentPost == Deliver(old(parentPost), lookup(ParentRef(props).value), aborted)
    {
      var parent := ParentRef(props);
      if parent.None? {
        return;
      }
      match lookup(parent.value) {
        case Success(record) =>
          if !aborted {
            parentPost := parentPost.(value := Some(record));
          }
        case Failure(message) =>
          parentPost := parentPost.(error := Some(message));
      }
    }

    /** The profile effect: always fetch the profile of the post's host. */
    method RunProfileEffect(fetchProfile: string -> Result<ResolvedProfile, string>, aborted: bool)
      modifies this`profile
      ensures profile == Deliver(old(profile), fetchProfile(props.uri.host), aborted)
    {
      match fetchProfile(props.uri.host) {
        case Success(result) =>
          if !aborted {
            profile := profile.(value := Some(result));
          }
        case Failure(message) =>
          profile := profile.(error := Some(message));
      }
    }

    /** The quote effect: fetch the quoted post when `QuoteRef` names one, and keep it with the
        reference's URI. */
    method RunQuoteEffect(lookup: StrongRef -> Result<PostRecord, string>, aborted: bool)
      modifies this`embeddedPost
      ensures QuoteRef(props).None? ==> embeddedPost == old(embeddedPost)
      ensures QuoteRef(props).Some? ==>
        embeddedPost == Deliver(old(embeddedPost), Quoted(QuoteRef(props).value, lookup), aborted)
    {
      var quote := QuoteRef(props);
      if quote.None? {
        return;
      }
      match lookup(quote.value) {
        case Success(record) =>
          if !aborted {
            embeddedPost := embeddedPost.(value := Some(EmbeddedPost(quote.value.uri, record)));
          }
        case Failure(message) =>
          embeddedPost := embeddedPost.(error := Some(message));
      }
    }
  }

  /** The quote effect's outcome for `ref`, kept with the reference's URI. */
  function Quoted(ref: StrongRef, lookup: StrongRef -> Result<PostRecord, string>): Result<EmbeddedPost, string> {
    match lookup(ref)
    case Success(record) => Success(EmbeddedPost(ref.uri, record))
    case Failure(message) => Failure(message)
  }

  /** The posts a fully loaded `Post` shows: itself, the parent it renders in a thread, and
      the quoted post it renders embedded. */
  datatype ViewTree = ViewTree(props: PostProps, parent: Option<ViewTree>, quote: Option<ViewTree>)

  /** How far down the render tree a post can still start fetches: an embedded post none, a
      post without a reply only its quote, a reply its parent as well. */
  function Rank(p: PostProps): nat {
    if p.isEmbedded then 0 else if p.post.reply.Some? then 2 else 1
  }

  /** The tree a post renders once every effect has settled without being aborted. */
  function Settle(p: PostProps, lookup: StrongRef -> Result<PostRecord, string>): ViewTree
    decreases Rank(p)
  {
    var parentSlot := if ParentRef(p).Some? then Deliver(EmptySlot(), lookup(ParentRef(p).value), false) else EmptySlot();
    var quoteSlot := if QuoteRef(p).Some? then Deliver(EmptySlot(), Quoted(QuoteRef(p).value, lookup), false) else EmptySlot();
    var shape := SelectShape(p.post, parentSlot);
    ViewTree(
      p,
      if shape.Thread? then Some(Settle(PostProps(shape.parentUri, shape.parent, false), lookup)) else None,
      if quoteSlot.value.Some? then Some(Settle(PostProps(quoteSlot.value.value.uri, quoteSlot.value.value.record, true), lookup)) else None)
  }

  /** The post fetches one view starts: its parent and its quote. */
  function OwnFetches(p: PostProps): nat {
    (if ParentRef(p).Some? then 1 else 0) + (if QuoteRef(p).Some? then 1 else 0)
  }

  /** The post fetches of a whole render tree. */
  function TreeFetches(t: ViewTree): nat {
    OwnFetches(t.props)
    + (if t.parent.Some? then TreeFetches(t.parent.value) else 0)
    + (if t.quote.Some? then TreeFetches(t.quote.value) else 0)
  }

  function Depth(t: ViewTree): nat {
    var p := if t.parent.Some? then 1 + Depth(t.parent.value) else 0;
    var q := if t.quote.Some? then 1 + Depth(t.quote.value) else 0;
    if p < q then q else p
  }

  /** Recursion is capped however the posts refer to each other (a post may quote or reply to
      itself): a quoted post renders nothing more, a parent renders no parent of its own, so
      the tree is at most two levels deep and starts at most three post fetches (parent,
      quote, and the parent's quote). */
  lemma {:induction false} SettleIsBounded(p: PostProps, lookup: StrongRef -> Result<PostRecord, string>)
    ensures Depth(Settle(p, lookup)) <= Rank(p)
    ensures TreeFetches(Settle(p, lookup)) <= (if Rank(p) == 2 then 3 else Rank(p))
    decreases Rank(p)
  {
    var t := Settle(p, lookup);
    var quoteSlot := if QuoteRef(p).Some? then Deliver(EmptySlot(), Quoted(QuoteRef(p).value, lookup), false) else EmptySlot();
    assert t.quote.Some? ==> quoteSlot.value.Some?;
    var parentSlot := if ParentRef(p).Some? then Deliver(EmptySlot(), lookup(ParentRef(p).value), false) else EmptySlot();
    assert t.parent.Some? ==> SelectShape(p.post, parentSlot).Thread? && parentSlot.value.Some?;
    if t.parent.Some? {
      SettleIsBounded(t.parent.value.props, lookup);
    }
    if t.quote.Some? {
      SettleIsBounded(t.quote.value.props, lookup);
    }
  }

  /** A quoted post is a leaf: it fetches neither a parent nor a quote and renders no other post. */
  lemma QuotedPostIsLeaf(p: PostProps, lookup: StrongRef -> Result<PostRecord, string>)
    requires p.isEmbedded
    ensures OwnFetches(p) == 0
    ensures Settle(p, lookup).parent.None? && Settle(p, lookup).quote.None?
  {
  }

  /** The parent shown in a thread is not embedded and has no reply: it fetches no parent of
      its own but still fetches its own quote. */
  lemma {:induction false} ThreadParentFetchesOnlyItsQuote(p: PostProps, lookup: StrongRef -> Result<PostRecord, string>)
    requires Settle(p, lookup).parent.Some?
    ensures var parent := Settle(p, lookup).parent.value.props;
      && !parent.isEmbedded && ParentRef(parent).None?
      && (QuoteRef(parent).Some? <==> parent.post.embed.Some? && (parent.post.embed.value.Record? || parent.post.embed.value.RecordWithMedia?))
      && Settle(p, lookup).parent.value.parent.None?
  {
    var parentSlot := if ParentRef(p).Some? then Deliver(EmptySlot(), lookup(ParentRef(p).value), false) else EmptySlot();
    assert SelectShape(p.post, parentSlot).Thread?;
  }
}
