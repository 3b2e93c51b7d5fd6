/** What the two post components (`Post` in `src/App.tsx` and in `src/components/Post.tsx`)
    have in common: state slots that a fetching effect fills behind an abort flag, the choice
    of what to render around a reply, and the author label. */
module Views {
  import opened Records

  /** One piece of component state an effect fills: the value it fetched (`useState(null)`
      until set) and the message of the error it caught. */
  datatype Slot<T> = Slot(value: Option<T>, error: Option<string>)

  function EmptySlot<T>(): Slot<T> {
    Slot(None, None)
  }

  /** An effect's fetch settles. A success is written only if the effect's abort controller
      has not been aborted (the component was not torn down or re-run first); the error
      handler writes the failure's message whether aborted or not. */
  function Deliver<T>(s: Slot<T>, outcome: Result<T, string>, aborted: bool): (r: Slot<T>)
    ensures aborted || outcome.Failure? ==> r.value == s.value
    ensures !aborted && outcome.Success? ==> r.value == Some(outcome.value)
    ensures r.error == (if outcome.Failure? then Some(outcome.error) else s.error)
  {
    match outcome
    case Success(v) => if aborted then s else s.(value := Some(v))
    case Failure(message) => s.(error := Some(message))
  }

  /** Several settlements in a row. */
  function DeliverAll<T>(s: Slot<T>, outcomes: seq<Result<T, string>>, aborted: bool): Slot<T>
    decreases |outcomes|
  {
    if outcomes == [] then s else DeliverAll(Deliver(s, outcomes[0], aborted), outcomes[1..], aborted)
  }

  /** After an abort, no successful fetch is ever observable in the slot, however many settle
      late; only caught errors still reach it, the last one winning. */
  lemma {:induction false} AbortedSlotKeepsValue<T>(s: Slot<T>, outcomes: seq<Result<T, string>>)
    ensures DeliverAll(s, outcomes, true).value == s.value
    ensures (forall i :: 0 <= i < |outcomes| ==> outcomes[i].Success?) ==> DeliverAll(s, outcomes, true) == s
    decreases |outcomes|
  {
    if outcomes != [] {
      AbortedSlotKeepsValue(Deliver(s, outcomes[0], true), outcomes[1..]);
      assert forall i :: 0 <= i < |outcomes[1..]| ==> outcomes[1..][i] == outcomes[i + 1];
    }
  }

  /** How a post is rendered around its reply parent. */
  datatype Shape =
    | Thread(parentUri: AtUri, parent: PostRecord)  // the parent above the post
    | ParentFailed(message: string)                 // the parent's error above the post
    | Alone                                         // the post by itself

  /** A thread needs a reply and a loaded parent; failing that, a reply and a (non-empty)
      parent error show the error; otherwise the post stands alone. A loaded parent wins over
      an error. The parent is shown under its reference's URI with its own reply cleared, so
      it looks up no parent of its own. */
  function SelectShape(post: PostRecord, parent: Slot<PostRecord>): (r: Shape)
    ensures r.Thread? <==> post.reply.Some? && parent.value.Some?
    ensures r.Thread? ==> r.parentUri == post.reply.value.parent.uri && r.parent == parent.value.value.(reply := None)
    ensures r.ParentFailed? <==> post.reply.Some? && parent.value.None? && Truthy(parent.error)
    ensures r.ParentFailed? ==> r.message == parent.error.value
  {
    if post.reply.Some? && parent.value.Some? then
      Thread(post.reply.value.parent.uri, parent.value.value.(reply := None))
    else if post.reply.Some? && Truthy(parent.error) then
      ParentFailed(parent.error.value)
    else
      Alone
  }

  /** The author's name: the profile's display name, else its handle, else the URI's host
      while no profile is loaded. */
  function AuthorLabel(profile: Option<ResolvedProfile>, host: string): (r: string)
    ensures profile.None? ==> r == host
    ensures profile.Some? ==> r == profile.value.profile.displayName.GetOr(profile.value.handle)
  {
    match profile
    case None => host
    case Some(p) => if p.profile.displayName.Some? then p.profile.displayName.value else p.handle
  }

  /** Whom the author link points at: the loaded profile's handle, else the URI's host. */
  function AuthorLinkTarget(profile: Option<ResolvedProfile>, host: string): (r: string)
    ensures profile.Some? ==> r == profile.value.handle
    ensures profile.None? ==> r == host
  {
    if profile.Some? then profile.value.handle else host
  }
}
