# Liked-posts timeline: a Dafny model

This project models the core of a small web client for a federated social network. The
client shows the posts an account has liked. It lists the account's like records a page at
a time, then fetches each liked post. Each post view makes its own follow-up fetches: the
author's profile (through a cache), the parent the post replies to, and the post it quotes.
Scrolling near the bottom loads the next page after the listing's cursor.

The repository has two versions of this logic, and both are modelled:

- `src/App.tsx` is the older, self-contained version (module `App`). It talks to one fixed
  service, `https://bsky.social`. It checks every record by type tag and by schema. Its profile
  cache is a module-level dictionary of promises.
- `src/utils/api.ts` (module `Api`) and `src/components/Post.tsx` (module `PostComponent`) are
  the newer version. They take the service as an argument and check records by type tag only.
  The profile lookup is memoised by a library wrapper, keyed on its arguments.
- `src/components/RichText.tsx` (module `RichText`) turns the segments of a post's text into
  rendered nodes.

Shared pieces:

- `Records` holds the record and request types and the network as three oracle functions.
- `Resolve` is the like-page and post-fetch logic both versions share. It is parameterised by
  the validation mode and the service.
- `Memo` is insert-once memoisation, used by both profile caches.
- `Views` holds state slots filled behind an abort flag, and the reply-thread shape.

How the model is built:

- Pure code is written as functions with lemmas.
- Code that changes state step by step is written as classes with methods: the caches, the
  `App` component's pagination state and the post views' effects. The rich-text loop is the
  method `RichText.Render`.
- Each method is proved against a specification function, and the lemmas state the
  properties of that function.

The model follows the code as written, including these behaviours:

- An effect's error handler writes its error even after the effect was aborted. Only
  successes are behind the abort flag (`Views.Deliver`).
- The profile caches are never cleared or invalidated, and a cached rejection stays for the
  rest of the process (`App.FirstLookupIsFinal`).
- A failed page load discards the whole accumulated timeline, including earlier pages.

Behaviour of the code worth knowing, all modelled as written:

- **Plain quotes show nothing in App.tsx.** Its `Post` shows a quoted post only for a
  record-with-media embed. A plain record embed shows nothing (`App.EmbedRef`).
- **App.tsx's profile fallback ignores the abort flag.** When the cached profile lookup
  rejects, its `Post` asks the directory for the host's handle. It then writes an empty
  profile under that handle without checking the abort flag
  (`App.PostView.RunProfileEffect`).
- **App.tsx's `PostEmbed` lets an error win.** A fetch error takes priority over a loaded post
  (`App.SelectEmbedShape`). In a thread, a loaded parent takes priority over an error.
- **One like without a subject sinks a page in api.ts.** `fetchLikedPosts` checks only a
  record's type tag, then reads the subject's URI synchronously inside `records.map`. A
  like-tagged record without a subject throws there and rejects the whole page, whatever the
  other records hold (`Api.FetchLikedPosts`). App.tsx's schema check turns such a record into
  an error entry instead (`Resolve.SchemaCheckNeverThrows`).
- **Scrolling keeps loading the handle of the render that installed the listener.** The listener
  calls the `load` of the render in which the cursor last changed. After the handle field is
  edited, a scroll still loads the earlier handle's likes after its cursor and appends them to
  that render's timeline (`App.App.OnScroll`).
- **A repeated cursor stops infinite scroll.** The scroll listener is re-installed only when the
  cursor value changes. If the service returns the same cursor again, the old listener stays,
  with its `fetchingMore` flag set, and scrolling loads nothing more (`App.App.OnScroll`).
- **App.tsx's profile lookup reads the record's host.** It asks the directory about the host of
  the fetched profile record's URI, not the repository it was asked for
  (`App.LookupProfile`).
- **An empty string counts as absent.** JavaScript truthiness is modelled by `Truthy`: an empty
  cursor or an empty error message is treated as missing.

## Model

| member | source | states |
|---|---|---|
| Resolve.ResolveLike | src/utils/api.ts:50-69 | Resolution throws exactly when a record passing the like check has no subject, with the runtime's missing-property error. A non-like gives an error entry naming the like's own URI. Otherwise the entry shows a post exactly when the subject fetch answers a valid post. A shown post carries the answered URI and record. A fetched non-post gives "Invalid post record" naming the answered URI. A failed fetch gives the subject's URI and the failure message. |
| Resolve.ResolveLikes | src/utils/api.ts:49-71 | One entry per listed record, in listing order; entry `i` is the resolution of record `i`. |
| Resolve.FetchLikePage | src/utils/api.ts:29-77 | A failed listing fails the page with its error. Under the type-tag check, so does a like-tagged record with no subject, with the missing-property error. Otherwise the page keeps the listing's cursor and has one entry per record, each the resolution of that record. |
| Resolve.FetchPost | src/utils/api.ts:110-126 | Succeeds exactly when the answer is a valid post, with that record. A fetched non-post fails with "Invalid post record" and the requested URI. A transport failure keeps its message. |
| Resolve.InvalidLikeFetchesNothing | src/utils/api.ts:51-53 | A record that is not a like resolves the same under any two networks: no fetch is made for it. |
| Resolve.ItemIsolation | src/utils/api.ts:49-71 | Entry `i` depends only on record `i`'s own subject fetch, whatever the other fetches answer. |
| Resolve.LikeAgreesWithFetchPost | src/utils/api.ts:56-69 | Resolving a like shows a post exactly when `FetchPost` of its subject succeeds, with the same record and, on transport failure, the same error. |
| Resolve.SchemaCheckIsStricter | src/App.tsx:53-72 | A like that resolves under type tag and schema resolves to the same entry under the type tag alone. |
| Resolve.SchemaCheckNeverThrows | src/App.tsx:53-72 | Under the type-tag and schema checks, a page fails exactly when the listing fails: a like without a subject is turned into an error entry, never a rejection. |
| Api.FetchLikedPosts | src/utils/api.ts:29-77 | A failed listing fails the page with the listing's error. Otherwise the page fails exactly when some like-tagged record has no subject, with the missing-property error. A page that succeeds keeps the listing's cursor and has one entry per record. Each entry is that record's `ResolveLike` under the type-tag check. A non-like record is an "Invalid like record" error on its own URI. A like shows a post exactly when its subject answers with a post-tagged record; schemas are not checked. |
| Api.FetchPost | src/utils/api.ts:110-126 | The value exactly when the answer is tagged as a post. Otherwise "Invalid post record" with the requested URI, or the transport error. The content hash is passed to the request. |
| Api.ResolveProfile | src/utils/api.ts:82-107 | Never fails. A valid fetched profile gives its URI and record. Otherwise the result is the repository's own URI and an empty profile. The handle is the directory's answer for the resulting URI's host, or the input handle when the directory fails. |
| Api.FallbackAsksDirectoryForInputHandle | src/utils/api.ts:95-105 | On the fallback path, the directory is asked about the input handle itself. |
| Api.ProfileMemo.FetchProfile | src/utils/api.ts:79-108 | The memo's new cache and answer are one insert-once lookup of the (handle, service) key, with the uncached profile lookup as the value to store. |
| Api.MemoIsTransparent | src/utils/api.ts:79-108 | Over any run of calls on an unchanging network, every call returns what an uncached lookup would. Each distinct key is computed exactly once. |
| Memo.Lookup | src/App.tsx:99-127 | The key is stored and the answer is its stored value. Earlier entries are kept unchanged, and exactly the asked key is added. A key not yet stored gets the freshly computed value. |
| Memo.CallsKeepEntries | src/App.tsx:99-127 | A run of calls never replaces or removes an entry, and adds exactly the keys asked for. |
| Memo.CallsShareResults | src/utils/api.ts:79-108 | Every call for a key gets the single value stored for that key at the end of the run. |
| Memo.FirstCallWins | src/App.tsx:100-101 | The first call for a key not yet stored decides the result of every later call for that key, whatever later computations would give. |
| Memo.CallsComputeOncePerKey | src/App.tsx:99-127 | A run computes exactly once for each key it asks for that was not already stored. |
| App.LoadLikes | src/App.tsx:34-82 | A page fails exactly when the listing fails, with the listing's error. It keeps the listing's cursor and has one entry per record. Each entry is that record's `ResolveLike` under the type-tag and schema checks. An entry shows a post exactly when the like passes both checks, has its subject, and the fetched record is a post passing both checks. |
| App.FetchPost | src/App.tsx:129-146 | The value exactly when the fetched record passes both checks. A transport failure rejects with the transport's message. Any other answer rejects with "Invalid post record" and the requested URI. |
| App.LookupProfile | src/App.tsx:101-124 | Rejects with the transport error, or with "Invalid profile record" and the fetched URI. Otherwise it resolves to the fetched URI and profile. The handle is the directory's answer for that URI's host, or the repository. |
| App.ProfileCache.FetchProfile | src/App.tsx:99-127 | The dictionary's new contents and answer are one insert-once lookup of the repository, with the uncached lookup as the value to store. |
| App.FirstLookupIsFinal | src/App.tsx:99-127 | The network may answer differently per call, yet every call for a repository returns what its first lookup settled to, a rejection included. Each distinct repository is fetched once. |
| App.App.constructor | src/App.tsx:587-592 | Starts idle, with the default handle, no error, no likes, no cursor and no scroll listener. |
| App.App.SetProfileHandle | src/App.tsx:660 | The handle becomes the input's value. |
| App.App.CommitCursor | src/App.tsx:622-641 | The cursor is replaced. The scroll listener is rebuilt only when the cursor value changed: fresh while a cursor is set, none otherwise. A fresh listener holds the current handle and timeline. A listener exists exactly while a cursor is set. |
| App.App.Load | src/App.tsx:594-611 | `load` of a render with a given handle and timeline. It fetches that handle's page. On success, the likes are that timeline plus the new ones when a cursor was passed, else just the new ones; the cursor is the page's and the error is cleared. On failure: no likes, no cursor, and the failure message. The listener invariant is kept. |
| App.App.OnSubmit | src/App.tsx:613-620 | Loads the current handle's first page from scratch, replacing the timeline, and ends with the spinner off. The scroll listener is kept when the cursor is unchanged and is otherwise a fresh one for the new cursor. |
| App.App.OnScroll | src/App.tsx:622-634 | Fires exactly when a listener exists, has not fired yet and the page is near its bottom. Firing loads, after the current cursor, the likes of the handle the listener captured, and appends them to the timeline it captured, even if the handle was edited since. A successful load clears the error. If the cursor comes back unchanged, the listener stays spent; if it changes, the listener is a fresh one for the new cursor. Otherwise nothing changes. |
| App.EmbedRef | src/App.tsx:366-383 | A quote is shown exactly for a record-with-media embed, using its record's reference. |
| App.ShownImages | src/App.tsx:366-376 | Images are shown for an images embed, or for a record-with-media embed whose media is images, with those images. |
| App.PostView.RunParentEffect | src/App.tsx:278-300 | Only a reply fetches its parent, pinned to the parent's content hash. A success is stored unless aborted, and an error always. |
| App.PostView.RunProfileEffect | src/App.tsx:302-331 | Goes through the cache. A resolved profile is stored unless aborted. A rejection falls back to the directory: an empty profile under the host's handle, stored even if aborted, or the directory's error. |
| App.SelectEmbedShape | src/App.tsx:502-514 | A non-empty fetch error is shown in preference to a loaded post. Nothing is shown until the post loads. |
| App.PostEmbedView.RunPostEffect | src/App.tsx:463-480 | Fetches the referenced post with its content hash. A success is stored unless aborted, and an error always. |
| App.PostEmbedView.RunProfileEffect | src/App.tsx:482-500 | Goes through the cache. A resolved profile is stored unless aborted, and a rejection's message always. |
| App.SettleIsBounded | src/App.tsx:394-407 | A shown parent has no reply and renders no parent of its own. A settled post starts at most three post fetches. |
| Views.Deliver | src/components/Post.tsx:103-111 | A success reaches the slot only when not aborted. A failure's message is written even when aborted, and the value is left as it was. |
| Views.AbortedSlotKeepsValue | src/components/Post.tsx:119-137 | After an abort, no number of late successes changes the slot's value. With only successes, the slot is untouched. |
| Views.SelectShape | src/components/Post.tsx:257-284 | A thread exactly when the post is a reply and its parent loaded; the parent is shown under its reference's URI with its reply cleared. Otherwise a non-empty parent error is shown above the post, or the post stands alone. |
| Views.AuthorLabel | src/components/Post.tsx:186-191 | The display name, else the handle, while a profile is loaded; the URI's host before that. |
| Views.AuthorLinkTarget | src/components/Post.tsx:188 | The author link points at the loaded profile's handle, else at the URI's host. |
| App.EmbedAuthorLabel | src/App.tsx:529 | The embed's author label is the display name when the loaded profile has one, else the URI's host. |
| App.EmbedLabelSkipsHandle | src/App.tsx:529 | For a loaded profile without a display name, the embed shows the host where the post view shows the handle. |
| PostComponent.ParentRef | src/components/Post.tsx:95-98 | A parent is fetched exactly when the post is not embedded and is a reply, using the reply's parent reference. |
| PostComponent.QuoteRef | src/components/Post.tsx:139-153 | A quote is fetched exactly when the post is not embedded and embeds a record or a record with media. The reference is `embed.record` or `embed.record.record` respectively. |
| PostComponent.ShownImages | src/components/Post.tsx:210-223 | Images are shown exactly for a post that is not embedded and has an images embed, or record-with-media with images media. |
| PostComponent.PostView.RunParentEffect | src/components/Post.tsx:95-117 | The parent named by `ParentRef` is fetched. A success is stored unless aborted, and an error always. Otherwise the slot is untouched. |
| PostComponent.PostView.RunProfileEffect | src/components/Post.tsx:119-137 | The host's profile is fetched. A success is stored unless aborted, and an error always. |
| PostComponent.PostView.RunQuoteEffect | src/components/Post.tsx:139-175 | The post named by `QuoteRef` is fetched and kept with the reference's URI. A success is stored unless aborted, and an error always. |
| PostComponent.SettleIsBounded | src/components/Post.tsx:224-269 | However posts refer to each other, the settled render tree is at most two levels deep and starts at most three post fetches. |
| PostComponent.QuotedPostIsLeaf | src/components/Post.tsx:224-231 | A quoted post is rendered embedded: it fetches nothing and renders no other post. |
| PostComponent.ThreadParentFetchesOnlyItsQuote | src/components/Post.tsx:257-269 | A thread's parent is not embedded and has no reply. It fetches no parent of its own, but still fetches its quote. |
| RichText.Render | src/components/RichText.tsx:13-39 | The loop with its shared key counter produces exactly the nodes of the segment-by-segment specification. |
| RichText.JoinSplit | src/components/RichText.tsx:30-36 | Joining a plain segment's lines with newlines gives back its text. |
| RichText.SplitShape | src/components/RichText.tsx:30-36 | There is one more line than there are newlines, and no line contains a newline. |
| RichText.SplitJoin | src/components/RichText.tsx:30-36 | Lines without newlines come back unchanged from splitting their join. |
| RichText.KeysAreConsecutive | src/components/RichText.tsx:15-35 | Anchors and breaks take the keys 0, 1, 2, … in node order, one each, and as many as the counter counts. |
| RichText.KeysAreDistinct | src/components/RichText.tsx:15-35 | Keys strictly increase along the nodes, so no two keyed nodes share one. |
| RichText.RenderKeepsText | src/components/RichText.tsx:16-37 | Reading the nodes back, with a newline for each break, gives exactly the segments' texts in order. |
| RichText.AnchorsFollowLinks | src/components/RichText.tsx:17-28 | One anchor per link or mention segment, in segment order. A link's anchor points at its target, a mention's at `<web app>/profile/<did>`. Plain text makes no anchors. |
| RichText.PlainSegmentRendering | src/components/RichText.tsx:29-37 | A plain segment renders as its lines in order, with one break per newline. Its runs join back to its text. A text without a newline is one text node. |

## Left out

- Network transport, authentication and the agent objects are out of scope. The three calls (list records, get record, describe repository) are oracle functions of their request, and a failure is their error message.
- Concurrency and promise scheduling are not modelled. `Promise.all` over a page's records is a sequential map whose results are in listing order, which is what it returns. A cancelled effect is a boolean abort flag read when the fetch settles.
- React rendering and effect timing, JSX markup, CSS classes, avatars and `getBlobURL` are not modelled. The scroll position test (`scrollHeight - scrollY < 2000`) is the `nearBottom` argument of a scroll event.
- Relative dates (`getRelativeDate` and `src/utils/datetime.ts`) read the wall clock and format through `Intl`, so they are left out. So is `FriendlyError`.
- Record validators, AT-URI parsing and the rich-text library's segmentation by facets are library code. A record carries its type tag and a `conforms` flag for the schema check. A URI is its (host, collection, record key) triple. Segments are the input to `RichText.Render`.
- The web app's base URL comes from `src/utils/constants.ts`, which is not part of this model. It is the `webApp` parameter.
- `RichTextRenderer` in `src/App.tsx` is the same loop as `src/components/RichText.tsx` with the base URL written in, so it is modelled once.
- `Post.tsx` calls `fetchPost` and `fetchProfile` with argument lists that do not match `api.ts`: the content hash lands in the service position and no service is passed. Its fetches are therefore abstract lookups by reference (`lookup`, `fetchProfile` parameters). No claim is made that `Post.tsx` passes a content hash through.
- Api.FetchLikedPosts: a subject whose URI string does not parse as an AT URI would also make the page reject; URIs are kept already parsed here, so only a missing subject is modelled as throwing.
- App.App.Load: each call settles before the next event, so two loads in flight at once, and typing while a load is pending, are not modelled. A load settling after newer renders would still append to the timeline of the render that started it.
- PostComponent.PostView.RunQuoteEffect: the effect's dependency list holds only the embed's kind, so a changed reference of the same kind does not re-fetch. Effect re-runs are not modelled.
- The `className` prop, the post link and the author handle badge are markup and are left out.
