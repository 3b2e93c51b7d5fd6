/** The protocol's records as this app sees them, and the network calls it makes, as oracles.

    URIs, the record validators of the protocol library and the transport are foreign code:
    a URI is kept already split into its parts, a raw record value says which record type it
    carries and whether it conforms to that type's schema, and every network call is a total
    function from its request to either an answer or a failure message. */
module Records {

  datatype Option<+T> = None | Some(value: T) {
    function GetOr(default: T): T {
      if Some? then value else default
    }
  }

  datatype Result<+T, +E> = Success(value: T) | Failure(error: E) {
    function GetOr(default: T): T {
      if Success? then value else default
    }
  }

  /** An `at://host/collection/rkey` URI, split the way the protocol library's parser splits it. */
  datatype AtUri = AtUri(host: string, collection: string, rkey: string)

  /** The URI as text, as it appears in the error messages the app builds. */
  function UriString(u: AtUri): string {
    "at://" + u.host
    + (if u.collection == "" then "" else "/" + u.collection + (if u.rkey == "" then "" else "/" + u.rkey))
  }

  /** The URI of a whole repository, as the library's `AtUri.make(handle)` builds it. */
  function RepoUri(handle: string): AtUri {
    AtUri(handle, "", "")
  }

  /** A reference to one version of a record: its URI and, optionally, its content hash. */
  datatype StrongRef = StrongRef(uri: AtUri, cid: Option<string>)

  datatype ReplyRef = ReplyRef(parent: StrongRef, root: StrongRef)

  datatype Image = Image(blob: string, alt: string)

  /** The `record` part of a record-with-media embed: itself a record embed wrapping a reference,
      so the quoted reference is two steps down (`embed.record.record` in the app). */
  datatype RecordEmbed = RecordEmbed(record: StrongRef)

  datatype Media = MediaImages(images: seq<Image>) | MediaExternal(uri: string)

  datatype Embed =
    | Images(images: seq<Image>)
    | Record(record: StrongRef)
    | RecordWithMedia(quote: RecordEmbed, media: Media)
    | External(uri: string)

  datatype PostRecord = PostRecord(text: string, createdAt: string, reply: Option<ReplyRef>, embed: Option<Embed>)

  datatype ProfileRecord = ProfileRecord(displayName: Option<string>, avatar: Option<string>)

  const EmptyProfile := ProfileRecord(None, None)

  /** An untyped record value: its type tag picks the constructor (what `isRecord` checks);
      `conforms` says whether the rest of it matches the type's schema (what `validateRecord`
      checks). A value tagged as a like may still lack its `subject`. */
  datatype RawValue =
    | LikeValue(subject: Option<StrongRef>, conforms: bool)
    | PostValue(post: PostRecord, conforms: bool)
    | ProfileValue(profile: ProfileRecord, conforms: bool)
    | OtherValue(typeTag: string)

  /** How strictly a record is checked: by type tag alone, or by type tag and schema. */
  datatype Validation = TypeTagOnly | TypeTagAndSchema

  predicate Accepts(check: Validation, conforms: bool) {
    check == TypeTagOnly || conforms
  }

  /** The like schema requires the subject, so the schema check also rejects a like without one. */
  predicate IsLike(v: RawValue, check: Validation) {
    v.LikeValue? && Accepts(check, v.conforms && v.subject.Some?)
  }

  predicate IsPost(v: RawValue, check: Validation) {
    v.PostValue? && Accepts(check, v.conforms)
  }

  predicate IsProfile(v: RawValue, check: Validation) {
    v.ProfileValue? && Accepts(check, v.conforms)
  }

  const LikeCollection := "app.bsky.feed.like"
  const ProfileCollection := "app.bsky.actor.profile"
  const SelfKey := "self"
  const PageSize := 5

  datatype ListRequest = ListRequest(repo: string, collection: string, limit: nat, cursor: Option<string>)

  datatype ListedRecord = ListedRecord(uri: AtUri, value: RawValue)

  datatype Listing = Listing(records: seq<ListedRecord>, cursor: Option<string>)

  datatype GetRecordRequest = GetRecordRequest(repo: string, collection: string, rkey: string, cid: Option<string>)

  datatype Fetched = Found(uri: AtUri, value: RawValue) | FetchFailed(message: string)

  /** The remote service, as oracles. Each call takes the service URL first. A failed call
      yields the message of the error it would throw. */
  datatype Network = Network(
    listRecords: (string, ListRequest) -> Result<Listing, string>,
    getRecord: (string, GetRecordRequest) -> Fetched,
    describeRepo: (string, string) -> Result<string, string>)

  /** A profile as the app keeps it: the profile record's URI, the author's handle and the record. */
  datatype ResolvedProfile = ResolvedProfile(uri: AtUri, handle: string, profile: ProfileRecord)

  /** The request that fetches the record a URI names, pinned to `cid` when one is given. */
  function RecordRequest(uri: AtUri, cid: Option<string>): GetRecordRequest {
    GetRecordRequest(uri.host, uri.collection, uri.rkey, cid)
  }

  /** The request for a repository's own profile record. */
  function ProfileRequest(repo: string): GetRecordRequest {
    GetRecordRequest(repo, ProfileCollection, SelfKey, None)
  }

  /** JavaScript truthiness of an optional string: absent and empty are both false. */
  predicate Truthy(s: Option<string>) {
    s.Some? && s.value != ""
  }
}
