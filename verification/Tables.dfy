/** The registry's tables as values, one map or sequence per table. */
module Tables {
  import opened Basics
  import opened Semver

  /** Microseconds since Go's zero time, the resolution the database keeps. */
  type Time = nat

  /** The Unix epoch on that scale. */
  const EPOCH: Time := 62135596800000000

  datatype Person = Person(name: string, email: string)

  /** Who stands behind an app: the five manifest keys a publish hoists onto the app row. */
  datatype Credits = Credits(authors: seq<Person>, maintainers: seq<Person>,
                             repository: string, homepage: string, license: string)

  const NO_CREDITS := Credits([], [], "", "", "")

  datatype ExternalSpec = ExternalSpec(launchUrl: string, ssoClientId: string, scopes: seq<string>,
                                       embed: string, healthUrl: string)

  datatype Manifest = Manifest(id: string, version: SemVer, kind: string, platform: string,
                               credits: Credits, external: Option<ExternalSpec>, rest: string)

  /** The columns of an app that the catalogue serves. */
  datatype Listing = Listing(slug: string, name: string, description: string, iconUrl: string,
                             category: string, visibility: string)

  datatype App = App(publisher: string, kind: string, listing: Listing, credits: Credits,
                     createdAt: Time, updatedBy: Option<string>, updatedAt: Time)

  datatype Text = Text(name: string, description: string, category: string)

  datatype Status = Draft | InReview | Published | Rejected | Yanked

  /** One version row. `decodes` says whether the stored manifest is one the builder can decode;
      a manifest that arrived through a submission always is. */
  datatype Release = Release(app: string, number: SemVer, channel: string, constraint: string,
                             manifest: Manifest, decodes: bool, status: Status, submittedBy: string,
                             note: string, publishedAt: Option<Time>, createdAt: Time)

  datatype External = External(launchUrl: string, ssoClientId: string, scopes: seq<string>,
                               embed: string, healthUrl: string, webhookUrl: string)

  datatype Event = Event(id: string, version: string, actorId: Option<string>, actor: string,
                         action: string, note: string, at: Time)

  datatype Publisher = Publisher(tenant: string, slug: string, name: string, email: string,
                                 verified: bool, updatedAt: Time)

  datatype Platform = Platform(name: string, digest: string, enabled: bool)

  /** Texts are held per app, then per locale; grants are pairs (app, platform). */
  datatype Store = Store(revision: nat,
                         publishers: map<string, Publisher>,
                         apps: map<string, App>,
                         releases: map<string, Release>,
                         texts: map<string, map<string, Text>>,
                         externals: map<string, External>,
                         events: seq<Event>,
                         platforms: map<string, Platform>,
                         grants: set<(string, string)>)

  const EMPTY_STORE := Store(0, map[], map[], map[], map[], map[], [], map[], {})

  function TextsOf(texts: map<string, map<string, Text>>, app: string): map<string, Text>
  {
    if app in texts then texts[app] else map[]
  }

  /** Everything a catalogue can show: listings, texts and the published releases. */
  datatype Face = Face(listings: map<string, Listing>,
                       texts: map<string, map<string, Text>>,
                       published: map<string, Release>)

  function FaceOf(s: Store): Face
  {
    Face(map a | a in s.apps :: s.apps[a].listing,
         s.texts,
         map v | v in s.releases && s.releases[v].status == Published :: s.releases[v])
  }

  /** Every published row carries a publication time, and none from before 1970. */
  ghost predicate Dated(f: Face)
  {
    forall v :: v in f.published ==>
      f.published[v].publishedAt.Some? && f.published[v].publishedAt.value >= EPOCH
  }

  /** No two published rows of one app and channel share both rank and publication time. */
  ghost predicate NoTwins(f: Face)
  {
    forall u, v :: u in f.published && v in f.published && u != v
      && f.published[u].app == f.published[v].app && f.published[u].channel == f.published[v].channel
      && SameRank(f.published[u].number, f.published[v].number)
      ==> f.published[u].publishedAt != f.published[v].publishedAt
  }
}
