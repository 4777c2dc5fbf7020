# App Store registry: a verified model

The App Store registry keeps apps, their versions and who may see them in a database, and serves
each Nexus instance a signed catalogue. This project models its logic in Dafny and proves what the
code and its comments promise of it.

**What is modelled.**

- *The catalogue builder* (`Catalogue`): which version of which app a request is offered, given
  channel, platform version and grants; the row loop that finds out; the sort; the signed document
  (`Wire`); version precedence (`Semver`, section 11 of Semantic Versioning 2.0.0).
- *The writers* (`Review`, `RegistryStore`): registering apps, submitting versions, deciding on
  them, publishers, platforms, grants. Each transaction is a function on the tables, and a method of
  the class `Registry` is proved to commit exactly that function's result or to change nothing.
- *The caches and endpoints* (`Service`, `Statements`, `Caching`, `Headers`): `CatalogService` and the
  handlers in the code's own steps, one request at a time.
- *Concurrency* (`Protocol`): any number of requests in flight, each database statement a step of
  its own, with transactions, imports, discards and restarts committing in between. The state keeps
  every committed version of the tables, so that one can ask which of them a document was read from.
- *The importer* (`Importer`): find-or-create, upsert and copy-on-absent in one transaction.

**How the pieces fit.** The builder's specification is declarative (`IsPick`: for every app the
highest-precedence eligible version, the earliest published among equals; `IsNewest`: the time
stamp; `IsBuild`: the document). The methods of `Catalogue` are proved against it, and the steps of
`Protocol` are the contracts of those methods; `Steps` runs the methods on the versions of the tables
a request reads and proves that each ends in a stage `Protocol` allows. `Documents` gives a second
account of a signed document, written on the tables' own columns without the builder's vocabulary, and
proves that the builds are exactly the documents it describes; `Effects` and `Arrivals` do the same for
the registry's transactions and the import of a publisher, in the literal actions, defaults and role
codes of the interface. `IsBuild` is a relation because
the code leaves a tie to the database (equal precedence, published in the same microsecond); `CatalogueLaws.UniqueBuild`
shows it determines the document byte for byte where there is no such tie, and
`StoreLaws.TickingRunsAreDetermined` that runs with a ticking clock have none.

**What is assumed.** JSON encoding, RFC 3339 formatting, Ed25519, SHA-256, semver and constraint
parsing and the contract package's validators are fields of the datatype `Rules`; every law holds
for any such functions, and the few that need one to be what its name says (a signature that
verifies, an encoder that tells entry lists apart) say so in a `requires`. The uniqueness of version
numbers per app, of slugs and of publishers' tenants comes from the core's migration 00038, which is
not part of this model; each is an explicit failing branch, and `KeyLaws` proves every transaction
keeps them. Only the laws that `generated_at` does not move back take published rows to carry a
publication time (`Dated`): `StoreLaws.ExecKeepsDated` proves the registry keeps that, and an import
keeps it if its source does. The laws of whole runs start from tables whose trail and references are in
step (`ReviewLaws.ExecKeepsTrail`), as every run from an empty registry leaves them.

**What turned out not to hold as stated, and what does.**

- An entity tag may contain commas (section 8.8.3 of RFC 9110), but `etagMatches` splits at every comma.
  A list holding only the tag `"a,*,b"` therefore matches everything
  (`Headers.AsteriskInsideATagMatches`). `Headers.EtagListMatches` gives the exact condition.
- A private app is meant not to show in the anonymous catalogue. It can, in three ways, each shown by a
  pair of runs from the same registry: through its slug, which is unique over public and private apps
  alike, so that a public app can no longer be registered under it (`NonInterference.PrivateSlugShows`);
  through its id, when a publisher registers a public app under an id another one holds privately
  (`PrivateIdShows`); and by being made public, when what was published while it was private comes to
  light (`OpenedAppShows`). There is no fourth: `CommonTransactionsEndAlike` and
  `CommonTransactionsShowAlike` say exactly when a transaction ends, and shows, differently in two
  registries with the same public part, whatever their other rows, by a condition on the tables before
  it; `RunsLookAlikeExactly` says the same of whole runs, and `PrivateStepsDoNotShow` concludes that
  runs within that condition end with the same anonymous documents.
- The comment on private snapshots says a revocation takes effect with its discard. It does not if a
  request of that platform is at work meanwhile and stores its document afterwards:
  `AccessRuns.RevokedAppIsServed` constructs, for any tables with a private app granted beside
  another, a run in which a request that starts after the revocation and its discard is answered
  with a document that lists the app and is no build for the grants that are left.
  `AccessRuns.RevokedAppIsServedHere` reaches such tables from an empty registry by eight transactions.
  `AccessLaws.OverlapExactlyWrong` and `AccessLaws.PrivateRowsExactlyRight` give the exact condition,
  for overlap at any stage: a row at the current revision is right if and only if no app whose grant
  changed since its builder resolved the grants is private with a release to offer there.
  `ProtocolLaws.PrivateCacheIsCoherent`, `AccessLaws.QuietPlatformsGetTheBuild` and
  `AccessLaws.RevokedAppsAreNotServed` are the guarantees for runs in which no request of the platform is at
  work when a discard of its rows comes. The discard may come any time after the change; until it has
  come, nothing is claimed of that platform.
- A discard that fails is only logged. The contracts of `Service.Module.HandleGrant` and `HandleRevoke`
  say exactly when the caches are right nevertheless, and `HandleSetPlatformEnabled` needs no discard:
  enabling and disabling leave the grants, hence every row, as they are.
- `generated_at` is meant to be the newest publication in the document. It is not if an undated
  release is offered in place of a dated one of lower rank. `StampLaws.StampIsShownExactly` gives the
  exact condition on the tables: the apps whose highest dated release is the latest publication of all
  are each overtaken by an undated release of strictly higher rank. Only an import brings undated
  releases, and one does so here (`StampLaws.UndatedReleaseMisdates`). `Catalogue.Select` says
  what the stamp is in every case.
- The importer's comment says somebody can act for a publisher the moment the import finishes. The
  import makes tenants but no roles: an owner can act if and only if the tenant has an admin role
  (`ImporterEffects.OwnersActWhereRolesAre`), so for a tenant it had to make nobody can, unless the
  core gives new tenants roles by means that are not part of this model
  (`ImporterEffects.FreshTenantsHaveNoActors`).
- "Safe to run twice" holds but for two columns: the second run moves the revision and touches the
  publishers' edit times (`ImporterLaws.ImportIsIdempotent`).

## Model

| member | source | states |
|---|---|---|
| Semver.Trichotomy | modules/registry/catalog.go:293-295 | exactly one of lower, higher and same rank holds of any two versions, build metadata ignored |
| Semver.StrictWeakOrder | modules/registry/catalog.go:293-295 | the order the selection loop relies on is irreflexive and transitive, and rank is an equivalence it respects on both sides |
| Semver.PrecedenceIsSection11 | modules/registry/catalog.go:293-298 | a version is lower exactly as section 11 of Semantic Versioning has it: the first of major, minor, patch that differs decides; a pre-release is below its release; of two pre-releases the first differing identifier decides, numbers by number and below words, words by character, a list below its extensions |
| Semver.PreReleasesAreLower | modules/registry/catalog.go:293-298 | every pre-release is below its release, and below itself with more identifiers |
| Semver.NumbersRankByNumber | modules/registry/catalog.go:293-298 | after a common beginning numeric identifiers rank by number and below alphanumeric ones, whatever follows |
| Semver.ExamplesOfSection11 | modules/registry/catalog.go:293-298 | the two chains of examples in section 11 |
| Wire.FrameIsUnique | modules/registry/catalog.go:62-74 | for newline-free stamps the signed message determines the stamp and the apps bytes |
| Wire.SignedDocumentsVerify | modules/registry/catalog.go:345-375 | the stamp on the wire is that of the newest publication, the epoch for none, under the key's id; what is signed is what is embedded: under a sound scheme the pinned public key accepts every document produced, and another stamp or apps text accepted with the same signature is a forgery |
| Catalogue.Select | modules/registry/catalog.go:263-305 | the row loop ends with a winner for every app that has an eligible version and for no other, each app once in order; the stamp is the newest publication of the selection among dated rows, and of the survivors when all rows are dated; it fails exactly when some eligible manifest does not decode |
| Catalogue.PickGrows | modules/registry/catalog.go:280-298 | one more row keeps the selection a winner per app among the rows seen, replacing only on strictly higher precedence |
| Catalogue.NewestGrows | modules/registry/catalog.go:263-301 | because rows of an app come in order of publication, the running maximum stays attained by a survivor although it is also raised by versions superseded later |
| Catalogue.Insert | modules/registry/catalog.go:329 | an entry put where its id belongs keeps the list strictly ascending and loses nothing |
| Catalogue.SortById | modules/registry/catalog.go:329 | the result is strictly ascending by id and holds exactly the same entries |
| Catalogue.SortedEntriesUnique | modules/registry/catalog.go:306-329 | any ascending list of exactly the chosen entries with their translations is the specified one |
| Catalogue.GatherApps | modules/registry/catalog.go:306-319 | one entry per chosen app, each with exactly the translations held for it |
| Catalogue.SignApps | modules/registry/catalog.go:306-342 | the document over the chosen releases if the validator accepts them in the order it is shown them, refused if it does not |
| Catalogue.Build | modules/registry/catalog.go:238-343 | an unparseable platform, an undecodable eligible manifest and a refused document are the only failures; otherwise the snapshot is a build of the tables |
| CatalogueLaws.CatalogueIsExact | modules/registry/catalog.go:244-329 | entries strictly sorted without duplicates; an app is listed if and only if it is public or granted and has an eligible published version; each entry is a winner |
| CatalogueLaws.WinnersTie | modules/registry/catalog.go:293-298 | two winners of one app have the same rank and publication time |
| CatalogueLaws.ReleasesComeBeforePreReleases | modules/registry/catalog.go:280-298 | no catalogue offers a pre-release while the release of the same numbers could be offered, nor a version with lower numbers than another that could |
| CatalogueLaws.UniqueBuild | modules/registry/catalog.go:238-343 | without such ties the tables determine the snapshot byte for byte |
| Documents.BuildsSayWhatTheTablesSay | modules/registry/catalog.go:238-375 | a snapshot is a build if and only if, column by column, it lists in byte order one best published version of every public or granted app the platform can run, with that app's columns and translations, validated, stamped with the newest publication listed or the epoch, encoded, signed and tagged as such; for all tables that are not misdated |
| Documents.BuildsListWhatTheTablesList | modules/registry/catalog.go:238-375 | all of that but the time stamp, for builds of any tables |
| Documents.DatedTablesAreNotMisdated | modules/registry/catalog.go:259-301 | tables whose published rows carry a time satisfy the condition of the two laws above and of StampIsShownExactly |
| CatalogueLaws.AgreeingStatesBuildAlike | modules/registry/catalog.go:250-319 | states that show a request the same rows, listings and translations have the same documents for it |
| CatalogueLaws.AnonymousSeesOnlyPublic | modules/registry/catalog.go:250-319 | non-interference: states that differ only in private apps, their versions and texts, platforms and grants have the same anonymous documents |
| CatalogueLaws.AudienceDecomposition | modules/registry/platforms.go:57-68 | a granted audience gets every anonymous entry unchanged plus exactly the eligible granted private apps |
| CatalogueLaws.GrantChangesThatShow | modules/registry/catalog.go:250-256 | a selection for some grants is right for others exactly when no app whose grant changed is private with a release to offer; otherwise every right one lists different apps |
| CatalogueLaws.BuildsForOtherGrants | modules/registry/catalog.go:250-319 | the same of documents, given an encoder that tells entry lists apart |
| CatalogueLaws.GeneratedAtNeverMovesBack | modules/registry/catalog.go:259-301 | one publish, re-publish or wider grant never moves generated_at back nor drops an app |
| NonInterference.SaveAppSaves | modules/registry/store.go:465-492 | saving an app shows the new listing and translations of that app, and nothing else changes that an anonymous catalogue serves |
| RunLaws.PickExists | modules/registry/catalog.go:263-305 | every state of the tables has a selection, so the specification is never empty |
| RunLaws.BuildsCarryTheStamp | modules/registry/catalog.go:357-363 | every build of one state carries the same generated_at, ties or not, dated rows or not, the epoch when empty |
| RunLaws.GeneratedAtNeverMovesBackOverRuns | modules/registry/store.go:745-752 | over any run that closes no public app and rejects or yanks no published version, with a clock that does not go back, generated_at does not either, whatever more the audience is granted |
| NonInterference.ShowsExactly | modules/registry/catalog.go:250-256 | a transaction that goes through leaves the public apps, their versions and events as they were exactly when it saves a private app as private or a public one as it stands, or concerns a version of an app that is not public, or a platform, grant or publisher |
| NonInterference.HiddenExactly | modules/registry/store.go:454-480 | whatever its outcome, a transaction leaves the public part as it was exactly when something public or hidden is in its way or it shows nothing |
| NonInterference.OutcomeSplits | modules/registry/store.go:454-480 | whatever app it names, a save, submission or decision goes through exactly when nothing public and nothing hidden is in its way |
| NonInterference.CommonTransactionsEndAlike | modules/registry/store.go:454-480 | any two registries with the same public part end a common transaction differently exactly when nothing public is in its way and something hidden is in one of them only: a private app with the slug, or with the id under another publisher; a missing app, version or publisher; a number used by a private app; a hidden row with the version id or event id |
| NonInterference.CommonTransactionsShowAlike | modules/registry/store.go:465-492 | such registries still have the same public part afterwards exactly when what goes through in one only shows nothing there, and an app made public in both has the same merged translations, versions and event ids in both |
| NonInterference.RunsLookAlikeExactly | modules/registry/catalog.go:250-319 | two runs with any extra transactions on either side keep the same public part throughout exactly when each extra transaction shows nothing and each common one shows the same in both, conditions read off the tables before it |
| NonInterference.PrivateStepsDoNotShow | modules/registry/catalog.go:250-319 | two such runs end with the same anonymous documents, byte for byte, for every channel and platform |
| NonInterference.PrivateSlugShows | modules/registry/store.go:465-480 | the exception is real: after one hidden save the same three transactions leave the anonymous catalogue empty in one run and listing an app in the other |
| NonInterference.PrivateIdShows | modules/registry/store.go:454-463 | the same when the hidden save takes the id for another publisher |
| NonInterference.OpenedAppShows | modules/registry/store.go:465-480 | after a hidden save, submission and publish one common save makes the app public in both runs, and the anonymous catalogue lists it in one of them only |
| StampLaws.StampIsShownExactly | modules/registry/catalog.go:259-301 | for any rows, dated or not, the stamp is the newest publication shown, or zero with none, unless and only unless there is a latest publication among the highest dated releases of all apps and every app attaining it has an undated release of strictly higher rank than all its dated ones |
| StampLaws.UndatedReleaseMisdates | cmd/appstore-import/main.go:216-228 | the exception is real: an import of two versions into an empty registry, one undated, leaves a catalogue stamped with a publication that is not in it |
| Audiences.CredentialDecides | modules/registry/platforms.go:112-183 | a credential counts exactly when it was issued to an enabled platform with a grant, and then stands for precisely its grants; missing, unknown, disabled and grantless ones are the anonymous audience |
| Headers.BearerCarriesItsToken | modules/registry/platforms.go:98-110 | a Bearer header in any case and padding yields exactly its token; any other scheme yields none |
| Headers.BearerHeaders | modules/registry/platforms.go:104-110 | a header whose first letters do not say Bearer and a blank, in either case, carries no token; one that does carries exactly the printable token between blanks and tabs |
| Headers.EtagMatches | modules/registry/public.go:270-278 | true exactly when some comma-separated piece is an asterisk or the tag, weak or not |
| Headers.EtagListMatches | modules/registry/public.go:268-278 | for every printed list of entity tags: matches if and only if a tag equals the current one under weak comparison, or a tag has a bare asterisk between two of its own commas |
| Headers.CommaFreeListsMatchExactly | modules/registry/public.go:268-278 | for tags without commas the match is exactly weak comparison |
| Headers.AsteriskMatches | modules/registry/public.go:270-278 | a bare asterisk anywhere in the list always matches |
| Headers.AsteriskInsideATagMatches | modules/registry/public.go:268-278 | the exception is real: a concrete valid list naming another tag matches |
| RegistryStore.Registry.UpsertApp | modules/registry/store.go:445-498 | commits the saved app, its translations and one bump, or fails on another owner, a taken slug or an unknown publisher and changes nothing |
| RegistryStore.Registry.WriteTexts | modules/registry/store.go:482-492 | translations given replace those held, others stay, in whatever order they are written |
| Effects.SavingAnApp | modules/registry/store.go:445-498 | exactly which saves go through or fail how; afterwards the app reads as given, a new one without credits, an old one with the credits, creation and editor it had, each translation as given or as held, and no other row moved |
| RegistryStore.Registry.SubmitManifest | modules/registry/store.go:613-646 | refuses the unacceptable manifest unchanged, otherwise queues the version row the manifest describes |
| RegistryStore.Registry.SubmitVersion | modules/registry/store.go:665-719 | adds the row, the external registration and the submitted event together, leaves the revision, or conflicts on a used number |
| Effects.Submitting | modules/registry/store.go:613-719 | exactly which submissions are invalid, in conflict or queued; the queued row, its event and its external registration read as asked, with "stable", ">=0.1.0" and "new_tab" for what was left out, the web hook kept and the revision where it was |
| RegistryStore.Registry.DecideVersion | modules/registry/store.go:726-790 | status, note, publication time, credits, event and bump together, or nothing; unknown actions and versions fail |
| Effects.Deciding | modules/registry/store.go:726-790 | "publish", "reject" and "yank" and no other action go through, on a version that is there, and leave it published, rejected and yanked; every other column, row, app and event reads as before but for the note, the time, credits and editor of a publish, and one event |
| Effects.RunsTellStatus | modules/registry/store.go:726-736 | in every run a version is published, rejected or yanked exactly when that is the last thing done to it, and in review exactly when nothing was since its submission |
| Effects.ListedWasPublished | modules/registry/catalog.go:250-257 | in every run whatever a catalogue lists was published and neither rejected nor yanked since |
| RegistryStore.Registry.UpsertPublisher | modules/registry/store.go:225-249 | edits the tenant's one profile or creates it, leaves verification alone, conflicts on a handle another tenant holds |
| Effects.SavingAProfile | modules/registry/store.go:225-249 | a tenant with a profile edits that one and keeps its verification, a tenant without gets one that is not verified, and only another tenant's handle or a used id stands in the way |
| RegistryStore.Registry.CreatePlatform | modules/registry/platforms.go:197-217 | stores the trimmed name and the token's digest only |
| RegistryStore.Registry.SetPlatformEnabled | modules/registry/platforms.go:246-257 | changes one platform's state or reports it missing |
| RegistryStore.Registry.Grant | modules/registry/platforms.go:262-268 | adds the grant; granting twice is granting once |
| RegistryStore.Registry.Revoke | modules/registry/platforms.go:273-277 | removes exactly that grant |
| RegistryStore.Registry.DiscardSnapshots | modules/registry/store.go:171-177 | empties the public cache and says how many rows went |
| RegistryStore.Registry.DiscardPrivateSnapshots | modules/registry/platforms.go:281-288 | drops the rows of one platform, or all when the id is empty |
| RegistryStore.Registry.PlatformByToken | modules/registry/platforms.go:120-139 | the enabled platform holding the credential, none otherwise |
| RegistryStore.Registry.AudienceFor | modules/registry/platforms.go:167-183 | the audience the credential stands for; no grants means anonymous |
| Effects.CredentialLife | modules/registry/platforms.go:112-277 | issued a credential stands for nobody, granted an app for exactly that app, disabled for nobody, enabled for the same again, revoked for nobody; every other credential means throughout what it meant |
| ReviewLaws.ExecKeepsTrail | modules/registry/store.go:726-790 | every transaction keeps statuses, credits and references in step with the event trail |
| ReviewLaws.RunReplays | modules/registry/store.go:749-789 | in any run each version's status, note and publication time are the replay of its events, and each app's credits are those of its latest publish event |
| ReviewLaws.RevisionConserved | modules/registry/store.go:179-184 | over any run the revision moves by the app saves plus the decision events, submissions counting nothing |
| ReviewLaws.RunsFreeze | modules/registry/store.go:595-600 | in any run a submitted version's app, number, channel, constraint and manifest never change, an app's publisher never changes, nothing disappears, the trail only grows |
| ReviewLaws.RunRowsAgree | modules/registry/store.go:613-646 | in any run every version row says what its validated manifest says |
| ReviewLaws.EntriesCarryTheirManifest | modules/registry/catalog.go:286-297 | every entry of every catalogue built in any run carries a validated manifest with its own id and version, and no build fails decoding one |
| KeyLaws.ExecKeepsKeys | modules/registry/store.go:687-689 | no transaction puts two rows under one key: numbers per app, slugs, tenants, handles, event ids, credentials |
| KeyLaws.RunsKeepKeys | modules/registry/store.go:188-193 | the keys stay unique over every run |
| StoreLaws.ExecCovered | modules/registry/store.go:179-184 | every transaction moves the revision by one or changes nothing any catalogue shows |
| StoreLaws.ExecKeepsDated | modules/registry/store.go:745-752 | published rows keep carrying a publication time |
| StoreLaws.TickingRunsAreDetermined | modules/registry/store.go:745-752 | runs whose clock ticks never produce two equally ranked releases published at one time |
| StoreLaws.UnseenPublishChangesNothing | modules/registry/catalog.go:280-301 | publishing what an audience cannot be offered leaves its documents and entity tags as they were although the revision moved |
| StoreLaws.PublishRemovesNoApp | modules/registry/catalog.go:244-249 | no publish ever takes an app out of anybody's catalogue |
| Statements.SelectRows | modules/registry/catalog.go:250-257 | exactly the rows a request may see, within each app in order of publication |
| Statements.DeleteAllButNewest | modules/registry/catalog.go:215-225 | the newest 64 rows of the channel stay, every row kept was built no earlier than every row dropped, other channels are untouched |
| Service.CatalogService.LoadSnapshot | modules/registry/catalog.go:150-169 | the row of the audience's own table |
| Service.CatalogService.SaveSnapshot | modules/registry/catalog.go:181-212 | private rows are upserted unpruned; public ones are upserted and the channel pruned even when the upsert fails |
| Service.CatalogService.PruneSnapshots | modules/registry/catalog.go:215-225 | prunes one channel to its bound |
| Service.CatalogService.Catalog | modules/registry/catalog.go:107-139 | answers the stored document when it is current and touches nothing, otherwise builds and saves; either way the answer is a build of the current tables, a save that fails notwithstanding; the caches stay right, and within their bound when the prune goes through |
| Service.CatalogService.BuildNow | modules/registry/catalog.go:238-343 | a build of the current tables labelled with the revision, or the builder's own failure |
| Service.CommitsKeepCaches | modules/registry/store.go:179-184 | no transaction but a grant or a revocation needs to touch a cache to keep every current row right |
| Service.DiscardRestoresCaches | modules/registry/platform_handlers.go:117-123 | an access change needs the rows of its own platform gone, and no others |
| Service.SavesStaySmall | modules/registry/catalog.go:171-225 | a save that prunes brings its channel within 64 rows whatever it finds, keeps the cache within 128, and keeps the row it wrote |
| Service.StoredIsHeld | modules/registry/catalog.go:141-212 | what was stored is what the next request of that audience, channel and platform finds, and no other platform's row and no other channel's is touched |
| Service.UndiscardedRows | modules/registry/platform_handlers.go:151-153 | an access change whose discard fails leaves the caches right exactly when no app whose grant changed shows in a current row of the platform |
| Service.EnablingKeepsRows | modules/registry/platform_handlers.go:109-111 | enabling or disabling a platform leaves every cached row right, discard or not |
| Steps.ReadRows | modules/registry/catalog.go:238-305 | the row query and loop on the version of the tables they read end in a stage the concurrent system allows |
| Steps.Finish | modules/registry/catalog.go:306-342 | validation, sorting and signing of rows read at one version and translations read at others make the answer the concurrent system assembles |
| Service.Module.HandleCatalog | modules/registry/public.go:53-121 | refuses exactly an unparseable platform and a channel other than "stable" and "beta"; otherwise answers, for "stable" and "1.0.0" where nothing is said, with the tag of a build for the credential's audience and withholds the document exactly when If-None-Match matches that tag, which for a printed list of tags without commas means it names it; shared caches may keep it exactly for the anonymous audience; or says why no build can be made; keeps the cache within 128 rows when the prune goes through |
| Service.Module.HandleRebuildSnapshots | modules/registry/public.go:310-321 | empties the public cache and counts what it discarded |
| Service.Module.HandleGrant | modules/registry/platform_handlers.go:124-157 | only a private app is granted; with the discard the caches stay right, without it exactly when the app shows in no current row of the platform |
| Service.Module.HandleRevoke | modules/registry/platform_handlers.go:159-172 | the grant is gone; with the discard the caches are right, without it exactly when the app shows in no current row of the platform |
| Service.Module.HandleSetPlatformEnabled | modules/registry/platform_handlers.go:90-115 | an unknown platform is missing and changes nothing; otherwise the state changes; the caches are right either way, discard or not |
| ProtocolLaws.NextKeepsInv | modules/registry/catalog.go:107-139 | every step of every interleaving keeps each document traced to the versions of the tables it was read from |
| ProtocolLaws.ArrivalsAreLetIn | modules/registry/public.go:57-75 | a request enters the concurrent system exactly when the endpoint lets it in, with the channel and platform it fills in |
| ProtocolLaws.StoredIsFound | modules/registry/catalog.go:150-212 | what a request stored is what the next one of its audience, channel and platform finds, and other audiences find what they did |
| ProtocolLaws.AnswersAreFresh | modules/registry/catalog.go:115-139 | a request that starts after a revision-moving commit never answers with a document any part of which was read before it, cached or built: the document is traced to its reads, and all of them are later |
| ProtocolLaws.CurrentLabelIsCurrentBuild | modules/registry/store.go:721-725 | a document labelled with the current revision is a build of the current tables; torn ones never carry that label |
| ProtocolLaws.PublicCacheIsTransparent | modules/registry/catalog.go:120-139 | in every reachable state each public row at the current revision is a build of the current tables with the current key, unless the key changed since the last discard |
| ProtocolLaws.QuietRequestsGetTheBuild | modules/registry/catalog.go:101-106 | an anonymous request during which the revision stood still is answered with a build of the tables as they are |
| ProtocolLaws.QuietRequestsGetTheBytes | modules/registry/catalog.go:259-262 | without ties that is byte equality with a fresh build |
| ProtocolLaws.PrivateCacheIsCoherent | modules/registry/platform_handlers.go:146-168 | over every run in which no request of a platform is at work when the discard that follows its access change comes, immediately or later, private rows at the current revision are builds for the current grants of every platform without a discard to come |
| ProtocolLaws.PrivateRowsAreBuilds | modules/registry/catalog.go:181-198 | in every run a private row at the current revision is a build for the grants its builder resolved |
| AccessLaws.AnswersGoByGrants | modules/registry/platform_handlers.go:146-168 | in every coordinated run the answer to a platform without a discard to come goes by its grants at the moment of the answer |
| AccessLaws.RevokedAppsAreNotServed | modules/registry/platform_handlers.go:85-89 | in every coordinated run an answer, anonymous or to a platform without a discard to come, lists an app only if it is public or granted to the platform at that moment |
| AccessLaws.QuietPlatformsGetTheBuild | modules/registry/catalog.go:101-106 | in every coordinated run the request of a platform without a discard to come, during which the revision stood still, is answered with a build of the tables as they are for its grants as they are |
| AccessLaws.PrivateRowsExactlyRight | modules/registry/platforms.go:270-277 | in any run a private row at the current revision is right for its platform exactly when no app granted or revoked since its builder resolved the grants is private with a release to offer |
| AccessLaws.OverlapExactlyWrong | modules/registry/platform_handlers.go:159-168 | a request at work, at any stage, while anything else commits: the row it stores, if current, is right exactly when no app whose grant changed since it resolved the grants shows |
| AccessRuns.RevokedAppIsServed | modules/registry/platform_handlers.go:159-168 | for any tables with a private app granted beside another, some run that starts at them answers a request that started after the revocation and its discard with a document that lists the app, and that is no build for the remaining grants under any key if the encoder tells entry lists apart |
| AccessRuns.RevokedAnswerIsWrong | modules/registry/platform_handlers.go:85-89 | whenever such an answer is given its document was assembled from a selection listing the app, no selection for the platform's grants lists it, and with a separating encoder no build for them has its bytes |
| AccessRuns.RevokedAppIsServedHere | modules/registry/platforms.go:270-277 | it happens from an empty registry: after a publisher, two private apps, a published version, a platform and two grants, for any validators that pass them and any separating encoder, the wrong document is served |
| ProtocolLaws.CacheIsBounded | modules/registry/catalog.go:171-179 | at any moment of any run a channel holds at most 64 rows plus those stored since its last prune |
| CacheLaws.PublicCacheStaysSmall | modules/registry/catalog.go:199-212 | whatever fails, the public cache holds at most 128 rows plus those stored since their channel's last prune |
| CacheLaws.PublicCacheIsBounded | modules/registry/public.go:69-72 | however many platform versions are invented, as long as prunes go through and no request is lost between save and prune: at most 64 rows a channel plus its requests between the two, at most 128 in all when there are none |
| CacheLaws.NewestSurvivesPrune | modules/registry/catalog.go:215-225 | pruning keeps the row just written and every row of the other channel |
| Importer.Run | cmd/appstore-import/main.go:109-276 | a run that breaks anywhere and a dry run leave the target as it was; a dry run reports what the real run does; a real run commits exactly the specified import |
| Importer.ImportOne | cmd/appstore-import/main.go:153-198 | one publisher's tenant, owner, membership and row, with the counters |
| Importer.FindOrCreateTenant | cmd/appstore-import/main.go:279-296 | the first tenant with the slug, or a new one |
| Importer.FindOrCreateUser | cmd/appstore-import/main.go:298-319 | the first user with the address in any case, or a new one |
| Importer.CopyRows | cmd/appstore-import/main.go:343-366 | every row read is written and counted, present or not; the first failure stops it |
| ImporterLaws.ImportIsIdempotent | cmd/appstore-import/main.go:39-42 | for any source and target a second import can only break on a statement; if it goes through it changes nothing but the revision and publishers' edit times, and reports no new tenant, user or membership |
| ImporterLaws.PublisherArrives | cmd/appstore-import/main.go:279-341 | after a publisher's import its tenant, owner, membership and row are there, the membership carries every admin role the tenant has, and keys stay unique |
| Arrivals.PublisherIsWritten | cmd/appstore-import/main.go:153-198 | row by row: the first tenant with the publisher's slug, or the owner's where it has none, or a new one named after it; the first account with the owner's address or a new one; one membership, carrying every role of the tenant whose code is "admin" and no other it did not have; the publisher's columns; and each counter moved exactly when its row was made |
| Arrivals.OwnerAddress | cmd/appstore-import/main.go:306-307 | white space around the owner's address and the case of its letters do not count |
| Arrivals.TenantIsFirst | cmd/appstore-import/main.go:283-290 | the tenant found is the first with the slug, and none is found exactly when there is none |
| Arrivals.UserIsFirst | cmd/appstore-import/main.go:306-312 | the account found is the first with the address in any case, and none is found exactly when there is none |
| Arrivals.FreshIdsGoThrough | cmd/appstore-import/main.go:153-198 | with no statement breaking, no minted id in use and no other publisher holding the handle or the tenant, a publisher's import goes through |
| ImporterEffects.OwnersActWhereRolesAre | cmd/appstore-import/main.go:321-341 | after its import a publisher's owner carries an admin role exactly when its tenant has one |
| ImporterEffects.FreshTenantsHaveNoActors | cmd/appstore-import/main.go:321-341 | where roles belong to tenants that exist, the owner of a publisher whose tenant the import had to make carries none and is not counted as a member |
| ImporterLaws.CopyOnAbsent | cmd/appstore-import/main.go:201-260 | per key: the row that was there, else the first row of the source, else none |
| ImporterEffects.CommittedImport | cmd/appstore-import/main.go:109-122 | every app, version, translation, registration and event that was there is unchanged; references stay closed, keys unique, tenants, members and roles housed; the revision moves by one |
| ImporterEffects.ImportCopiesOnAbsent | cmd/appstore-import/main.go:201-267 | the copied tables row by row: kept, arrived from the source, and nothing else |
| Arrivals.EverythingArrives | cmd/appstore-import/main.go:200-267 | after an import every row of the five tables is there, apps that were not there have no credits and no editor, the report counts what was read, and the revision moved by one |
| Arrivals.WhenRowsAreRefused | cmd/appstore-import/main.go:343-366 | a row that is written by a statement that does not break is refused only for a slug or version number another row holds, or for a missing row it refers to |
| ImporterEffects.ClosedSourcesDoNotDangle | cmd/appstore-import/main.go:201-260 | a source that refers only to its own rows never meets a missing reference, on any target |
| ImporterEffects.ImportsAreSteps | cmd/appstore-import/main.go:262-269 | every committed import is a step of the concurrent system, so that its laws hold across imports, undated rows included; and one of dated rows keeps all rows dated |

## Left out

- Headers.BearerCarriesItsToken: works on characters where the code works on bytes; the two agree because the prefix is ASCII.
- ProtocolLaws.PublicCacheIsTransparent: speaks of one process with one key at a time; a restart drops the requests in flight.
- ProtocolLaws.PrivateCacheIsCoherent: claims the current key only while it has not changed since all private rows were discarded; the rebuild endpoint discards the public table only.
- ImporterLaws.ImportIsIdempotent: takes ids in the source and tenants and handles in the target to be unique, as their primary keys and constraints have it, tables to be scanned in a stable order, and letter case to be ASCII on both sides.
- Single-snapshot linearizability of a rebuild: rows and translations are read by separate statements, so it does not hold while writers commit; the freshness and no-bump forms are stated instead.
- Times: `NOW()` is a parameter; where two publications in one microsecond matter the clock is required to tick. That overlapping transactions may commit in another order than their times is not modelled.
- Status preconditions: a decision accepts any current status, as in the code; nothing says a rejection is final.
- Agreement of app and manifest type after submission: an app's type may change later.
- The trail of imported versions: imported events and statuses need not replay.
- Version numbers are parsed values; text that is no semantic version is not modelled. The builder's comparison of such text belongs to the contract package.
- Release notes and per-version authors, the columns created_by, verified_at, origin, note and last_seen_at, and SetPublisherVerified: they feed no property here.
- A statement of a registry transaction that breaks for reasons of its own: it rolls back like any failure. The importer's and the cache's broken statements are modelled.
- Deletions and their cascades, column widths and check constraints, and foreign keys of tables owned by other modules.
- Granted ids are a set: their ORDER BY does not reach the document, whose entries are sorted afterwards. Database collation of the row query does not matter either; the contract asks only for order of publication within an app.
- The storefront's listing, latest version, chronicle, locale choice and review queue: reads over the same rows.
- HTTP routing and other headers, permissions, audit, the publisher and review modules' guards, key decoding, token generation, bundled catalogue data and deployment files.
