# Atom operator: a verified model

The operator turns an `Atom` resource into the Kubernetes objects that serve an INSPIRE download service: a
generator ConfigMap with the feeds, a Deployment and Service, Traefik middlewares and an IngressRoute, and a
disruption budget. A webhook admits atoms and their updates, and a conversion pair connects the two API versions.

This project models the parts that hold logic as one system around a shared `Atom`, and proves what they
promise together. The model takes the form of the code: code that fills objects, lists and reports step by step
is a method with loops over such objects, proved equal to a specification function; the laws are lemmas about
those functions.

| file | about |
|---|---|
| `Wrappers`, `Sequences`, `Strings`, `Urls` | results, lists, strings and sorting, URLs and path cleaning |
| `AtomTypes`, `V2Types`, `FeedTypes`, `KubeObjects`, `Platforms` | the v3 and v2beta1 resources, the generator's feeds, the cluster's objects, the libraries and settings |
| `Traefik` | what a path regex, a strip prefix, a middleware chain and a router rule mean |
| `Middlewares`, `RewriteChains`, `DownloadRouting` | grouping the download links, what a chain of rewrites does, where an atom's requests land |
| `IngressRoutes`, `RequestRouting`, `Neighbours` | the routes, which of them accept a request, and when those of another atom do |
| `Validation`, `Admission`, `ServedHistories` | the webhook's checks, histories of accepted updates, and their routes |
| `Mapper`, `FeedAgreement`, `FeedIds` | the generator's configuration, how it agrees with the routes, and its ids |
| `Conversion`, `ConversionLaws`, `HubRoundTrips`, `Lifetimes` | v2beta1 to v3 and back, v3 to v2beta1 and back, and the time to live |
| `Workloads`, `Reconciling` | the other objects, and the reconcile as a class over a store |
| `ObjectKeys`, `StepSafety`, `OperatorRuns` | who writes what, what one step keeps, and every interleaved run |
| `Convergence`, `ServedState` | what a fault-free reconcile reaches, and what the stored objects then serve |
| `InterleavedRuns` | what a reconcile reaches while those of other atoms go on |
| `MountedConfigs` | where the configuration comes from that a Deployment mounts |
| `RollingUpdates`, `FeedUpdates` | what download and feed requests meet while a reconcile is under way |
| `RetriedUpdates`, `UpdatingRuns` | what they meet when reconciles fail and begin again, and in whole runs |
| `SampleAtoms`, `Counterexamples` | small atoms that schema and webhook accept, and an input for each thing that the code does not keep |

## What was found

Each entry names the exact condition and, unless it holds of every atom, a lemma at a concrete input. The atoms of
`Counterexamples` pass the schema and every check of the webhook on creation, those of labels and owner included
(`SampleAtoms.Accepted`), except the second version of `BaseURLMoves`, which is accepted as an update by the webhook only.

- **A nested served URL is stripped too short.** The strip middleware takes the first prefix that matches and the
  base URL's comes first, so with base `/path` and a second URL `/path/other` (the repository's own maximum
  example) a request for `/path/other/index.xml` reaches the Service as `/other/index.xml`.
  `DownloadRouting.FeedRequestReachesItsFile`; `DownloadRouting.NestedURLIsStrippedTooShort`.
- **A file name captures longer ones.** A name in one group that matches the start of a name in another takes its
  requests if its group comes earlier in the chain. `DownloadRouting.DownloadReachesItsBlob`;
  `Counterexamples.CapturedDownload`. The chain is sorted by name as text, so group 10 comes before group 2:
  `DownloadRouting.ChainOrder`. In `Counterexamples.TenBeforeTwo` only these two claim the name, and its requests end in
  the container of group 10, though in the order of the numbers they would reach their own. A dot in a file name or served
  path is a wildcard of the regex; the model treats it as one.
- **A blob path can be rewritten once more**, when a container's name looks like a served downloads path.
  `RewriteChains.ChainLands` says where any path lands; `Counterexamples.RewrittenTwice`.
- **A URL below another one's downloads** has its feed requests accepted by the storage route too.
  `RequestRouting.FeedAccepted`; `Counterexamples.IndexBelowDownloads`. Seen from the other URL, a download named like a
  feed file has its requests accepted by the Service too: `RequestRouting.DownloadAccepted`;
  `Counterexamples.DownloadIsFeed`.
- **The routes of one atom take requests that another publishes** when both serve one path, when one lies below the
  downloads of the other, or when one is the downloads directory of the other and a download there is named like a feed.
  Nothing checks this, and host names do not keep atoms apart, since every rule answers to the local host as well.
  `Neighbours.TakesSomeExactly` for each host and `Neighbours.LeavesAloneExactly` for all; `Counterexamples.OneURLForTwo`.
- **Downloads are lost for a while during an update that inserts a group in front**: middlewares are named by group
  number and rewritten one by one, so the old route sends requests through middlewares made over to other groups.
  `RollingUpdates.ServedThroughoutExactly`; `RollingUpdates.InsertedInFront` for any such update, and
  `Counterexamples.LostForAWhile` for one. Adding groups behind leaves every download in its place
  (`RollingUpdates.AppendedBehind`). Failing and beginning again makes it no worse: the same condition decides
  (`RetriedUpdates.ServedAfterAnyTriesExactly`), also among the reconciles of other atoms (`UpdatingRuns.ServedInEveryState`).
- **A present but empty list of URLs lets the base URL change.** `Admission.UpdateKeepsServing` shows that this is the
  only way in which an accepted update stops serving a URL; `Counterexamples.BaseURLMoves`. The schema's `minItems`
  excludes it, and it rests on an assumption about the library's check, named below.
- **A feed named `index` shares its id with the index feed.** The webhook checks that feed names differ but not this.
  `FeedAgreement.FeedIdsUnique`; `Counterexamples.IndexFeedSharesItsId`.
- **An entry shares its id with a feed, or with an entry of another feed, of the same name.** The webhook compares entry
  names within one feed only, and the repository's own sample names an entry like its feed
  (config/samples/v3_atom.yaml:29 and :43). `FeedIds.AcceptedIdsUnique`; `Counterexamples.EntrySharesItsFeedsId`.
- **Conversion to v2beta1 panics** when the service or a feed has no metadata links. `ConversionLaws.SpokeTotalExactly`;
  `Counterexamples.ConversionPanics`.
- **A v3 atom seldom comes back from v2beta1 as it was.** Listed URLs, language, stylesheet, owner, links and boxes of its
  own are lost, and the atom is then served at one URL only. `HubRoundTrips.HubKeptExactly` lists what is needed for it to
  come back; `HubRoundTrips.ListedURLsAreLost`. Once is all there is to lose: `HubRoundTrips.OneRoundTripIsEnough`.
- **A time to live beyond 106751 days wraps around**: an atom that should live for 106752 to 213503 days has expired
  when it is created. `Lifetimes.ExpiryIsDaysAfterCreation`; `Counterexamples.ExpiredWhenCreated`. The v2beta1 value is cut to 32
  bits before that.
- **A tampered ConfigMap blocks its atom**: mutating it would rename it, which the API helper refuses, so every
  reconcile of that configuration fails. `Convergence.SucceedsExactly`; `Convergence.TamperedStops`.
- **An entry's own title is not escaped in the titles of its download links**, though it is in the entry itself, so a title
  with a quote comes out in two ways. `FeedAgreement.LinkTitleExactly`; `Counterexamples.QuoteUnescaped`.

## Assumptions made visible

- `Urls.CleanPath`, `Urls.URL.JoinPath`: Go's path joining, including dot segments and double slashes, without escapes.
- `KubeObjects.ObjectLabels`: in combining labels later maps win and other keys stay.
- `Validation.LabelErrorsOnCreate`, `LabelErrorsOnUpdate`, `ImmutabilityErrors`, `BaseURLErrors` and `RemovalErrors` stand in
  for the smooth-operator library, whose source is not part of this model: labels must be there on creation, and adding,
  deleting or changing one later is refused; URLs are compared by their text; an empty list, like an absent one, passes
  the base URL check; removed URLs give one error together. The webhook's tests pin only added and changed labels and
  the absent list. `Admission`, `ServedHistories` and `OperatorRuns` rest on this.
- `Workloads.HashLaws`: the hash of a ConfigMap's data has no collisions, holds no dash, and is not the word
  "generator". A real hash meets the first only in practice.
- `Traefik`: a chain rewrites the anchored match of a regex and keeps the rest of the path; alternatives are tried in
  order; a strip prefix removes the first listed prefix that matches; a rule accepts its host or the local one, and its
  path exactly or as a prefix.
- `Conversion.RoundTrips`: printed URLs and floats parse back to themselves, printed times to whole seconds.
- `StepSafety.Benign`: others may change stored objects, but not the data of a ConfigMap, a selector, the mounted
  ConfigMap or the routes, and keep the pod labels that the selector needs. Kubernetes itself enforces this for
  immutable ConfigMaps and for Deployment selectors.
- `OperatorRuns.Allowed`: nobody but the operator creates or deletes objects, and an atom is created only where no object
  bears a name that its steps would write to.
- `Reconciling.Put`: the API server stores an object as it is written and adds no defaults. `Convergence.SecondReconcileIsIdle`
  needs this, since the operator overwrites the whole specs of Service and Deployment and would drop such defaults.
- `OperatorRuns.Fetch` and `Start`: the atom and then its owner info are read, once each, before anything is written; edits may
  come in between.
- `Reconciling.Fault`: each request may be refused, lose its reply after taking effect, or meet a conflict.

## Model

| member | source | states |
|---|---|---|
| `AtomTypes.BlobParts` | api/v3/atom_types.go:287-295 | prefix and name are the one way to split the data at its last slash, so joining them restores it |
| `AtomTypes.GetDownloadLinks` | api/v3/atom_types.go:278-285 | the nested loops collect the links of all entries of all feeds in document order |
| `AtomTypes.DownloadLinksComplete` | api/v3/atom_types.go:278-285 | a link is collected if and only if some entry of some feed has it |
| `Middlewares.GetDownloadLinkGroups` | internal/controller/middleware.go:120-154 | the map-and-counter loop yields for every distinct prefix its rank of first occurrence and its file names in order, and panics exactly on a link without a slash |
| `Middlewares.GroupsPartition` | internal/controller/middleware.go:120-154 | keys are exactly the prefixes, indices are set and biject onto 0 to n-1, a prefix has the lower index if and only if it first occurs earlier among the links, and file counts add up to the number of links |
| `Middlewares.FileCountsAddUp` | internal/controller/middleware.go:131-151 | over any list of links the groups' files, with repeats, are as many as the links |
| `Middlewares.GetDownloadLinkRegex` | internal/controller/middleware.go:111-118 | the loop over the URLs builds the anchored regex of all served paths and all files of the group |
| `Middlewares.MutateDownloadLinkMiddleware` | internal/controller/middleware.go:90-109 | the object gets the group's regex for the listed URLs, or else the base URL, the prefix as replacement, and combined labels |
| `Middlewares.MutateStripPrefixMiddleware` | internal/controller/middleware.go:27-43 | the prefixes are the base path and then the listed paths, each with a slash |
| `Traefik.ParseThreeParts` | internal/controller/middleware.go:117 | a regex written as two alternations around a literal is read back as exactly these |
| `Traefik.RewriteHit` | internal/controller/middleware.go:98-103 | where some path and file match, the first such path is consumed, the captured file is used and the unmatched rest kept |
| `RewriteChains.TargetLands` | internal/controller/middleware.go:90-118 | on every path, the regex and replacement texts do what the plain function says: behind the first served path that matches with a file of the group, the rest is put under the blob prefix; all else stays |
| `RewriteChains.ChainLands` | internal/controller/ingressroute.go:48-59 | on every path, a chain of such middlewares is the plain function composed |
| `RewriteChains.LandRequest` | internal/controller/ingressroute.go:48-59 | a download request goes to the blob of the first group that claims the file name, and on from there through the later ones |
| `RewriteChains.ChainOutcome` | internal/controller/ingressroute.go:48-59 | and it stays there if no later middleware hits that blob path |
| `DownloadRouting.ChainOrder` | internal/controller/ingressroute.go:57-59 | the chain visits the groups in the string order of their decimal indices |
| `DownloadRouting.DownloadChainLands` | internal/controller/ingressroute.go:48-59 | for every atom whose names can be read as patterns and every path, the generated chain lands where the plain function puts it |
| `DownloadRouting.SimplePathsUndisturbed` | internal/controller/middleware.go:111-118 | unambiguous served paths that lie outside the blob prefixes leave every download undisturbed |
| `DownloadRouting.DownloadReachesItsBlob` | internal/controller/ingressroute.go:48-68 | for every undisturbed link and served URL the request is rewritten to exactly the link's blob, if and only if no group that comes earlier in the chain claims its file name |
| `DownloadRouting.StripOutcome` | internal/controller/middleware.go:30-37 | stripping leaves the bare file name if and only if the path's own prefix is the first listed one that matches |
| `DownloadRouting.FeedRequestReachesItsFile` | internal/controller/middleware.go:27-37 | a feed request at a served URL reaches its file if and only if no earlier prefix (the base URL's comes first) is a prefix of the URL's own |
| `DownloadRouting.NestedURLIsStrippedTooShort` | internal/controller/middleware.go:30-37 | the concrete input on which that fails |
| `IngressRoutes.MatchRuleMeaning` | internal/controller/ingressroute.go:76-84 | the router reads a match rule back as the URL's host and path |
| `IngressRoutes.GetRoutesForURL` | internal/controller/ingressroute.go:110-146 | one route for the index, one per feed and one for the downloads, in that order |
| `IngressRoutes.VisitGroups` | internal/controller/ingressroute.go:50-55 | in whatever order the map is visited, the middlewares of all groups are named, each once |
| `IngressRoutes.GetDownloadMiddlewares` | internal/controller/ingressroute.go:48-59 | after sorting, the list of names does not depend on the visiting order |
| `IngressRoutes.MutateIngressRoute` | internal/controller/ingressroute.go:30-74 | the routes are those of all listed URLs, or else of the base URL; it panics exactly on a link without a slash |
| `IngressRoutes.RoutesAreThoseOfServedURLs` | internal/controller/ingressroute.go:61-68 | a route is stored if and only if it is a route of some served URL |
| `IngressRoutes.ServedURLHasItsRoutes` | internal/controller/ingressroute.go:61-68 | every served URL has an exact route for the index and each feed, and a prefix route for its downloads |
| `RequestRouting.TwoKindsOfRoutes` | internal/controller/ingressroute.go:86-146 | every route leads to the Service through headers and strip prefix, or to the storage through headers and the download chain |
| `RequestRouting.ReachesServiceExactly` | internal/controller/ingressroute.go:110-120 | a route to the Service accepts exactly the requests for the index or a feed file of a served URL |
| `RequestRouting.ReachesStorageExactly` | internal/controller/ingressroute.go:122-143 | a route to the storage accepts exactly the requests below the downloads path of a served URL |
| `RequestRouting.DownloadAccepted` | internal/controller/ingressroute.go:110-146 | a download request is accepted for the storage, and for the Service as well if and only if another served URL is its downloads directory and has a feed of that name |
| `RequestRouting.FeedAccepted` | internal/controller/ingressroute.go:110-146 | a feed request is accepted for the Service, and for the storage as well if and only if its URL is or lies below the downloads directory of another |
| `RequestRouting.DownloadAcceptedExactly` | internal/controller/ingressroute.go:110-146 | whoever publishes a download, storage routes accept its request if and only if its downloads directory is or lies below that of a served URL, and Service routes if and only if that directory is a served URL with a feed of that name |
| `RequestRouting.FileAcceptedExactly` | internal/controller/ingressroute.go:110-146 | whoever publishes a file, Service routes accept its request if and only if its path is served and has that feed file, and storage routes if and only if the path is or lies below the downloads directory of a served URL |
| `Neighbours.TakesSomeExactly` | internal/controller/ingressroute.go:76-146 | at each host, stored routes of another atom accept some of the requests published at a URL if and only if a URL of the other that answers to this host has the same path, has it below its downloads, or is its downloads directory with a feed named like a download |
| `Neighbours.LeavesAloneExactly` | internal/controller/ingressroute.go:76-146 | the stored routes of another atom accept none of an atom's requests at any host if and only if no two of their URLs overlap like that, whatever their host names |
| `Neighbours.NeighboursInRuns` | internal/controller/ingressroute.go:76-146 | so it is in every state of every run, for the version that the other's stored routes were made from |
| `Validation.ValidateDatasetFeeds` | api/v3/atom_validation.go:163-216 | the nested loops, with the entry path that piles up, add exactly the specified errors in order |
| `Validation.ValidateEntries` | api/v3/atom_validation.go:199-214 | the loop over the entries reports at the path that grows by every entry before |
| `Validation.DatasetFeedErrorsExactly` | api/v3/atom_validation.go:163-216 | no error is added if and only if the feeds are well formed: names differ, identifiers differ, codes and contents are there |
| `Validation.DuplicatesReportedOnce` | api/v3/atom_validation.go:168-172 | the number of duplicate errors is, on each level, the names minus the distinct names |
| `Validation.ErrorPathsDistinct` | api/v3/atom_validation.go:201 | no two errors have the same path, although entry paths pile up |
| `Validation.ValidateMetadataTemplates` | api/v3/atom_validation.go:81-104 | adds exactly one error per kind of template that is used and missing |
| `Validation.ValidateOwnerInfo` | api/v3/atom_validation.go:59-79 | reports a missing owner info, a missing atom block, or the missing templates |
| `Validation.LabelsKept` | api/v3/atom_validation.go:122 | an update passes the label check if and only if the labels are unchanged |
| `Validation.ValidateURLs` | api/v3/atom_validation.go:124-138 | the base URL check in its two branches, then one error if a listed URL was removed |
| `Validation.ValidateUpdate` | api/v3/atom_validation.go:121-146 | errors of labels, URLs, the atom itself and, with a client, its owner info, in that order |
| `Validation.ValidateCreate` | api/v3/atom_validation.go:106-119 | the label error if there are no labels, errors of the atom itself and, with a client, of its owner info |
| `Admission.UpdateKeepsServing` | api/v3/atom_validation.go:121-161 | an accepted update keeps every served URL if and only if it does not combine an empty list with a changed base URL |
| `Admission.URLsStayServed` | api/v3/atom_validation.go:121-161 | over every accepted history of schema-valid atoms each URL ever known is served at every later moment |
| `Admission.SelectorStays` | api/v3/atom_validation.go:122 | over every accepted history the label selector never changes |
| `ServedHistories.KnownURLsStayRouted` | internal/controller/ingressroute.go:61-68 | over every accepted, schema-valid history each URL ever known is served at every later moment, and the IngressRoute generated then has its index, feed and downloads routes |
| `Admission.TemplateErrorsExactly` | api/v3/atom_validation.go:81-104 | no template error if and only if the owner has a template for every kind used |
| `Admission.AdmittedAtomMaps` | internal/controller/generator/mapper.go:163-209 | on an admitted pair of atom and owner info mapping dereferences nothing that is missing; it fails only if rendering fails |
| `Admission.MapsExactlyWhenAdmitted` | api/v3/atom_validation.go:59-104 | where all templates render, exactly the atoms that the owner check accepts can be mapped |
| `Admission.SchemaValidLinksGroup` | api/v3/atom_types.go:287-290 | links that match the schema's pattern are grouped without slicing out of range |
| `Mapper.AddMetadataLinks` | internal/controller/generator/mapper.go:163-209 | the loop appends the links of the known kinds in order, stops after csw if asked, and stops at the first error |
| `Mapper.GetServiceEntries` | internal/controller/generator/mapper.go:86-133 | one index entry per feed, or the first error |
| `Mapper.GetCategories` | internal/controller/generator/mapper.go:120-127 | the categories of a feed's entries, each once, in order of first occurrence |
| `Mapper.GetDatasetLinks` | internal/controller/generator/mapper.go:211-250 | self, up, metadata and other links in that order |
| `Mapper.GetDatasetEntries` | internal/controller/generator/mapper.go:252-300 | one entry per entry of the feed with all its download links |
| `Mapper.MapAtomV3ToAtomGeneratorConfig` | internal/controller/generator/mapper.go:17-84 | the index feed and then one feed per dataset feed, or the first error in the order of the code |
| `FeedAgreement.UnescapeEscape` | internal/controller/generator/mapper.go:346-348 | dropping the backslash before each quote undoes escaping, for every string |
| `FeedAgreement.EscapeInjective` | internal/controller/generator/mapper.go:346-348 | different strings stay different |
| `FeedAgreement.EscapeConcat` | internal/controller/generator/mapper.go:346-348 | escaping distributes over concatenation |
| `FeedAgreement.EscapeKeepsExactly` | internal/controller/generator/mapper.go:346-348 | a text is left as it is if and only if it holds no quote |
| `FeedAgreement.LinkTitleExactly` | internal/controller/generator/mapper.go:336-344 | the title of a download link is the published title of its entry, a dash and the file name, if and only if the entry has no title of its own, or one without a quote, or both its own and the feed's are empty |
| `FeedAgreement.IndexAgreesWithFeeds` | internal/controller/generator/mapper.go:43-130 | the configuration has one feed more than the atom; entry i of the index has the id and, as alternate, the self link of feed i |
| `FeedAgreement.FeedIdsUnique` | internal/controller/generator/mapper.go:43-81 | feed ids are unique (section 4.2.6 of RFC 4287) if and only if feed names differ and none is "index" |
| `FeedIds.IdsAreFileURLs` | internal/controller/generator/mapper.go:54-82 | every id of a feed, and of an entry of a dataset feed, is the URL of the file of its name |
| `FeedIds.PublishedIdsUnique` | internal/controller/generator/mapper.go:252-257 | no id is published twice (section 4.2.6 of RFC 4287) if and only if the index, the feeds and all their entries have different names |
| `FeedIds.AcceptedIdsUnique` | api/v3/atom_validation.go:163-216 | for accepted atoms that is so if and only if nothing else is named "index", no entry is named like a feed, and no two feeds share an entry name |
| `FeedAgreement.FeedIdsAreRouted` | internal/controller/ingressroute.go:110-120 | every feed id is the base URL with a path that has its own exact route |
| `FeedAgreement.RelationsDefaulted` | internal/controller/generator/mapper.go:277-323 | every download link gets a relation (section 4.1.2 of RFC 4287), explicit ones are kept, and alternates are the explicit ones plus one if exactly one link had none |
| `FeedAgreement.PublishedDownloadPath` | internal/controller/generator/mapper.go:325-327 | the published path is a download request if and only if the base path is clean |
| `FeedAgreement.PublishedLinkReachesItsData` | internal/controller/generator/mapper.go:325-334 | the published href is rewritten to the path of the blob that the published data URL names, if and only if no earlier group claims its file name |
| `Conversion.ToV3` | api/v2beta1/atom_conversion.go:52-195 | the nested loops make the hub atom, keeping what they do not set and reading the clock anew for each download; at the first text that does not parse they stop, with everything before it in place |
| `Conversion.ConvertFrom` | api/v2beta1/atom_conversion.go:200-323 | the nested loops make the spoke atom, or panic on missing metadata links with everything before them in place |
| `Conversion.TTLKeptExactly` | api/v2beta1/atom_conversion.go:57-61 | the time to live is unchanged if and only if it fits in 32 bits, and cutting it twice is cutting it once |
| `ConversionLaws.ThereAndBackTwice` | api/v2beta1/atom_conversion.go:52-323 | to the hub and back is a projection: twice equals once, for every atom on which it succeeds and every clock |
| `ConversionLaws.HubAgain` | api/v2beta1/atom_conversion.go:52-323 | hub, spoke, hub changes base URL, authors, fractions of seconds and empty relations to their normal form and nothing else |
| `ConversionLaws.HubStableExactly` | api/v2beta1/atom_conversion.go:209-234 | the hub is stable if and only if labels and general block give the same base URL and, where there are datasets, the author is the fixed one, the times read from the texts or the clock are whole and no relation is empty; all said of the v2beta1 atom |
| `ConversionLaws.ConvertsToNormalExactly` | api/v2beta1/atom_conversion.go:147-183 | a v2beta1 service converts to a normal form if and only if its own fields say so |
| `ConversionLaws.SpokeTotalExactly` | api/v2beta1/atom_conversion.go:200-260 | conversion from the hub panics if and only if service or feed metadata links are missing |
| `ConversionLaws.NormalExactly` | api/v2beta1/atom_conversion.go:147-183 | when a converted atom is its own normal form |
| `HubRoundTrips.HubKeptExactly` | api/v2beta1/atom_conversion.go:52-323 | every v3 atom that converts comes back from v2beta1 as it was if and only if its labels lead to its base URL and its fields are ones that v2beta1 has a place for or that conversion fills in alike: no listed URLs, fixed language, owner, author and templates, whole seconds, one box per feed, texts as the codec prints them |
| `HubRoundTrips.OneRoundTripIsEnough` | api/v2beta1/atom_conversion.go:52-323 | what comes back from v2beta1 meets that condition, so that every later round trip leaves it as it is, whatever the clock says |
| `HubRoundTrips.ListedURLsAreLost` | api/v2beta1/atom_conversion.go:52-108 | what comes back is served at the URL that the labels lead to, and nowhere else |
| `Lifetimes.ExpiryIsDaysAfterCreation` | internal/controller/atom_controller.go:284-292 | an atom expires that many days after its creation, at every moment, if and only if the days are at most 106751 either way |
| `Lifetimes.ExpiryIsFinal` | internal/controller/atom_controller.go:284-292 | an expired atom stays expired, and only one with a time to live expires |
| `Lifetimes.ConvertedTTLGoverns` | api/v2beta1/atom_conversion.go:57-61 | a v2beta1 time to live is the one checked if and only if it fits in 32 bits |
| `KubeObjects.ObjectLabelsStable` | internal/controller/atom_controller.go:272-282 | setting labels twice is setting them once, foreign labels stay, and the selector is satisfied |
| `KubeObjects.MiddlewareNamesDistinct` | internal/controller/middleware.go:80-88 | the middlewares of an atom have different names, and download names differ exactly when indices do |
| `Workloads.MutateDeployment` | internal/controller/deployment.go:33-139 | labels, selector, annotations and the mounted ConfigMap are set; foreign labels and annotations stay |
| `Workloads.MutateService` | internal/controller/service.go:20-37 | labels, selector and port are set |
| `Workloads.SelectorsAgree` | internal/controller/deployment.go:34-56 | whatever labels were stored, the selector of Deployment, Service and budget is one and the same and selects the Deployment's pods |
| `Workloads.MutateAtomGeneratorConfigMap` | internal/controller/atom_generator_configmap.go:25-44 | the configuration is generated only if there is none, and the name gets the hash of the data |
| `Workloads.HashSuffixLaws` | internal/controller/atom_generator_configmap.go:39-44 | the suffix is added once, and a suffixed name is kept if and only if the data is what it was made of |
| `Workloads.ConfigNameInjective` | internal/controller/atom_generator_configmap.go:39-44 | different texts get different names |
| `Reconciling.FirstMutation` | internal/controller/atom_controller.go:167-175 | mutating before the lookup gives the name and data that mutating a bare object inside it gives |
| `Reconciling.MutatedAgain` | internal/controller/atom_controller.go:172-175 | mutating what is stored under that name keeps the name if and only if it holds the data of that name |
| `Reconciling.Cluster.CreateOrUpdateAllForAtom` | internal/controller/atom_controller.go:163-255 | store, results and error are those of running the planned steps, for every visiting order and every series of faults |
| `Reconciling.Cluster.EnsureDownloads` | internal/controller/atom_controller.go:220-230 | the loop over the group map ensures each group's middleware until one fails |
| `Reconciling.Cluster.Reconcile` | internal/controller/atom_controller.go:103-161 | nothing happens without atom and owner info, an expired atom is deleted and nothing else changes, and otherwise all is ensured |
| `ObjectKeys.KeyUnique` | internal/controller/atom_controller.go:57-70 | two steps write the same object if and only if they belong to the same atom and are about the same thing: atoms never interfere |
| `StepSafety.TamperedIsBlocked` | internal/controller/atom_generator_configmap.go:25-44 | from any store, a step that reaches the API server is refused for its name if and only if the ConfigMap is there with other, non-empty data |
| `StepSafety.PlanReady` | internal/controller/atom_controller.go:167-240 | in the order of the code every step finds all objects it refers to, from any store |
| `StepSafety.DownloadKeysEnsured` | internal/controller/atom_controller.go:220-230 | the loop ensures every middleware that the downloads route names |
| `StepSafety.StepFits` | internal/controller/atom_controller.go:163-255 | a step on objects in any state leaves references, hashed contents and selectors of its atom right |
| `StepSafety.OtherStepFits` | internal/controller/atom_controller.go:163-255 | and those of every other atom |
| `OperatorRuns.EventKeepsInv` | internal/controller/atom_controller.go:103-255 | the invariant over atoms, objects and reconciles under way is kept by every accepted create and edit, step, failure, restart and foreign edit |
| `OperatorRuns.EmptyNamespace` | internal/controller/atom_controller.go:103-255 | the invariant holds where nothing exists yet |
| `OperatorRuns.EveryStateIsSafe` | internal/controller/atom_controller.go:167-240 | in every state of every interleaved run, what an atom's Deployment and IngressRoute name exists, hashed ConfigMaps hold their data, and selectors agree |
| `OperatorRuns.ConfigNeverChanges` | internal/controller/atom_generator_configmap.go:25-44 | in every run the ConfigMap named after a text holds that text and never changes or goes |
| `OperatorRuns.SelectorNeverChanges` | internal/controller/deployment.go:33-56 | in every run the Deployment's selector stays what it was |
| `OperatorRuns.RoutedStaysRouted` | internal/controller/ingressroute.go:61-68 | a URL that the stored IngressRoute was made for has, in every later state, all index, feed and downloads routes of the version that the stored IngressRoute is then made from, even under reconciles of stale versions |
| `OperatorRuns.EveryVersionReal` | internal/controller/atom_controller.go:103-161 | in every state of every run, that version is one the atom really had |
| `MountedConfigs.EveryMountReal` | internal/controller/atom_controller.go:103-189 | in every state of every run, what a Deployment mounts, or a reconcile is about to make it mount, is what a version that the atom had at some moment asks for with its owner info as that was then or at a later moment |
| `MountedConfigs.MountedConfigIsReal` | internal/controller/atom_controller.go:103-189 | in every state of every run the Deployment mounts a stored ConfigMap that holds exactly that configuration, and both moments are named |
| `MountedConfigs.MountedSinceNothing` | internal/controller/atom_controller.go:103-189 | so it is in every run that starts in an empty namespace |
| `OperatorRuns.DriveIsRun` | internal/controller/atom_controller.go:163-255 | taking the steps of one reconcile without interleaving is the run that the class method is proved to perform |
| `OperatorRuns.ReconcileKeepsSafe` | internal/controller/atom_controller.go:103-255 | a whole reconcile, failing anywhere or not, leaves every atom safe |
| `Convergence.MutatedTwice` | internal/controller/atom_controller.go:163-255 | what a step makes of an object it leaves alone the next time |
| `Convergence.ForeignLabelsStay` | internal/controller/atom_controller.go:280-282 | labels that others put on any of the objects stay unless the atom or the operator sets the same key |
| `Convergence.CleanRun` | internal/controller/atom_controller.go:163-255 | without faults, steps on different objects all take effect and touch nothing else |
| `Convergence.Converges` | internal/controller/atom_controller.go:163-255 | from any store with intact ConfigMaps a fault-free reconcile succeeds, makes every object of the plan what is wanted and leaves the others alone |
| `Convergence.SucceedsExactly` | internal/controller/atom_controller.go:163-255 | from any store it succeeds if and only if the configuration can be made, the links can be grouped, and the ConfigMap of that name was not tampered with |
| `Convergence.TamperedStops` | internal/controller/atom_controller.go:172-179 | a store on which every reconcile of the configuration is refused |
| `Convergence.SuccessMeansDone` | internal/controller/atom_controller.go:183-189 | a reconcile that reports success under any faults made every object what is wanted and touched no other, except that a Deployment whose update met a conflict is as it was |
| `Convergence.SuccessfulRun` | internal/controller/atom_controller.go:163-255 | the same for any series of steps on different objects |
| `Convergence.OrderIrrelevant` | internal/controller/atom_controller.go:220-230 | every visiting order of the group map reaches the same store |
| `Convergence.SecondReconcileIsIdle` | internal/controller/atom_controller.go:163-255 | the next reconcile changes nothing and reports all as unchanged, in any order and whatever befalls its requests; only a refused request makes it fail |
| `ServedState.RecoversAfterAnyRun` | internal/controller/atom_controller.go:163-255 | after any run with any failures one fault-free reconcile gets through and the Deployment mounts the configuration of the current atom and owner info |
| `ServedState.DeploymentIsConfigured` | internal/controller/deployment.go:33-139 | the Deployment mounts an immutable ConfigMap that holds exactly that text |
| `ServedState.StoredRouteReachesBlob` | internal/controller/ingressroute.go:122-143 | sent through the stored middlewares that the stored downloads route names, a request arrives at the link's blob, if and only if no earlier group claims the name |
| `ServedState.StoredRouteReachesFeed` | internal/controller/ingressroute.go:86-120 | sent through the stored middlewares of its stored route, a feed request arrives as the bare file, if and only if no earlier prefix matches |
| `ServedState.DownloadDispatched` | internal/controller/ingressroute.go:110-146 | some stored route accepts the published request, and every one that does sends it to the link's blob in the storage, if and only if no earlier group claims the name and no other URL has a feed in its place |
| `ServedState.FeedDispatched` | internal/controller/ingressroute.go:86-120 | some stored route accepts the feed request, and every one that does sends it to the Service as the bare file, if and only if no earlier prefix matches and the URL is not below another one's downloads |
| `InterleavedRuns.NextEvent` | internal/controller/atom_controller.go:163-255 | whatever event comes next, a reconcile that it does not disturb keeps its written objects as made and the others as before, or writes one more |
| `InterleavedRuns.ReachesServiceInBetween` | internal/controller/atom_controller.go:163-255 | in any run, a reconcile whose own requests succeed and whose objects nobody else writes to ends with all objects, the mounted configuration and the routes of the version that it read, whatever reconciles of other atoms do or fail to do in between |
| `RollingUpdates.MixedOutcome` | internal/controller/atom_controller.go:220-240 | with any set of middlewares already made for the new version, the old route reaches a shared download if and only if the first middleware to claim its name is the one for it by now |
| `RollingUpdates.DownloadMidway` | internal/controller/atom_controller.go:220-230 | after any number of steps, each download middleware is the new version's if its step was taken, and as before otherwise |
| `RollingUpdates.ServedThroughoutExactly` | internal/controller/atom_controller.go:163-255 | a download that both versions have is served in every state of the reconcile, for every order of the groups, if and only if both versions serve it, its middleware is not made over to another group, and no earlier middleware is made over to a group that claims its name |
| `RollingUpdates.InsertedInFront` | internal/controller/middleware.go:129-151 | a new group in front takes away the place of every download |
| `RollingUpdates.AppendedBehind` | internal/controller/middleware.go:129-151 | links added behind leave every download in its place |
| `RollingUpdates.CompletedIsDeployed` | internal/controller/atom_controller.go:163-255 | a completed reconcile leaves its version deployed, which is where the next one starts |
| `RollingUpdates.PlannedStepsAreTaken` | internal/controller/atom_controller.go:163-255 | the steps spoken of are those of the reconcile |
| `FeedUpdates.FeedMidway` | internal/controller/atom_controller.go:200-240 | after any number of steps, a feed request fares as the version that strips by then and the version that routes by then decide |
| `FeedUpdates.FeedServedThroughoutExactly` | internal/controller/atom_controller.go:163-255 | a feed that both versions have is served in every state of the reconcile, for every order of the groups, if and only if in both versions the URL's own prefix is stripped first and its path is not below another one's downloads |
| `FeedUpdates.CompletedFeeds` | internal/controller/atom_controller.go:163-255 | a completed reconcile leaves routes, headers and strip middleware of its version, which is where the next one starts |
| `RetriedUpdates.AttemptKeeps` | internal/controller/atom_controller.go:220-240 | every attempt of a step, failing or not, leaves either old routes with middlewares of either version or new routes with all new middlewares |
| `RetriedUpdates.SeriesKeeps` | internal/controller/atom_controller.go:163-255 | and so does a series from any point of the plan on, for every series of faults |
| `RetriedUpdates.TryIsReconcile` | internal/controller/atom_controller.go:163-255 | a try is a reconcile with any order and any faults |
| `RetriedUpdates.ServedAfterAnyTriesExactly` | internal/controller/atom_controller.go:163-255 | after any number of reconciles of the new version, each with its own configuration, order and faults, a download of both versions is served, if and only if there is no gap in the sense of `ServedThroughoutExactly` |
| `RetriedUpdates.FeedServedAfterAnyTriesExactly` | internal/controller/atom_controller.go:163-255 | the same for a feed of both versions |
| `UpdatingRuns.EventRolls` | internal/controller/atom_controller.go:103-255 | every event of a run that leaves the atom's objects to the operator keeps that state, and keeps the atom's own reconcile on its plan |
| `UpdatingRuns.ServedInEveryState` | internal/controller/atom_controller.go:103-255 | in every state of every such run with the new version, whatever fails, is restarted, or is reconciled for other atoms in between, a download of both versions is served if there is no gap |
| `UpdatingRuns.FeedServedInEveryState` | internal/controller/atom_controller.go:103-255 | the same for a feed of both versions |
| `Counterexamples.CapturedDownload` | internal/controller/middleware.go:111-118 | an accepted, undisturbed atom whose second download is rewritten to the first container |
| `Counterexamples.TenBeforeTwo` | internal/controller/ingressroute.go:57-59 | an accepted, undisturbed atom with eleven groups of which only 2 and 10 claim a name: the request for the download of group 2 is rewritten to the container of group 10 |
| `Counterexamples.RewrittenTwice` | internal/controller/middleware.go:98-103 | an accepted atom whose first download is not claimed earlier but is rewritten once more |
| `Counterexamples.IndexBelowDownloads` | internal/controller/ingressroute.go:122-143 | accepted atoms, with any links, whose second URL lies below the downloads of the first: both the Service and the storage accept the request for its index |
| `Counterexamples.DownloadIsFeed` | internal/controller/ingressroute.go:110-120 | an accepted atom whose download is accepted by the Service as well, as the index of its second URL |
| `Counterexamples.LostForAWhile` | internal/controller/atom_controller.go:220-240 | two accepted versions of an atom between which the shared download is lost after one step |
| `Counterexamples.IndexFeedSharesItsId` | internal/controller/generator/mapper.go:43-81 | an accepted atom whose configuration has two feeds of one id |
| `Counterexamples.EntrySharesItsFeedsId` | internal/controller/generator/mapper.go:252-257 | an accepted atom whose entry is published under the id of its feed |
| `Counterexamples.QuoteUnescaped` | internal/controller/generator/mapper.go:336-344 | an accepted atom whose entry title is escaped in the entry and not in the title of its download link |
| `Counterexamples.BaseURLMoves` | api/v3/atom_validation.go:124-136 | an accepted update that stops serving the URL of before |
| `Counterexamples.ConversionPanics` | api/v2beta1/atom_conversion.go:200-260 | an accepted atom that cannot be converted from the hub |
| `Counterexamples.ExpiredWhenCreated` | internal/controller/atom_controller.go:284-292 | accepted atoms that should live for 106752 to 213503 days and have expired the moment they are created |
| `Counterexamples.OneURLForTwo` | internal/controller/ingressroute.go:76-84 | two accepted atoms of one URL: the stored routes of the second accept the request for the index of the first |

## Left out

- Kubernetes client internals, caches, watches, status, logging, leader election and TLS: no property of their own; a request is a step on a store that may fail.
- Owner references, UIDs and group-version-kind on objects: setting them is an idempotent no-op here.
- Deletion by garbage collection: the runs in `OperatorRuns` are those before an atom is deleted; `Reconciling.Cluster.Reconcile` covers the delete call itself.
- Failing reads of atom and owner info other than "not found": they end the reconcile before anything is written.
- Stale `-atom-downloads-k` middlewares: the code never removes them, so the results speak about wanted objects only.
- Containers, probes, volumes, images beyond their names, resources and the strategy of the Deployment: constants of the code.
- Header middleware contents beyond its constants: it does not touch paths.
- YAML marshalling, mustache rendering, time formatting, hashing and uptime annotations: functions of `Platforms.Platform`, with laws only where stated.
- Schema patterns of optional metadata, identifiers, boxes and other links: `SampleAtoms.SchemaAtom` is about atoms without them.
- Setters of the global base URL and blob endpoint: parameters here.
- General regular expressions: only the anchored alternations of literals and dots that the code builds from such names; other metacharacters fall outside `DownloadRouting.Routable`.
- Brace references in replacements: a dollar sign in a blob prefix falls outside `DownloadRouting.Routable`.
- URL queries, fragments, user info and percent-escapes: a URL is scheme, host, port and path.
- Message texts of validation errors: kept as structured details.
- Calendar and IEEE arithmetic in the conversion: a codec with its round-trip laws.
- Validation.ValidateCreate: the label check of the smooth-operator library is not part of this model; it stands for labels being there, and whatever else that check may refuse is not modelled.
- Validation.ValidateUpdate: the label and URL checks of that library are likewise stand-ins, listed under the assumptions.
- Which of several accepting routes Traefik prefers: the results say exactly when routes of both kinds accept a request.
- Old pods and their restarts during an update: a Service is taken to serve what its Deployment mounts.
- Generated deepcopy code, manifests and webhook registration: generated or declarative; the schema is used for preconditions only.
