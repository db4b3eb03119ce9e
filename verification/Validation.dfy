/** The admission webhook's checks of an atom. */
module Validation {
  import opened Wrappers
  import opened Sequences
  import opened Urls
  import opened AtomTypes

  // ----- Field errors

  datatype PathElement = Child(name: string) | Index(index: nat)

  type FieldPath = seq<PathElement>

  datatype ErrorKind = Duplicate | Invalid | Required | Missing | Forbidden

  /** What the message of an error says. */
  datatype Detail =
    | NoDetail
    | SameAs(other: FieldPath)
    | WhenPresent(other: FieldPath)
    | WhenMultiple(other: FieldPath)
    | About(subject: string)

  datatype FieldError = FieldError(kind: ErrorKind, path: FieldPath, value: string, detail: Detail)

  /** What the validators write through their two pointers. */
  class Report {
    var warnings: seq<string>
    var errors: seq<FieldError>

    constructor ()
      ensures warnings == [] && errors == []
    {
      warnings, errors := [], [];
    }

    method Add(error: FieldError)
      modifies this`errors
      ensures errors == old(errors) + [error]
    {
      errors := errors + [error];
    }

    method AddAll(more: seq<FieldError>)
      modifies this`errors
      ensures errors == old(errors) + more
    {
      errors := errors + more;
    }
  }

  const SERVICE_PATH: FieldPath := [Child("spec"), Child("service")]
  const OWNER_PATH: FieldPath := SERVICE_PATH + [Child("ownerInfoRef")]
  const LABELS_PATH: FieldPath := [Child("metadata"), Child("labels")]
  const URLS_PATH: FieldPath := [Child("spec"), Child("ingressRouteUrls")]

  /** One error if the condition holds. */
  function When(condition: bool, error: FieldError): seq<FieldError> {
    if condition then [error] else []
  }

  // ----- Dataset feeds

  function FeedNames(feeds: seq<DatasetFeed>): seq<string> {
    seq(|feeds|, k requires 0 <= k < |feeds| => feeds[k].technicalName)
  }

  function EntryNames(entries: seq<Entry>): seq<string> {
    seq(|entries|, k requires 0 <= k < |entries| => entries[k].technicalName)
  }

  function FeedPath(i: nat): FieldPath {
    SERVICE_PATH + [Child("datasetFeeds"), Index(i)]
  }

  /** The path of entry `count - 1`: the loop over the entries extends the path it extended before. */
  function EntryPath(feedPath: FieldPath, count: nat): FieldPath {
    if count == 0 then feedPath else EntryPath(feedPath, count - 1) + [Child("entries"), Index(count - 1)]
  }

  predicate SameIdentifier(a: Option<MetadataLink>, b: Option<MetadataLink>) {
    a.Some? && b.Some? && a.value.metadataIdentifier == b.value.metadataIdentifier
  }

  function IdentifierPath(path: FieldPath): FieldPath {
    path + [Child("datasetMetadataLinks"), Child("metadataIdentifier")]
  }

  function DuplicateError(path: FieldPath, name: string): FieldError {
    FieldError(Duplicate, path + [Child("technicalName")], name, NoDetail)
  }

  function IdentifierError(path: FieldPath, identifier: string): FieldError {
    FieldError(Invalid, IdentifierPath(path), identifier,
               SameAs(SERVICE_PATH + [Child("serviceMetadataLinks"), Child("metadataIdentifier")]))
  }

  function CodeError(path: FieldPath): FieldError {
    FieldError(Required, path + [Child("spatialDatasetIdentifierCode")], "",
               WhenPresent(path + [Child("datasetMetadataLinks")]))
  }

  function NamespaceError(path: FieldPath): FieldError {
    FieldError(Required, path + [Child("spatialDatasetIdentifierNamespace")], "",
               WhenPresent(path + [Child("spatialDatasetIdentifierCode")]))
  }

  function ContentError(path: FieldPath): FieldError {
    FieldError(Required, path + [Child("content")], "", WhenMultiple(path + [Child("downloadlinks")]))
  }

  function Identifier(block: Option<MetadataLink>): string {
    if block.Some? then block.value.metadataIdentifier else ""
  }

  /** The errors about a feed itself; `earlier` are the names of the feeds before it. */
  function OwnErrors(service: Service, earlier: seq<string>, feed: DatasetFeed, path: FieldPath): seq<FieldError> {
    When(feed.technicalName in earlier, DuplicateError(path, feed.technicalName)) +
    When(SameIdentifier(feed.datasetMetadataLinks, service.serviceMetadataLinks),
         IdentifierError(path, Identifier(feed.datasetMetadataLinks))) +
    When(feed.datasetMetadataLinks.Some? && feed.spatialDatasetIdentifierCode.None?, CodeError(path)) +
    When(feed.spatialDatasetIdentifierCode.Some? && feed.spatialDatasetIdentifierNamespace.None?, NamespaceError(path))
  }

  /** The errors about one entry; `earlier` are the names of the entries before it. */
  function EntryErrors(earlier: seq<string>, entry: Entry, path: FieldPath): seq<FieldError> {
    When(|entry.downloadLinks| > 1 && entry.content.None?, ContentError(path)) +
    When(entry.technicalName in earlier, DuplicateError(path, entry.technicalName))
  }

  function EntryErrorLists(feedPath: FieldPath, entries: seq<Entry>): seq<seq<FieldError>> {
    seq(|entries|, k requires 0 <= k < |entries| =>
      EntryErrors(EntryNames(entries[..k]), entries[k], EntryPath(feedPath, k + 1)))
  }

  function FeedErrors(service: Service, earlier: seq<string>, feed: DatasetFeed, path: FieldPath): seq<FieldError> {
    OwnErrors(service, earlier, feed, path) + Flatten(EntryErrorLists(path, feed.entries))
  }

  function FeedErrorLists(service: Service): seq<seq<FieldError>> {
    var feeds := service.datasetFeeds;
    seq(|feeds|, i requires 0 <= i < |feeds| => FeedErrors(service, FeedNames(feeds[..i]), feeds[i], FeedPath(i)))
  }

  function DatasetFeedErrors(atom: Atom): seq<FieldError> {
    Flatten(FeedErrorLists(atom.spec.service))
  }

  lemma ReportGrows(before: seq<FieldError>, lists: seq<seq<FieldError>>, i: nat)
    requires i < |lists|
    ensures before + Flatten(lists[..i]) + lists[i] == before + Flatten(lists[..i + 1])
  {
    FlattenPrefix(lists, i);
  }

  lemma FeedListsStep(service: Service, i: nat)
    requires i < |service.datasetFeeds|
    ensures var feeds := service.datasetFeeds;
            && |FeedErrorLists(service)| == |feeds|
            && FeedErrorLists(service)[i] == FeedErrors(service, FeedNames(feeds[..i]), feeds[i], FeedPath(i))
            && FeedNames(feeds[..i + 1]) == FeedNames(feeds[..i]) + [feeds[i].technicalName]
  {
  }

  method ValidateDatasetFeeds(atom: Atom, report: Report)
    modifies report`errors
    ensures report.errors == old(report.errors) + DatasetFeedErrors(atom)
  {
    var service, feeds := atom.spec.service, atom.spec.service.datasetFeeds;
    var feedNames: seq<string> := [];
    ghost var lists := FeedErrorLists(service);
    assert lists[..0] == [] && feeds[..0] == [];
    for i := 0 to |feeds|
      invariant feedNames == FeedNames(feeds[..i])
      invariant report.errors == old(report.errors) + Flatten(lists[..i])
    {
      FeedListsStep(service, i);
      ValidateFeed(service, feedNames, feeds[i], FeedPath(i), report);
      ReportGrows(old(report.errors), lists, i);
      feedNames := feedNames + [feeds[i].technicalName];
    }
    assert lists[..|feeds|] == lists;
  }

  method ValidateFeed(service: Service, feedNames: seq<string>, feed: DatasetFeed, fieldPath: FieldPath, report: Report)
    modifies report`errors
    ensures report.errors == old(report.errors) + FeedErrors(service, feedNames, feed, fieldPath)
  {
    ValidateFeedItself(service, feedNames, feed, fieldPath, report);
    ValidateEntries(feed.entries, fieldPath, report);
  }

  method ValidateFeedItself(service: Service, feedNames: seq<string>, feed: DatasetFeed, fieldPath: FieldPath, report: Report)
    modifies report`errors
    ensures report.errors == old(report.errors) + OwnErrors(service, feedNames, feed, fieldPath)
  {
    if feed.technicalName in feedNames {
      report.Add(DuplicateError(fieldPath, feed.technicalName));
    }
    if feed.datasetMetadataLinks.Some? && service.serviceMetadataLinks.Some? {
      var identifier := feed.datasetMetadataLinks.value.metadataIdentifier;
      if identifier == service.serviceMetadataLinks.value.metadataIdentifier {
        report.Add(IdentifierError(fieldPath, identifier));
      }
    }
    if feed.datasetMetadataLinks.Some? && feed.spatialDatasetIdentifierCode.None? {
      report.Add(CodeError(fieldPath));
    }
    if feed.spatialDatasetIdentifierCode.Some? && feed.spatialDatasetIdentifierNamespace.None? {
      report.Add(NamespaceError(fieldPath));
    }
  }

  /** The inner loop: it keeps reassigning the field path. */
  method ValidateEntries(entries: seq<Entry>, feedPath: FieldPath, report: Report)
    modifies report`errors
    ensures report.errors == old(report.errors) + Flatten(EntryErrorLists(feedPath, entries))
  {
    ghost var lists := EntryErrorLists(feedPath, entries);
    var fieldPath := feedPath;
    var entryNames: seq<string> := [];
    for k := 0 to |entries|
      invariant fieldPath == EntryPath(feedPath, k)
      invariant entryNames == EntryNames(entries[..k])
      invariant report.errors == old(report.errors) + Flatten(lists[..k])
    {
      ReportGrows(old(report.errors), lists, k);
      fieldPath := fieldPath + [Child("entries"), Index(k)];
      ValidateEntry(entryNames, entries[k], fieldPath, report);
      entryNames := entryNames + [entries[k].technicalName];
    }
    assert lists[..|entries|] == lists;
  }

  method ValidateEntry(entryNames: seq<string>, entry: Entry, fieldPath: FieldPath, report: Report)
    modifies report`errors
    ensures report.errors == old(report.errors) + EntryErrors(entryNames, entry, fieldPath)
  {
    if |entry.downloadLinks| > 1 && entry.content.None? {
      report.Add(ContentError(fieldPath));
    }
    if entry.technicalName in entryNames {
      report.Add(DuplicateError(fieldPath, entry.technicalName));
    }
  }

  // ----- Soundness and completeness

  predicate WellFormedEntry(entry: Entry) {
    |entry.downloadLinks| > 1 ==> entry.content.Some?
  }

  ghost predicate WellFormedFeed(service: Service, feed: DatasetFeed) {
    && !SameIdentifier(feed.datasetMetadataLinks, service.serviceMetadataLinks)
    && (feed.datasetMetadataLinks.Some? ==> feed.spatialDatasetIdentifierCode.Some?)
    && (feed.spatialDatasetIdentifierCode.Some? ==> feed.spatialDatasetIdentifierNamespace.Some?)
    && (forall k :: 0 <= k < |feed.entries| ==> WellFormedEntry(feed.entries[k]))
    && NoDuplicates(EntryNames(feed.entries))
  }

  /** What a service's feeds should look like, said without loops. */
  ghost predicate WellFormedFeeds(service: Service) {
    && NoDuplicates(FeedNames(service.datasetFeeds))
    && (forall i :: 0 <= i < |service.datasetFeeds| ==> WellFormedFeed(service, service.datasetFeeds[i]))
  }

  predicate FirstUse(names: seq<string>, k: nat)
    requires k < |names|
  {
    names[k] !in names[..k]
  }

  lemma NoneBefore(names: seq<string>)
    ensures NoDuplicates(names) <==> forall k :: 0 <= k < |names| ==> FirstUse(names, k)
  {
    if forall k :: 0 <= k < |names| ==> FirstUse(names, k) {
      forall i, j | 0 <= i < j < |names|
        ensures names[i] != names[j]
      {
        assert FirstUse(names, j) && names[..j][i] == names[i];
      }
    }
  }

  lemma EntryExactly(entries: seq<Entry>, k: nat, path: FieldPath)
    requires k < |entries|
    ensures EntryErrors(EntryNames(entries[..k]), entries[k], path) == [] <==>
              WellFormedEntry(entries[k]) && FirstUse(EntryNames(entries), k)
  {
    assert EntryNames(entries[..k]) == EntryNames(entries)[..k];
  }

  ghost predicate FineEntry(entries: seq<Entry>, k: nat)
    requires k < |entries|
  {
    WellFormedEntry(entries[k]) && FirstUse(EntryNames(entries), k)
  }

  lemma FineEntries(entries: seq<Entry>)
    ensures (forall k :: 0 <= k < |entries| ==> FineEntry(entries, k)) <==>
              NoDuplicates(EntryNames(entries)) && forall k :: 0 <= k < |entries| ==> WellFormedEntry(entries[k])
  {
    var names := EntryNames(entries);
    NoneBefore(names);
    if forall k :: 0 <= k < |entries| ==> FineEntry(entries, k) {
      forall k | 0 <= k < |names|
        ensures FirstUse(names, k) && WellFormedEntry(entries[k])
      {
        assert FineEntry(entries, k);
      }
    }
  }

  lemma EntriesExactly(feedPath: FieldPath, entries: seq<Entry>)
    ensures Flatten(EntryErrorLists(feedPath, entries)) == [] <==>
              NoDuplicates(EntryNames(entries)) && forall k :: 0 <= k < |entries| ==> WellFormedEntry(entries[k])
  {
    var lists := EntryErrorLists(feedPath, entries);
    FlattenEmpty(lists);
    FineEntries(entries);
    AllFine(feedPath, entries);
  }

  lemma AllFine(feedPath: FieldPath, entries: seq<Entry>)
    ensures (forall k :: 0 <= k < |entries| ==> EntryErrorLists(feedPath, entries)[k] == []) <==>
              forall k :: 0 <= k < |entries| ==> FineEntry(entries, k)
  {
    forall k | 0 <= k < |entries|
      ensures EntryErrorLists(feedPath, entries)[k] == [] <==> FineEntry(entries, k)
    {
      EntryExactly(entries, k, EntryPath(feedPath, k + 1));
    }
  }

  lemma FeedExactly(service: Service, i: nat, path: FieldPath)
    requires i < |service.datasetFeeds|
    ensures var feeds := service.datasetFeeds;
            FeedErrors(service, FeedNames(feeds[..i]), feeds[i], path) == [] <==>
              WellFormedFeed(service, feeds[i]) && FirstUse(FeedNames(feeds), i)
  {
    var feeds := service.datasetFeeds;
    assert FeedNames(feeds[..i]) == FeedNames(feeds)[..i];
    EntriesExactly(path, feeds[i].entries);
  }

  /** The validator is silent exactly about well-formed feeds. */
  lemma DatasetFeedErrorsExactly(atom: Atom)
    ensures DatasetFeedErrors(atom) == [] <==> WellFormedFeeds(atom.spec.service)
  {
    var service := atom.spec.service;
    FlattenEmpty(FeedErrorLists(service));
    AllFeedsFine(service);
    FineFeeds(service);
  }

  /** The feed is well formed and its name not used before. */
  ghost predicate FineFeed(service: Service, i: nat)
    requires i < |service.datasetFeeds|
  {
    WellFormedFeed(service, service.datasetFeeds[i]) && FirstUse(FeedNames(service.datasetFeeds), i)
  }

  lemma AllFeedsFine(service: Service)
    ensures (forall i :: 0 <= i < |service.datasetFeeds| ==> FeedErrorLists(service)[i] == []) <==>
              forall i :: 0 <= i < |service.datasetFeeds| ==> FineFeed(service, i)
  {
    forall i | 0 <= i < |service.datasetFeeds|
      ensures FeedErrorLists(service)[i] == [] <==> FineFeed(service, i)
    {
      FeedExactly(service, i, FeedPath(i));
    }
  }

  lemma FineFeeds(service: Service)
    ensures (forall i :: 0 <= i < |service.datasetFeeds| ==> FineFeed(service, i)) <==> WellFormedFeeds(service)
  {
    var feeds := service.datasetFeeds;
    NoneBefore(FeedNames(feeds));
    if forall i :: 0 <= i < |feeds| ==> FineFeed(service, i) {
      forall i | 0 <= i < |feeds|
        ensures FirstUse(FeedNames(feeds), i) && WellFormedFeed(service, feeds[i])
      {
        assert FineFeed(service, i);
      }
    }
  }

  // ----- How many duplicates are reported

  function CountDuplicates(errors: seq<FieldError>): nat {
    if errors == [] then 0
    else CountDuplicates(errors[..|errors| - 1]) + if errors[|errors| - 1].kind == Duplicate then 1 else 0
  }

  lemma {:induction false} CountAppend(a: seq<FieldError>, b: seq<FieldError>)
    ensures CountDuplicates(a + b) == CountDuplicates(a) + CountDuplicates(b)
  {
    if b == [] {
      assert a + b == a;
    } else {
      CountAppend(a, b[..|b| - 1]);
      assert (a + b)[..|a + b| - 1] == a + b[..|b| - 1];
    }
  }

  lemma CountWhen(condition: bool, error: FieldError)
    ensures CountDuplicates(When(condition, error)) == if condition && error.kind == Duplicate then 1 else 0
  {
    assert [error][..0] == [];
  }

  function Counts(lists: seq<seq<FieldError>>): seq<nat> {
    seq(|lists|, k requires 0 <= k < |lists| => CountDuplicates(lists[k]))
  }

  lemma {:induction false} CountFlatten(lists: seq<seq<FieldError>>)
    ensures CountDuplicates(Flatten(lists)) == Sum(Counts(lists))
  {
    if lists != [] {
      var init, last := lists[..|lists| - 1], lists[|lists| - 1];
      CountFlatten(init);
      CountAppend(Flatten(init), last);
      assert Counts(lists)[..|init|] == Counts(init);
    }
  }

  /** How many names of the list occurred before. */
  function Repeats(names: seq<string>): nat {
    |names| - |Distinct(names)|
  }

  function RepeatFlags(names: seq<string>): seq<nat> {
    seq(|names|, k requires 0 <= k < |names| => if names[k] in names[..k] then 1 else 0)
  }

  lemma {:induction false} FlagsAddUp(names: seq<string>)
    ensures Sum(RepeatFlags(names)) == Repeats(names)
  {
    if names != [] {
      var init, last := names[..|names| - 1], names[|names| - 1];
      FlagsAddUp(init);
      DistinctAppend(init, last);
      assert names == init + [last];
      forall k | 0 <= k < |init|
        ensures RepeatFlags(names)[k] == RepeatFlags(init)[k]
      {
        assert names[..k] == init[..k];
      }
      assert RepeatFlags(names)[..|init|] == RepeatFlags(init);
    }
  }

  lemma EntryDuplicate(earlier: seq<string>, entry: Entry, path: FieldPath)
    ensures CountDuplicates(EntryErrors(earlier, entry, path)) == if entry.technicalName in earlier then 1 else 0
  {
    var content := When(|entry.downloadLinks| > 1 && entry.content.None?, ContentError(path));
    CountAppend(content, When(entry.technicalName in earlier, DuplicateError(path, entry.technicalName)));
    CountWhen(|entry.downloadLinks| > 1 && entry.content.None?, ContentError(path));
    CountWhen(entry.technicalName in earlier, DuplicateError(path, entry.technicalName));
  }

  lemma EntryDuplicates(feedPath: FieldPath, entries: seq<Entry>)
    ensures CountDuplicates(Flatten(EntryErrorLists(feedPath, entries))) == Repeats(EntryNames(entries))
  {
    var lists, names := EntryErrorLists(feedPath, entries), EntryNames(entries);
    CountFlatten(lists);
    FlagsAddUp(names);
    forall k | 0 <= k < |entries|
      ensures Counts(lists)[k] == RepeatFlags(names)[k]
    {
      EntryDuplicateAt(feedPath, entries, k);
    }
    assert Counts(lists) == RepeatFlags(names);
  }

  lemma EntryDuplicateAt(feedPath: FieldPath, entries: seq<Entry>, k: nat)
    requires k < |entries|
    ensures CountDuplicates(EntryErrorLists(feedPath, entries)[k]) == RepeatFlags(EntryNames(entries))[k]
  {
    EntryDuplicate(EntryNames(entries[..k]), entries[k], EntryPath(feedPath, k + 1));
    assert EntryNames(entries[..k]) == EntryNames(entries)[..k];
  }

  lemma OwnDuplicate(service: Service, earlier: seq<string>, feed: DatasetFeed, path: FieldPath)
    ensures CountDuplicates(OwnErrors(service, earlier, feed, path)) == if feed.technicalName in earlier then 1 else 0
  {
    var same := SameIdentifier(feed.datasetMetadataLinks, service.serviceMetadataLinks);
    var noCode := feed.datasetMetadataLinks.Some? && feed.spatialDatasetIdentifierCode.None?;
    var noNamespace := feed.spatialDatasetIdentifierCode.Some? && feed.spatialDatasetIdentifierNamespace.None?;
    var a := When(feed.technicalName in earlier, DuplicateError(path, feed.technicalName));
    var b := When(same, IdentifierError(path, Identifier(feed.datasetMetadataLinks)));
    var c, d := When(noCode, CodeError(path)), When(noNamespace, NamespaceError(path));
    CountAppend(a + b + c, d);
    CountAppend(a + b, c);
    CountAppend(a, b);
    CountWhen(feed.technicalName in earlier, DuplicateError(path, feed.technicalName));
    CountWhen(same, IdentifierError(path, Identifier(feed.datasetMetadataLinks)));
    CountWhen(noCode, CodeError(path));
    CountWhen(noNamespace, NamespaceError(path));
  }

  /** Per feed, the repeated names among its entries. */
  function EntryRepeats(feeds: seq<DatasetFeed>): seq<nat> {
    seq(|feeds|, i requires 0 <= i < |feeds| => Repeats(EntryNames(feeds[i].entries)))
  }

  lemma {:induction false} SumPointwise(xs: seq<nat>, ys: seq<nat>, zs: seq<nat>)
    requires |xs| == |ys| == |zs|
    requires forall k :: 0 <= k < |xs| ==> xs[k] == ys[k] + zs[k]
    ensures Sum(xs) == Sum(ys) + Sum(zs)
  {
    if xs != [] {
      var n := |xs| - 1;
      SumPointwise(xs[..n], ys[..n], zs[..n]);
    }
  }

  /** Every repetition of a name is reported once: on each level, the names minus the distinct names. */
  lemma DuplicatesReportedOnce(atom: Atom)
    ensures var feeds := atom.spec.service.datasetFeeds;
            CountDuplicates(DatasetFeedErrors(atom)) == Repeats(FeedNames(feeds)) + Sum(EntryRepeats(feeds))
  {
    var service, feeds := atom.spec.service, atom.spec.service.datasetFeeds;
    var lists, names := FeedErrorLists(service), FeedNames(feeds);
    CountFlatten(lists);
    FlagsAddUp(names);
    forall i | 0 <= i < |feeds|
      ensures Counts(lists)[i] == RepeatFlags(names)[i] + EntryRepeats(feeds)[i]
    {
      FeedDuplicatesAt(service, i);
    }
    SumPointwise(Counts(lists), RepeatFlags(names), EntryRepeats(feeds));
  }

  lemma FeedDuplicatesAt(service: Service, i: nat)
    requires i < |service.datasetFeeds|
    ensures var feeds := service.datasetFeeds;
            CountDuplicates(FeedErrorLists(service)[i]) == RepeatFlags(FeedNames(feeds))[i] + EntryRepeats(feeds)[i]
  {
    var feeds := service.datasetFeeds;
    var own := OwnErrors(service, FeedNames(feeds[..i]), feeds[i], FeedPath(i));
    CountAppend(own, Flatten(EntryErrorLists(FeedPath(i), feeds[i].entries)));
    OwnDuplicate(service, FeedNames(feeds[..i]), feeds[i], FeedPath(i));
    EntryDuplicates(FeedPath(i), feeds[i].entries);
    assert FeedNames(feeds[..i]) == FeedNames(feeds)[..i];
  }

  // ----- Where errors are reported

  /** No two errors are reported at the same path. */
  ghost predicate PathsDiffer(errors: seq<FieldError>) {
    forall i, j :: 0 <= i < j < |errors| ==> errors[i].path != errors[j].path
  }

  ghost predicate ApartFrom(a: seq<FieldError>, b: seq<FieldError>) {
    forall x, y :: x in a && y in b ==> x.path != y.path
  }

  lemma PathsDifferAppend(a: seq<FieldError>, b: seq<FieldError>)
    requires PathsDiffer(a) && PathsDiffer(b) && ApartFrom(a, b)
    ensures PathsDiffer(a + b)
  {
    forall i, j | 0 <= i < j < |a + b|
      ensures (a + b)[i].path != (a + b)[j].path
    {
      if i < |a| <= j {
        assert a[i] in a && b[j - |a|] in b;
      }
    }
  }

  lemma {:induction false} PathsDifferFlatten(lists: seq<seq<FieldError>>)
    requires forall i :: 0 <= i < |lists| ==> PathsDiffer(lists[i])
    requires forall i, j :: 0 <= i < j < |lists| ==> ApartFrom(lists[i], lists[j])
    ensures PathsDiffer(Flatten(lists))
  {
    if lists != [] {
      var init, last := lists[..|lists| - 1], lists[|lists| - 1];
      PathsDifferFlatten(init);
      forall x: FieldError, y: FieldError | x in Flatten(init) && y in last
        ensures x.path != y.path
      {
        FlattenMember(init, x);
        var i :| 0 <= i < |init| && x in init[i];
        assert ApartFrom(lists[i], last);
      }
      PathsDifferAppend(Flatten(init), last);
    }
  }

  lemma {:induction false} EntryPathShape(feedPath: FieldPath, count: nat)
    ensures |EntryPath(feedPath, count)| == |feedPath| + 2 * count
    ensures feedPath <= EntryPath(feedPath, count)
    ensures count > 0 ==> EntryPath(feedPath, count)[|feedPath|] == Child("entries")
  {
    if count > 0 {
      EntryPathShape(feedPath, count - 1);
    }
  }

  /** The errors of an entry lie one step below its path, and apart. */
  lemma EntryErrorPaths(earlier: seq<string>, entry: Entry, path: FieldPath)
    ensures PathsDiffer(EntryErrors(earlier, entry, path))
    ensures forall x :: x in EntryErrors(earlier, entry, path) ==> path < x.path && |x.path| == |path| + 1
  {
    assert (path + [Child("content")])[|path|] != (path + [Child("technicalName")])[|path|];
  }

  /** The errors of all entries of a feed lie under its "entries", and apart: later entries are deeper. */
  lemma EntriesErrorPaths(feedPath: FieldPath, entries: seq<Entry>)
    ensures PathsDiffer(Flatten(EntryErrorLists(feedPath, entries)))
    ensures forall x :: x in Flatten(EntryErrorLists(feedPath, entries)) ==>
              feedPath < x.path && x.path[|feedPath|] == Child("entries")
  {
    var lists := EntryErrorLists(feedPath, entries);
    forall k | 0 <= k < |lists|
      ensures PathsDiffer(lists[k])
      ensures forall x: FieldError :: x in lists[k] ==>
                |x.path| == |feedPath| + 2 * k + 3 && feedPath < x.path && x.path[|feedPath|] == Child("entries")
    {
      EntryErrorPaths(EntryNames(entries[..k]), entries[k], EntryPath(feedPath, k + 1));
      EntryPathShape(feedPath, k + 1);
    }
    PathsDifferFlatten(lists);
    forall x | x in Flatten(lists)
      ensures feedPath < x.path && x.path[|feedPath|] == Child("entries")
    {
      FlattenMember(lists, x);
    }
  }

  /** The paths at which a feed itself is checked are different ones, and not under "entries". */
  lemma OwnPathsApart(path: FieldPath)
    ensures NoDuplicates(OwnPaths(path))
    ensures forall p :: p in OwnPaths(path) ==> path < p && p[|path|] != Child("entries")
  {
    var code, namespace := "spatialDatasetIdentifierCode", "spatialDatasetIdentifierNamespace";
    assert code[24] != namespace[24];
    ChildPath(path, Child("technicalName"));
    ChildPath(path, Child(code));
    ChildPath(path, Child(namespace));
    assert IdentifierPath(path)[|path|] == Child("datasetMetadataLinks");
  }

  lemma ChildPath(path: FieldPath, child: PathElement)
    ensures path < path + [child] && (path + [child])[|path|] == child
  {
  }

  function OwnPaths(path: FieldPath): seq<FieldPath> {
    [path + [Child("technicalName")], IdentifierPath(path), path + [Child("spatialDatasetIdentifierCode")],
     path + [Child("spatialDatasetIdentifierNamespace")]]
  }

  /** The errors of a feed itself lie below its path but not under "entries", and apart. */
  lemma OwnErrorPaths(service: Service, earlier: seq<string>, feed: DatasetFeed, path: FieldPath)
    ensures PathsDiffer(OwnErrors(service, earlier, feed, path))
    ensures forall x :: x in OwnErrors(service, earlier, feed, path) ==> path < x.path && x.path[|path|] != Child("entries")
  {
    OwnPathsApart(path);
    var paths := OwnPaths(path);
    var a := When(feed.technicalName in earlier, DuplicateError(path, feed.technicalName));
    var b := When(SameIdentifier(feed.datasetMetadataLinks, service.serviceMetadataLinks),
                  IdentifierError(path, Identifier(feed.datasetMetadataLinks)));
    var c := When(feed.datasetMetadataLinks.Some? && feed.spatialDatasetIdentifierCode.None?, CodeError(path));
    var d := When(feed.spatialDatasetIdentifierCode.Some? && feed.spatialDatasetIdentifierNamespace.None?, NamespaceError(path));
    FourApart(a, b, c, d, paths);
  }

  predicate AtMostOne(errors: seq<FieldError>, path: FieldPath) {
    |errors| <= 1 && (errors != [] ==> errors[0].path == path)
  }

  ghost predicate AtPaths(errors: seq<FieldError>, paths: seq<FieldPath>) {
    PathsDiffer(errors) && forall k :: 0 <= k < |errors| ==> errors[k].path in paths
  }

  /** One more error at a new path. */
  lemma OneMorePath(errors: seq<FieldError>, more: seq<FieldError>, paths: seq<FieldPath>, path: FieldPath)
    requires AtPaths(errors, paths) && AtMostOne(more, path) && path !in paths
    ensures AtPaths(errors + more, paths + [path])
  {
    PathsDifferAppend(errors, more);
  }

  lemma FourApart(a: seq<FieldError>, b: seq<FieldError>, c: seq<FieldError>, d: seq<FieldError>, paths: seq<FieldPath>)
    requires |paths| == 4 && NoDuplicates(paths)
    requires AtMostOne(a, paths[0]) && AtMostOne(b, paths[1]) && AtMostOne(c, paths[2]) && AtMostOne(d, paths[3])
    ensures AtPaths(a + b + c + d, paths)
  {
    OneMorePath([], a, [], paths[0]);
    OneMorePath(a, b, [paths[0]], paths[1]);
    OneMorePath(a + b, c, [paths[0], paths[1]], paths[2]);
    OneMorePath(a + b + c, d, [paths[0], paths[1], paths[2]], paths[3]);
    assert [] + a == a && [] + [paths[0]] == [paths[0]] && [paths[0]] + [paths[1]] == [paths[0], paths[1]];
    assert [paths[0], paths[1]] + [paths[2]] == [paths[0], paths[1], paths[2]];
    assert [paths[0], paths[1], paths[2]] + [paths[3]] == paths;
  }

  /** No two errors share a path, although the path of an entry piles up those of the entries before it. */
  lemma ErrorPathsDistinct(atom: Atom)
    ensures PathsDiffer(DatasetFeedErrors(atom))
  {
    var service, feeds := atom.spec.service, atom.spec.service.datasetFeeds;
    var lists := FeedErrorLists(service);
    forall i | 0 <= i < |lists|
      ensures PathsDiffer(lists[i])
      ensures forall x: FieldError :: x in lists[i] ==> FeedPath(i) < x.path
    {
      var own := OwnErrors(service, FeedNames(feeds[..i]), feeds[i], FeedPath(i));
      var inner := Flatten(EntryErrorLists(FeedPath(i), feeds[i].entries));
      OwnErrorPaths(service, FeedNames(feeds[..i]), feeds[i], FeedPath(i));
      EntriesErrorPaths(FeedPath(i), feeds[i].entries);
      PathsDifferAppend(own, inner);
    }
    forall i, j | 0 <= i < j < |lists|
      ensures ApartFrom(lists[i], lists[j])
    {
      assert FeedPath(i)[3] != FeedPath(j)[3];
    }
    PathsDifferFlatten(lists);
  }

  // ----- Owner info

  function FeedTemplates(feeds: seq<DatasetFeed>): seq<seq<string>> {
    seq(|feeds|, i requires 0 <= i < |feeds| =>
      if feeds[i].datasetMetadataLinks.Some? then feeds[i].datasetMetadataLinks.value.templates else [])
  }

  /** All metadata templates the atom uses, of the service and of its feeds. */
  function UsedTemplates(atom: Atom): seq<string> {
    var service := atom.spec.service;
    (if service.serviceMetadataLinks.Some? then service.serviceMetadataLinks.value.templates else []) +
    Flatten(FeedTemplates(service.datasetFeeds))
  }

  function MissingTemplate(subject: string, owner: OwnerInfo): FieldError {
    FieldError(Required, OWNER_PATH, "", About(subject + owner.name))
  }

  function MissingTemplates(used: seq<string>, owner: OwnerInfo): seq<FieldError> {
    var urls := owner.metadataUrls;
    When("csw" in used && (urls.None? || urls.value.csw.None?), MissingTemplate("spec.metadataUrls.csw missing in ", owner)) +
    When("html" in used && (urls.None? || urls.value.html.None?), MissingTemplate("spec.metadataUrls.html missing in ", owner)) +
    When("opensearch" in used && (urls.None? || urls.value.openSearch.None?),
         MissingTemplate("spec.metadataUrls.opensearch missing in ", owner))
  }

  function TemplateErrors(atom: Atom, owner: OwnerInfo): seq<FieldError> {
    MissingTemplates(UsedTemplates(atom), owner)
  }

  method CollectTemplates(atom: Atom) returns (templates: seq<string>)
    ensures templates == UsedTemplates(atom)
  {
    var service, feeds := atom.spec.service, atom.spec.service.datasetFeeds;
    templates := [];
    if service.serviceMetadataLinks.Some? {
      templates := service.serviceMetadataLinks.value.templates;
    }
    ghost var own, lists := templates, FeedTemplates(feeds);
    for i := 0 to |feeds|
      invariant templates == own + Flatten(lists[..i])
    {
      FlattenPrefix(lists, i);
      ConcatAssociative(own, Flatten(lists[..i]), lists[i]);
      if feeds[i].datasetMetadataLinks.Some? {
        templates := templates + feeds[i].datasetMetadataLinks.value.templates;
      }
    }
    assert lists[..|feeds|] == lists;
  }

  method ValidateMetadataTemplates(atom: Atom, owner: OwnerInfo, report: Report)
    modifies report`errors
    ensures report.errors == old(report.errors) + TemplateErrors(atom, owner)
  {
    var templates := CollectTemplates(atom);
    if |templates| > 0 {
      ReportMissing(templates, owner, report);
    }
  }

  method ReportMissing(templates: seq<string>, owner: OwnerInfo, report: Report)
    modifies report`errors
    ensures report.errors == old(report.errors) + MissingTemplates(templates, owner)
  {
    var urls := owner.metadataUrls;
    if "csw" in templates && (urls.None? || urls.value.csw.None?) {
      report.Add(MissingTemplate("spec.metadataUrls.csw missing in ", owner));
    }
    if "html" in templates && (urls.None? || urls.value.html.None?) {
      report.Add(MissingTemplate("spec.metadataUrls.html missing in ", owner));
    }
    if "opensearch" in templates && (urls.None? || urls.value.openSearch.None?) {
      report.Add(MissingTemplate("spec.metadataUrls.opensearch missing in ", owner));
    }
  }

  /** The OwnerInfos of the namespace, by name. */
  type Owners = map<string, OwnerInfo>

  function OwnerErrors(owners: Owners, atom: Atom): seq<FieldError> {
    var ref := atom.spec.service.ownerInfoRef;
    if ref !in owners then [FieldError(Missing, OWNER_PATH, ref, NoDetail)]
    else if owners[ref].atom.None? then [MissingTemplate("spec.Atom missing in ", owners[ref])]
    else TemplateErrors(atom, owners[ref])
  }

  method ValidateOwnerInfo(owners: Owners, atom: Atom, report: Report)
    modifies report`errors
    ensures report.errors == old(report.errors) + OwnerErrors(owners, atom)
  {
    var ref := atom.spec.service.ownerInfoRef;
    if ref !in owners {
      report.Add(FieldError(Missing, OWNER_PATH, ref, NoDetail));
      return;
    }
    if owners[ref].atom.None? {
      report.Add(MissingTemplate("spec.Atom missing in ", owners[ref]));
    } else {
      ValidateMetadataTemplates(atom, owners[ref], report);
    }
  }

  // ----- Labels and URLs, as the operator's library checks them

  function LabelErrorsOnCreate(labels: Labels): seq<FieldError> {
    When(labels == map[], FieldError(Required, LABELS_PATH, "", NoDetail))
  }

  /** Label names can neither be added nor deleted, and their values are immutable. */
  function LabelErrorsOnUpdate(before: Labels, labels: Labels): seq<FieldError> {
    When(exists k :: k in labels && k !in before, FieldError(Forbidden, LABELS_PATH, "", NoDetail)) +
    When(exists k :: k in before && k !in labels, FieldError(Required, LABELS_PATH, "", NoDetail)) +
    When(exists k :: k in before && k in labels && before[k] != labels[k], FieldError(Invalid, LABELS_PATH, "", NoDetail))
  }

  lemma LabelsKept(before: Labels, labels: Labels)
    ensures LabelErrorsOnUpdate(before, labels) == [] <==> before == labels
  {
    if LabelErrorsOnUpdate(before, labels) == [] {
      assert before.Keys == labels.Keys;
    }
  }

  predicate ListsURL(urls: seq<URL>, url: URL) {
    exists k :: 0 <= k < |urls| && urls[k].String() == url.String()
  }

  function ImmutabilityErrors(before: URL, url: URL): seq<FieldError> {
    When(before.String() != url.String(), FieldError(Forbidden, SERVICE_PATH + [Child("baseUrl")], "", NoDetail))
  }

  /** An empty or absent list need not hold the base URL. */
  function BaseURLErrors(urls: seq<URL>, baseURL: URL): seq<FieldError> {
    When(urls != [] && !ListsURL(urls, baseURL), FieldError(Invalid, URLS_PATH, baseURL.String(), NoDetail))
  }

  function RemovalErrors(before: seq<URL>, urls: seq<URL>): seq<FieldError> {
    When(exists k :: 0 <= k < |before| && !ListsURL(urls, before[k]), FieldError(Invalid, URLS_PATH, "", NoDetail))
  }

  // ----- Create and update

  predicate Contains(s: string, part: string) {
    part <= s || (s != "" && Contains(s[1..], part))
  }

  function Warnings(atom: Atom): seq<string> {
    if Contains(atom.meta.name, "atom") then
      ["pdok.nl/v3, Kind=Atom/" + atom.meta.name + ": metadata.name: should not contain atom"]
    else
      []
  }

  function AtomErrors(atom: Atom): seq<FieldError> {
    DatasetFeedErrors(atom) + BaseURLErrors(atom.ListedURLs(), atom.spec.service.baseURL)
  }

  method ValidateAtom(atom: Atom, report: Report)
    modifies report
    ensures report.warnings == old(report.warnings) + Warnings(atom)
    ensures report.errors == old(report.errors) + AtomErrors(atom)
  {
    report.warnings := report.warnings + Warnings(atom);
    ValidateDatasetFeeds(atom, report);
    report.AddAll(BaseURLErrors(atom.ListedURLs(), atom.spec.service.baseURL));
  }

  /** `owners` is None when there is no client to ask. */
  function OptionalOwnerErrors(owners: Option<Owners>, atom: Atom): seq<FieldError> {
    if owners.Some? then OwnerErrors(owners.value, atom) else []
  }

  function CreateErrors(owners: Option<Owners>, atom: Atom): seq<FieldError> {
    LabelErrorsOnCreate(atom.meta.labels) + AtomErrors(atom) +
    OptionalOwnerErrors(owners, atom)
  }

  method ValidateCreate(owners: Option<Owners>, atom: Atom, report: Report)
    modifies report
    ensures report.warnings == old(report.warnings) + Warnings(atom)
    ensures report.errors == old(report.errors) + CreateErrors(owners, atom)
  {
    var labelErrors := LabelErrorsOnCreate(atom.meta.labels);
    report.AddAll(labelErrors);
    ValidateAtom(atom, report);
    ConcatAssociative(old(report.errors), labelErrors, AtomErrors(atom));
    ValidateOptionalOwnerInfo(owners, atom, report);
    ConcatAssociative(old(report.errors), labelErrors + AtomErrors(atom), OptionalOwnerErrors(owners, atom));
  }

  /** Only validate the owner info if a client is available. */
  method ValidateOptionalOwnerInfo(owners: Option<Owners>, atom: Atom, report: Report)
    modifies report`errors
    ensures report.errors == old(report.errors) + OptionalOwnerErrors(owners, atom)
  {
    if owners.Some? {
      ValidateOwnerInfo(owners.value, atom, report);
    }
  }

  function URLErrors(before: Atom, atom: Atom): seq<FieldError> {
    var base, baseBefore := atom.spec.service.baseURL, before.spec.service.baseURL;
    (if atom.spec.ingressRouteURLs.None? then ImmutabilityErrors(baseBefore, base)
     else if base.String() != baseBefore.String() then BaseURLErrors(atom.ListedURLs(), baseBefore)
     else []) +
    RemovalErrors(before.ListedURLs(), atom.ListedURLs())
  }

  function UpdateErrors(owners: Option<Owners>, before: Atom, atom: Atom): seq<FieldError> {
    LabelErrorsOnUpdate(before.meta.labels, atom.meta.labels) + URLErrors(before, atom) + AtomErrors(atom) +
    OptionalOwnerErrors(owners, atom)
  }

  method ValidateUpdate(owners: Option<Owners>, before: Atom, atom: Atom, report: Report)
    modifies report
    ensures report.warnings == old(report.warnings) + Warnings(atom)
    ensures report.errors == old(report.errors) + UpdateErrors(owners, before, atom)
  {
    var labelErrors := LabelErrorsOnUpdate(before.meta.labels, atom.meta.labels);
    report.AddAll(labelErrors);
    ValidateURLs(before, atom, report);
    ConcatAssociative(old(report.errors), labelErrors, URLErrors(before, atom));
    ValidateAtom(atom, report);
    ghost var soFar := labelErrors + URLErrors(before, atom);
    ConcatAssociative(old(report.errors), soFar, AtomErrors(atom));
    ValidateOptionalOwnerInfo(owners, atom, report);
    ConcatAssociative(old(report.errors), soFar + AtomErrors(atom), OptionalOwnerErrors(owners, atom));
  }

  /** Neither the old base URL nor a listed URL may go. */
  method ValidateURLs(before: Atom, atom: Atom, report: Report)
    modifies report`errors
    ensures report.errors == old(report.errors) + URLErrors(before, atom)
  {
    var baseURL, baseBefore := atom.spec.service.baseURL, before.spec.service.baseURL;
    if atom.spec.ingressRouteURLs.None? {
      report.AddAll(ImmutabilityErrors(baseBefore, baseURL));
    } else if baseURL.String() != baseBefore.String() {
      report.AddAll(BaseURLErrors(atom.ListedURLs(), baseBefore));
    }
    report.AddAll(RemovalErrors(before.ListedURLs(), atom.ListedURLs()));
  }
}
