/** Histories of an atom that the webhook accepts: what stays served, selected and mappable. */
module Admission {
  import opened Wrappers
  import opened Sequences
  import opened AtomTypes
  import opened KubeObjects
  import opened Validation
  import opened Platforms
  import opened Mapper
  import opened Middlewares

  predicate AcceptsCreate(owners: Option<Owners>, atom: Atom) {
    CreateErrors(owners, atom) == []
  }

  predicate AcceptsUpdate(owners: Option<Owners>, before: Atom, atom: Atom) {
    UpdateErrors(owners, before, atom) == []
  }

  /** The texts of the URLs the atom is served at. */
  function Served(atom: Atom): set<string> {
    set url | url in atom.ServedURLs() :: url.String()
  }

  /** The texts of the base URL and of all listed URLs. */
  function Known(atom: Atom): set<string> {
    {atom.spec.service.baseURL.String()} + set url | url in atom.ListedURLs() :: url.String()
  }

  lemma ServedMember(atom: Atom, text: string)
    ensures text in Served(atom) <==>
              if atom.ListedURLs() == [] then text == atom.spec.service.baseURL.String()
              else exists k :: 0 <= k < |atom.ListedURLs()| && atom.ListedURLs()[k].String() == text
  {
    if url :| url in atom.ServedURLs() && url.String() == text {
      var k :| 0 <= k < |atom.ServedURLs()| && atom.ServedURLs()[k] == url;
    }
    if k :| 0 <= k < |atom.ListedURLs()| && atom.ListedURLs()[k].String() == text {
      assert atom.ListedURLs()[k] in atom.ServedURLs();
    }
    if atom.ListedURLs() == [] {
      assert atom.spec.service.baseURL in atom.ServedURLs();
    }
  }

  /** An atom whose base URL was checked is served at every URL it knows. */
  lemma ServedIsKnown(atom: Atom)
    requires BaseURLErrors(atom.ListedURLs(), atom.spec.service.baseURL) == []
    ensures Served(atom) == Known(atom)
  {
    forall text
      ensures text in Served(atom) <==> text in Known(atom)
    {
      ServedMember(atom, text);
      var urls := atom.ListedURLs();
      if k :| 0 <= k < |urls| && urls[k].String() == text {
        assert urls[k] in urls;
      }
      if url :| url in urls && url.String() == text {
        var k :| 0 <= k < |urls| && urls[k] == url;
        assert urls[k].String() == text;
      }
    }
  }

  lemma AcceptedBaseURL(owners: Option<Owners>, atom: Atom)
    requires AtomErrors(atom) == []
    ensures BaseURLErrors(atom.ListedURLs(), atom.spec.service.baseURL) == []
  {
  }

  /**
   * An accepted update keeps every served URL served, with one exception: a list that is present but
   * empty lets the base URL change unnoticed.
   */
  lemma UpdateKeepsServing(owners: Option<Owners>, before: Atom, atom: Atom)
    requires AtomErrors(before) == [] && AcceptsUpdate(owners, before, atom)
    ensures Served(before) <= Served(atom) <==>
              !(atom.spec.ingressRouteURLs == Some([]) &&
                atom.spec.service.baseURL.String() != before.spec.service.baseURL.String())
  {
    AcceptedBaseURL(owners, before);
    AcceptedBaseURL(owners, atom);
    ServedIsKnown(before);
    ServedIsKnown(atom);
    AcceptedURLs(owners, before, atom);
    if atom.ListedURLs() == [] {
      EmptyListKeeps(before, atom);
    } else {
      ListKeepsKnown(before, atom);
    }
  }

  lemma AcceptedURLs(owners: Option<Owners>, before: Atom, atom: Atom)
    requires AcceptsUpdate(owners, before, atom)
    ensures URLErrors(before, atom) == [] && RemovalErrors(before.ListedURLs(), atom.ListedURLs()) == []
  {
    assert URLErrors(before, atom) == [];
  }

  lemma EmptyListKeeps(before: Atom, atom: Atom)
    requires RemovalErrors(before.ListedURLs(), atom.ListedURLs()) == [] && atom.ListedURLs() == []
    ensures before.ListedURLs() == []
    ensures Known(before) == {before.spec.service.baseURL.String()} && Known(atom) == {atom.spec.service.baseURL.String()}
  {
    var urls := before.ListedURLs();
    assert |urls| > 0 ==> ListsURL(atom.ListedURLs(), urls[0]);
  }

  /** A list that is not empty has all URLs known before. */
  lemma ListKeepsKnown(before: Atom, atom: Atom)
    requires URLErrors(before, atom) == [] && RemovalErrors(before.ListedURLs(), atom.ListedURLs()) == []
    requires BaseURLErrors(atom.ListedURLs(), atom.spec.service.baseURL) == [] && atom.ListedURLs() != []
    ensures Known(before) <= Served(atom)
  {
    var baseText := before.spec.service.baseURL.String();
    forall text | text in Known(before)
      ensures text in Served(atom)
    {
      ServedMember(atom, text);
      if text != baseText {
        var url :| url in before.ListedURLs() && url.String() == text;
        var k :| 0 <= k < |before.ListedURLs()| && before.ListedURLs()[k] == url;
        assert ListsURL(atom.ListedURLs(), before.ListedURLs()[k]);
      } else {
        assert ListsURL(atom.ListedURLs(), before.spec.service.baseURL) ||
               ListsURL(atom.ListedURLs(), atom.spec.service.baseURL);
      }
    }
  }

  // ----- Whole histories

  /** A created atom and its accepted updates; the OwnerInfos may differ at every step. */
  ghost predicate AcceptedHistory(owners: seq<Option<Owners>>, history: seq<Atom>) {
    |owners| == |history| > 0 &&
    AcceptsCreate(owners[0], history[0]) &&
    forall i :: 0 < i < |history| ==> AcceptsUpdate(owners[i], history[i - 1], history[i])
  }

  /** The schema's minItems: a list of URLs that is present is not empty. */
  ghost predicate SchemaValidURLs(history: seq<Atom>) {
    forall i :: 0 <= i < |history| ==> history[i].spec.ingressRouteURLs != Some([])
  }

  lemma AcceptedAtomErrors(owners: seq<Option<Owners>>, history: seq<Atom>, i: nat)
    requires AcceptedHistory(owners, history) && i < |history|
    ensures AtomErrors(history[i]) == []
  {
    if i > 0 {
      assert AcceptsUpdate(owners[i], history[i - 1], history[i]);
    }
  }

  lemma StepKeepsServing(owners: seq<Option<Owners>>, history: seq<Atom>, j: nat)
    requires AcceptedHistory(owners, history) && SchemaValidURLs(history)
    requires 0 < j < |history|
    ensures Served(history[j - 1]) <= Served(history[j])
  {
    AcceptedAtomErrors(owners, history, j - 1);
    assert AcceptsUpdate(owners[j], history[j - 1], history[j]);
    UpdateKeepsServing(owners[j], history[j - 1], history[j]);
  }

  lemma KnownIsServed(owners: seq<Option<Owners>>, history: seq<Atom>, i: nat)
    requires AcceptedHistory(owners, history) && SchemaValidURLs(history) && i < |history|
    ensures Known(history[i]) <= Served(history[i])
  {
    AcceptedAtomErrors(owners, history, i);
    AcceptedBaseURL(owners[i], history[i]);
    ServedIsKnown(history[i]);
  }

  /** Sets that grow from one to the next. */
  lemma {:induction false} Grows(sets: seq<set<string>>, i: nat, j: nat)
    requires i <= j < |sets| && forall k :: 0 < k < |sets| ==> sets[k - 1] <= sets[k]
    ensures sets[i] <= sets[j]
    decreases j - i
  {
    if i < j {
      Grows(sets, i, j - 1);
      assert sets[j - 1] <= sets[j];
    }
  }

  /**
   * Over every accepted history of schema-valid atoms, each URL that was ever the base URL or listed is
   * still served at every later moment.
   */
  lemma URLsStayServed(owners: seq<Option<Owners>>, history: seq<Atom>, i: nat, j: nat)
    requires AcceptedHistory(owners, history) && SchemaValidURLs(history)
    requires i <= j < |history|
    ensures Known(history[i]) <= Served(history[j])
  {
    forall k | 0 < k < |history|
      ensures Served(history[k - 1]) <= Served(history[k])
    {
      StepKeepsServing(owners, history, k);
    }
    KnownIsServed(owners, history, i);
    StaysServed(history, i, j);
  }

  lemma StaysServed(history: seq<Atom>, i: nat, j: nat)
    requires i <= j < |history| && Known(history[i]) <= Served(history[i])
    requires forall k :: 0 < k < |history| ==> Served(history[k - 1]) <= Served(history[k])
    ensures Known(history[i]) <= Served(history[j])
  {
    Grows(seq(|history|, k requires 0 <= k < |history| => Served(history[k])), i, j);
  }

  /** The labels, and with them the selector, never change over an accepted history. */
  lemma {:induction false} SelectorStays(owners: seq<Option<Owners>>, history: seq<Atom>, i: nat)
    requires AcceptedHistory(owners, history) && i < |history|
    ensures LabelSelector(history[i]) == LabelSelector(history[0])
    ensures history[i].meta.labels == history[0].meta.labels
  {
    if i > 0 {
      SelectorStays(owners, history, i - 1);
      assert AcceptsUpdate(owners[i], history[i - 1], history[i]);
      LabelsKept(history[i - 1].meta.labels, history[i].meta.labels);
    }
  }

  // ----- Admission implies that mapping is total

  /** The owner info has a template for every kind of metadata in the list. */
  predicate Covered(owner: OwnerInfo, templates: seq<string>) {
    forall k :: 0 <= k < |templates| && KnownTemplate(templates[k]) ==> TemplateFor(owner, templates[k]).Some?
  }

  lemma TemplateErrorsExactly(atom: Atom, owner: OwnerInfo)
    ensures TemplateErrors(atom, owner) == [] <==> Covered(owner, UsedTemplates(atom))
  {
    var used := UsedTemplates(atom);
    if TemplateErrors(atom, owner) != [] {
      var kind := if "csw" in used && TemplateFor(owner, "csw").None? then "csw"
                  else if "html" in used && TemplateFor(owner, "html").None? then "html" else "opensearch";
      var k :| 0 <= k < |used| && used[k] == kind;
      assert KnownTemplate(used[k]) && TemplateFor(owner, used[k]).None?;
    }
  }

  lemma UsedTemplatesOfFeed(atom: Atom, feed: DatasetFeed, owner: OwnerInfo)
    requires feed in atom.spec.service.datasetFeeds && feed.datasetMetadataLinks.Some?
    requires Covered(owner, UsedTemplates(atom))
    ensures Covered(owner, feed.datasetMetadataLinks.value.templates)
  {
    var feeds, templates := atom.spec.service.datasetFeeds, feed.datasetMetadataLinks.value.templates;
    var i :| 0 <= i < |feeds| && feeds[i] == feed;
    forall k | 0 <= k < |templates| && KnownTemplate(templates[k])
      ensures TemplateFor(owner, templates[k]).Some?
    {
      FlattenMember(FeedTemplates(feeds), templates[k]);
      assert FeedTemplates(feeds)[i] == templates;
      assert templates[k] in UsedTemplates(atom);
    }
  }

  /** With a template for every kind of metadata, making the links fails at most in rendering. */
  lemma {:induction false} MetadataLinksTotal(
    pf: Platform, owner: OwnerInfo, templates: seq<string>, identifier: string, htmlTitle: string, onlyCSW: bool)
    requires Covered(owner, templates)
    ensures var r := MetadataLinks(pf, owner, templates, identifier, htmlTitle, onlyCSW); r.Err? ==> r.error == RenderFailed
  {
    if templates != [] {
      assert forall k :: 0 < k < |templates| ==> templates[k] == templates[1..][k - 1];
      MetadataLinksTotal(pf, owner, templates[1..], identifier, htmlTitle, onlyCSW);
    }
  }

  lemma FeedMetadataTotal(pf: Platform, atom: Atom, owner: OwnerInfo, feed: DatasetFeed, htmlTitle: string, onlyCSW: bool)
    requires feed in atom.spec.service.datasetFeeds && Covered(owner, UsedTemplates(atom))
    ensures var r := OptionalMetadataLinks(pf, owner, feed.datasetMetadataLinks, htmlTitle, onlyCSW);
            r.Err? ==> r.error == RenderFailed
  {
    if feed.datasetMetadataLinks.Some? {
      var block := feed.datasetMetadataLinks.value;
      UsedTemplatesOfFeed(atom, feed, owner);
      MetadataLinksTotal(pf, owner, block.templates, block.metadataIdentifier, htmlTitle, onlyCSW);
    }
  }

  /**
   * If the webhook has nothing to say about the owner info, mapping the atom with that owner info follows no
   * nil pointer and fails only when a template does not render.
   */
  lemma AdmittedAtomMaps(pf: Platform, owners: Owners, atom: Atom)
    requires OwnerErrors(owners, atom) == []
    ensures atom.spec.service.ownerInfoRef in owners
    ensures var r := GeneratorConfig(pf, atom, owners[atom.spec.service.ownerInfoRef]); r.Err? ==> r.error == RenderFailed
  {
    var owner, service := owners[atom.spec.service.ownerInfoRef], atom.spec.service;
    var ownerAtom, feeds := owner.atom.value, service.datasetFeeds;
    TemplateErrorsExactly(atom, owner);
    if ServiceEntries(pf, atom, owner).Err? {
      var i := CollectError(EntryResults(pf, atom, owner));
      FeedMetadataTotal(pf, atom, owner, feeds[i], "", true);
    }
    if DatasetFeedsOf(pf, atom, owner, ownerAtom).Err? {
      var i := CollectError(FeedResults(pf, atom, owner, ownerAtom));
      FeedMetadataTotal(pf, atom, owner, feeds[i], "NGR pagina voor deze dataset", false);
    }
    if service.serviceMetadataLinks.Some? {
      var block := service.serviceMetadataLinks.value;
      assert forall k :: 0 <= k < |block.templates| ==> block.templates[k] == UsedTemplates(atom)[k];
      MetadataLinksTotal(pf, owner, block.templates, block.metadataIdentifier, SERVICE_HTML_TITLE, false);
    }
  }

  /** Where all templates render, links that could be made had a template for every kind of metadata. */
  lemma {:induction false} MadeLinksAreCovered(
    pf: Platform, owner: OwnerInfo, templates: seq<string>, identifier: string, htmlTitle: string)
    requires MetadataLinks(pf, owner, templates, identifier, htmlTitle, false).Ok?
    ensures Covered(owner, templates)
  {
    if templates != [] {
      MadeLinksAreCovered(pf, owner, templates[1..], identifier, htmlTitle);
      forall k | 0 <= k < |templates| && KnownTemplate(templates[k])
        ensures TemplateFor(owner, templates[k]).Some?
      {
        if k > 0 {
          assert templates[1..][k - 1] == templates[k];
        }
      }
    }
  }

  lemma MappedFeedIsCovered(pf: Platform, atom: Atom, owner: OwnerInfo, feed: DatasetFeed)
    requires DatasetLinks(pf, atom, owner, feed).Ok?
    ensures feed.datasetMetadataLinks.Some? ==> Covered(owner, feed.datasetMetadataLinks.value.templates)
  {
    if feed.datasetMetadataLinks.Some? {
      var block := feed.datasetMetadataLinks.value;
      MadeLinksAreCovered(pf, owner, block.templates, block.metadataIdentifier, "NGR pagina voor deze dataset");
    }
  }

  lemma MappedFeedsAreCovered(pf: Platform, atom: Atom, owner: OwnerInfo, ownerAtom: OwnerAtom, i: nat)
    requires DatasetFeedsOf(pf, atom, owner, ownerAtom).Ok? && i < |atom.spec.service.datasetFeeds|
    ensures var block := atom.spec.service.datasetFeeds[i].datasetMetadataLinks;
            block.Some? ==> Covered(owner, block.value.templates)
  {
    var results := FeedResults(pf, atom, owner, ownerAtom);
    CollectOk(results);
    assert results[i].Ok?;
    MappedFeedIsCovered(pf, atom, owner, atom.spec.service.datasetFeeds[i]);
  }

  /** Where all templates render, exactly the atoms that the owner check accepts can be mapped. */
  lemma MapsExactlyWhenAdmitted(pf: Platform, owners: Owners, atom: Atom)
    requires atom.spec.service.ownerInfoRef in owners
    requires forall template, identifier :: pf.render(template, identifier).Some?
    ensures GeneratorConfig(pf, atom, owners[atom.spec.service.ownerInfoRef]).Ok? <==> OwnerErrors(owners, atom) == []
  {
    var owner, service := owners[atom.spec.service.ownerInfoRef], atom.spec.service;
    TemplateErrorsExactly(atom, owner);
    if GeneratorConfig(pf, atom, owner).Ok? {
      var own := if service.serviceMetadataLinks.Some? then service.serviceMetadataLinks.value.templates else [];
      if service.serviceMetadataLinks.Some? {
        MadeLinksAreCovered(pf, owner, own, service.serviceMetadataLinks.value.metadataIdentifier, SERVICE_HTML_TITLE);
      }
      var lists := FeedTemplates(service.datasetFeeds);
      forall k | 0 <= k < |own + Flatten(lists)| && KnownTemplate((own + Flatten(lists))[k])
        ensures TemplateFor(owner, (own + Flatten(lists))[k]).Some?
      {
        if k >= |own| {
          var kind := Flatten(lists)[k - |own|];
          FlattenMember(lists, kind);
          var i :| 0 <= i < |lists| && kind in lists[i];
          MappedFeedsAreCovered(pf, atom, owner, owner.atom.value, i);
          var m :| 0 <= m < |lists[i]| && lists[i][m] == kind;
        }
      }
    } else if OwnerErrors(owners, atom) == [] {
      AdmittedAtomMaps(pf, owners, atom);
      RenderingTotal(pf, atom, owner);
    }
  }

  lemma RenderingTotal(pf: Platform, atom: Atom, owner: OwnerInfo)
    requires forall template, identifier :: pf.render(template, identifier).Some?
    ensures var r := GeneratorConfig(pf, atom, owner); r.Err? ==> r.error != RenderFailed
  {
    var feeds := atom.spec.service.datasetFeeds;
    OptionalNoRenderFailure(pf, owner, atom.spec.service.serviceMetadataLinks, SERVICE_HTML_TITLE, false);
    if ServiceEntries(pf, atom, owner).Err? {
      var i := CollectError(EntryResults(pf, atom, owner));
      OptionalNoRenderFailure(pf, owner, feeds[i].datasetMetadataLinks, "", true);
    }
    if owner.atom.Some? && DatasetFeedsOf(pf, atom, owner, owner.atom.value).Err? {
      var i := CollectError(FeedResults(pf, atom, owner, owner.atom.value));
      OptionalNoRenderFailure(pf, owner, feeds[i].datasetMetadataLinks, "NGR pagina voor deze dataset", false);
    }
  }

  lemma OptionalNoRenderFailure(pf: Platform, owner: OwnerInfo, block: Option<MetadataLink>, htmlTitle: string, onlyCSW: bool)
    requires forall template, identifier :: pf.render(template, identifier).Some?
    ensures var r := OptionalMetadataLinks(pf, owner, block, htmlTitle, onlyCSW); r.Err? ==> r.error != RenderFailed
  {
    if block.Some? {
      NoRenderFailure(pf, owner, block.value.templates, block.value.metadataIdentifier, htmlTitle, onlyCSW);
    }
  }

  lemma {:induction false} NoRenderFailure(
    pf: Platform, owner: OwnerInfo, templates: seq<string>, identifier: string, htmlTitle: string, onlyCSW: bool)
    requires forall template, identifier :: pf.render(template, identifier).Some?
    ensures var r := MetadataLinks(pf, owner, templates, identifier, htmlTitle, onlyCSW); r.Err? ==> r.error != RenderFailed
  {
    if templates != [] {
      NoRenderFailure(pf, owner, templates[1..], identifier, htmlTitle, onlyCSW);
    }
  }

  /** The schema's pattern for the data of a link: a container, a slash, and a slash further on. */
  ghost predicate SchemaData(data: string) {
    exists i, j :: 0 < i && i + 1 < j < |data| - 1 && data[i] == '/' && data[j] == '/' && '/' !in data[..i]
  }

  /** On schema-valid links grouping slices nothing out of range. */
  lemma SchemaValidLinksGroup(atom: Atom)
    requires forall link :: link in DownloadLinks(atom) ==> SchemaData(link.data)
    ensures DownloadLinkGroups(DownloadLinks(atom)).Ok?
  {
    var links := DownloadLinks(atom);
    forall k | 0 <= k < |links|
      ensures '/' in links[k].data
    {
      assert SchemaData(links[k].data);
    }
  }
}
