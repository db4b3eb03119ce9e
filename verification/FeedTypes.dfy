/** The configuration that the Atom generator reads: a list of feeds, the index feed first. */
module FeedTypes {
  import opened Wrappers
  import opened AtomTypes

  datatype FeedLink = FeedLink(
    rel: string, href: string, data: Option<string>, contentType: string, hreflang: Option<string>,
    title: string, time: Option<string>, bbox: Option<string>)

  datatype Category = Category(term: string, labelText: string)

  datatype FeedEntry = FeedEntry(
    id: string, title: string, content: string, summary: string, links: seq<FeedLink>, rights: string,
    updated: Option<string>, polygon: string, categories: seq<Category>,
    spatialDatasetIdentifierCode: Option<string>, spatialDatasetIdentifierNamespace: Option<string>)

  datatype Feed = Feed(
    xmlStylesheet: Option<string>, xmlns: string, georss: string, inspireDls: string, lang: string,
    id: string, title: string, subtitle: string, links: seq<FeedLink>, rights: string,
    author: Author, entries: seq<FeedEntry>)
}
