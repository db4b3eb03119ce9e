/** The libraries and settings that the operator is run with, as far as it only uses their results. */
module Platforms {
  import opened Wrappers
  import opened AtomTypes
  import opened FeedTypes

  /** The uptime annotations of an object: atom annotations, id, name, URL and labels go in. */
  type UptimeAnnotations = (Labels, string, string, string, Labels) -> Labels

  datatype Platform = Platform(
    render: (string, string) -> Option<string>,      // a mustache template and an identifier
    formatTime: Time -> string,                      // RFC 3339 in UTC
    marshal: seq<Feed> -> Option<string>,            // YAML
    hash: map<string, string> -> string,             // of the data of a ConfigMap
    uptime: UptimeAnnotations,
    blobEndpoint: string,
    generatorImage: string,
    serviceImage: string,
    csp: string)
}
