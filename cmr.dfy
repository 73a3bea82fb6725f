/**
 * The part of a catalog (CMR) granule search response that the drivers read:
 * `feed.entry`, a list of entries, each with a list of links that carry a
 * relation URI (`rel`) and a target (`href`). The HTTP request itself is not
 * modelled.
 */
module Cmr {
  import opened Strings

  datatype Link = Link(rel: string, href: string)

  datatype Entry = Entry(links: seq<Link>)

  /**
   * `"data" in product["rel"]`: a substring test on the relation URI, so a
   * `.../metadata#` relation passes it as well as a `.../data#` one.
   */
  predicate IsDataLink(l: Link) {
    Contains(l.rel, "data")
  }
}
