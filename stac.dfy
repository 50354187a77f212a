/** The node every check looks at: one STAC catalog or collection file of
    the catalog tree, as the loader hands it over. */
module Stac {
  import opened Json

  /** The STAC type of a node. */
  datatype Kind = Catalog | Collection

  /** A node: its `id`, the parts of the path of its file relative to the
      catalog root (`pathlib.Path(...).parts`), its kind, and its parsed
      top-level JSON object. */
  datatype Node = Node(id: string, path: seq<string>, kind: Kind, payload: seq<Member>)
}
