/** Document ids. Convex ids are opaque and tagged with their table; here every
    table's ids come from one counter of natural numbers (see `Store.Valid`),
    and the aliases only say which table an id points into. */
module Ids {
  type SourceId = nat
  type ChunkId = nat
  type SearchId = nat
  type ComparisonId = nat
  type EmbeddingId = nat
}
