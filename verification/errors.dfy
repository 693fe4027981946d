/** The exceptions the modelled code throws, one constructor per distinct
    cause. Messages are the ones the repository's `throw` statements use. */
module Errors {
  import opened Ids

  datatype Error =
    | UnexpectedNumberOfEmbeddings     // "Unexpected number of embeddings"
    | NoEmbeddingFound                 // "No embedding found"
    | DocumentNotFound(chunk: ChunkId) // "Document not found: " + id
    | SearchNotFound                   // "Search not found"
    | UnknownSearch(search: SearchId)  // "Unknown search " + searchId
    | UnknownComparison                // "Unknown comparison"
    | MatchesEmpty                     // "Pinecone matches are empty"
    | NotUnique                        // `.unique()` saw more than one document
    | PatchOfMissingDocument           // `db.patch` on an id with no document
    | DeleteOfMissingDocument          // `db.delete` on an id with no document
    | MissingSource                    // `source!.name` on a deleted source (a TypeError)
    | EmbeddingRequestFailed           // the embedding service call itself failed
}
