/** The indexing job: one knowledge version's chunks replace its embedding rows. */
module Indexing {
  import opened Chunker
  import opened Options
  import opened Sequences
  import opened Text

  const EMBEDDING_DIMENSIONS: nat := 1536

  type VersionId = nat
  type Vector = seq<real>
  datatype Scope = Common | Group
  datatype Status = Draft | Published | Ready | Archived
  datatype Version = Version(scope: Scope, content: string, status: Status)
  datatype Row = Row(
    scope: Scope, version: VersionId, chunkNo: nat, content: string, tokenCount: nat, embedding: Vector)

  /** What the embedding provider does for the request of one run. */
  datatype Provider =
    | NotConfigured(pseudo: string -> Vector)
    | RequestFails
    | Replies(vectors: seq<Vector>)

  datatype Outcome = InvalidId | NotFound | Indexed | Raised

  function TokenCount(content: string): nat {
    if Blank(content) then 0 else |Words(Strip(content))|
  }

  function EmbeddingInputs(chunks: seq<string>): seq<string> {
    seq(|chunks|, i requires 0 <= i < |chunks| => if Blank(chunks[i]) then "__empty__" else chunks[i])
  }

  /** `_embed_chunks`; `None` stands for a raised exception. */
  function EmbedChunks(chunks: seq<string>, provider: Provider): (r: Option<seq<Vector>>)
    ensures r.Some? ==> |r.value| == |chunks|
  {
    if chunks == [] then Some([])
    else match provider
      case NotConfigured(pseudo) =>
        Some(seq(|chunks|, i requires 0 <= i < |chunks| => pseudo(EmbeddingInputs(chunks)[i])))
      case RequestFails => None
      case Replies(vectors) =>
        if |vectors| == |chunks| && forall v :: v in vectors ==> |v| == EMBEDDING_DIMENSIONS
        then Some(vectors)
        else None
  }

  function RowsOf(rows: seq<Row>, id: VersionId): seq<Row> {
    if rows == [] then []
    else (if rows[0].version == id then [rows[0]] else []) + RowsOf(rows[1..], id)
  }

  /** `delete from embeddings where source_version_id = id`. */
  function Without(rows: seq<Row>, id: VersionId): seq<Row> {
    if rows == [] then []
    else (if rows[0].version == id then [] else [rows[0]]) + Without(rows[1..], id)
  }

  function NewRow(id: VersionId, version: Version, chunks: seq<string>, vectors: seq<Vector>, i: nat): Row
    requires i < |chunks| == |vectors|
  {
    Row(version.scope, id, i + 1, chunks[i], TokenCount(chunks[i]), vectors[i])
  }

  function NewRows(id: VersionId, version: Version, chunks: seq<string>, vectors: seq<Vector>): (r: seq<Row>)
    requires |chunks| == |vectors|
    ensures |r| == |chunks|
  {
    seq(|chunks|, i requires 0 <= i < |chunks| => NewRow(id, version, chunks, vectors, i))
  }

  /** The embeddings of a version's chunks, unless a step raises. */
  function VectorsFor(version: Version, provider: Provider): (r: Option<seq<Vector>>)
    ensures r.Some? ==> |r.value| == |ChunkSpec(version.content, MAX_CHUNK_CHARS)|
  {
    EmbedChunks(ChunkSpec(version.content, MAX_CHUNK_CHARS), provider)
  }

  /** The table after a run that commits. */
  function Reindexed(rows: seq<Row>, id: VersionId, version: Version, vectors: seq<Vector>): seq<Row>
    requires |vectors| == |ChunkSpec(version.content, MAX_CHUNK_CHARS)|
  {
    Without(rows, id) + NewRows(id, version, ChunkSpec(version.content, MAX_CHUNK_CHARS), vectors)
  }

  class KnowledgeStore {
    var rows: seq<Row>
    var versions: map<VersionId, Version>

    constructor ()
      ensures rows == [] && versions == map[]
    {
      rows, versions := [], map[];
    }

    /** One run of the job. `id` is `None` when the argument is no UUID;
        `commits` says whether the database accepts the transaction. */
    method ProcessKnowledgeVersion(id: Option<VersionId>, provider: Provider, commits: bool) returns (outcome: Outcome)
      modifies this
      ensures outcome == InvalidId <==> id.None?
      ensures outcome == NotFound <==> id.Some? && id.value !in old(versions)
      ensures outcome == Indexed <==>
                && id.Some? && id.value in old(versions)
                && VectorsFor(old(versions)[id.value], provider).Some? && commits
      ensures outcome != Indexed ==> rows == old(rows) && versions == old(versions)
      ensures outcome == Indexed ==>
                var version := old(versions)[id.value];
                && rows == Reindexed(old(rows), id.value, version, VectorsFor(version, provider).value)
                && versions == old(versions)[id.value := version.(status := Ready)]
    {
      if id.None? {
        return InvalidId;
      }
      if id.value !in versions {
        return NotFound;
      }
      var version := versions[id.value];
      var chunks := ChunkMarkdown(version.content, MAX_CHUNK_CHARS);
      var vectors := EmbedChunks(chunks, provider);
      if vectors.None? {
        return Raised;
      }
      var session := Without(rows, id.value);
      var added := AddRows(id.value, version, chunks, vectors.value);
      session := session + added;
      if !commits {
        return Raised;
      }
      rows := session;
      versions := versions[id.value := version.(status := Ready)];
      return Indexed;
    }
  }

  /** The loop that adds one numbered row per chunk. */
  method AddRows(id: VersionId, version: Version, chunks: seq<string>, vectors: seq<Vector>) returns (added: seq<Row>)
    requires |chunks| == |vectors|
    ensures added == NewRows(id, version, chunks, vectors)
  {
    added := [];
    var chunkNo := 1;
    while chunkNo <= |chunks|
      invariant 1 <= chunkNo <= |chunks| + 1
      invariant added == NewRows(id, version, chunks, vectors)[..chunkNo - 1]
    {
      var content := chunks[chunkNo - 1];
      added := added + [Row(version.scope, id, chunkNo, content, TokenCount(content), vectors[chunkNo - 1])];
      chunkNo := chunkNo + 1;
    }
  }

  lemma {:induction false} RowsOfConcat(a: seq<Row>, b: seq<Row>, id: VersionId)
    ensures RowsOf(a + b, id) == RowsOf(a, id) + RowsOf(b, id)
  {
    if a == [] {
      Empty(b);
      Empty(RowsOf(b, id));
    } else {
      RowsOfConcat(a[1..], b, id);
      ConcatTail(a, b);
      Assoc(if a[0].version == id then [a[0]] else [], RowsOf(a[1..], id), RowsOf(b, id));
    }
  }

  lemma {:induction false} WithoutConcat(a: seq<Row>, b: seq<Row>, id: VersionId)
    ensures Without(a + b, id) == Without(a, id) + Without(b, id)
  {
    if a == [] {
      Empty(b);
      Empty(Without(b, id));
    } else {
      WithoutConcat(a[1..], b, id);
      ConcatTail(a, b);
      Assoc(if a[0].version == id then [] else [a[0]], Without(a[1..], id), Without(b, id));
    }
  }

  lemma {:induction false} WithoutKeepsOthers(rows: seq<Row>, id: VersionId, other: VersionId)
    ensures RowsOf(Without(rows, id), other) == if other == id then [] else RowsOf(rows, other)
  {
    if rows != [] {
      WithoutKeepsOthers(rows[1..], id, other);
      RowsOfConcat(if rows[0].version == id then [] else [rows[0]], Without(rows[1..], id), other);
      assert [rows[0]][1..] == [];
    }
  }

  lemma {:induction false} OneVersion(rows: seq<Row>, id: VersionId, other: VersionId)
    requires forall i :: 0 <= i < |rows| ==> rows[i].version == id
    ensures RowsOf(rows, other) == if other == id then rows else []
    ensures Without(rows, id) == []
  {
    if rows != [] {
      OneVersion(rows[1..], id, other);
    }
  }

  lemma {:induction false} WithoutTwice(rows: seq<Row>, id: VersionId)
    ensures Without(Without(rows, id), id) == Without(rows, id)
  {
    if rows != [] {
      WithoutTwice(rows[1..], id);
      WithoutConcat(if rows[0].version == id then [] else [rows[0]], Without(rows[1..], id), id);
      assert [rows[0]][1..] == [];
    }
  }

  function SumTokens(rows: seq<Row>): nat {
    if rows == [] then 0 else rows[0].tokenCount + SumTokens(rows[1..])
  }

  lemma {:induction false} TokensAreWords(rows: seq<Row>, chunks: seq<string>)
    requires |rows| == |chunks|
    requires forall i :: 0 <= i < |rows| ==> rows[i].tokenCount == TokenCount(chunks[i])
    ensures SumTokens(rows) == SumWords(chunks)
  {
    if rows != [] {
      TokensAreWords(rows[1..], chunks[1..]);
      WordStartsStrip(chunks[0]);
      WordsAreWordStarts(chunks[0]);
      WordsAreWordStarts(Strip(chunks[0]));
    }
  }

  lemma RowsAfter(rows: seq<Row>, id: VersionId, added: seq<Row>, other: VersionId)
    requires forall i :: 0 <= i < |added| ==> added[i].version == id
    ensures RowsOf(Without(rows, id) + added, other) == if other == id then added else RowsOf(rows, other)
  {
    RowsOfConcat(Without(rows, id), added, other);
    WithoutKeepsOthers(rows, id, other);
    OneVersion(added, id, other);
  }

  /** After a committed run the version's rows are exactly its chunks, numbered
      from 1, and every other version keeps its rows. */
  lemma ReindexedRows(rows: seq<Row>, id: VersionId, version: Version, vectors: seq<Vector>)
    requires |vectors| == |ChunkSpec(version.content, MAX_CHUNK_CHARS)|
    ensures var after, chunks := Reindexed(rows, id, version, vectors), ChunkSpec(version.content, MAX_CHUNK_CHARS);
            var mine := RowsOf(after, id);
            && |mine| == |chunks|
            && (forall i :: 0 <= i < |mine| ==>
                  mine[i].chunkNo == i + 1 && mine[i].content == chunks[i] && mine[i].embedding == vectors[i])
            && (forall other :: other != id ==> RowsOf(after, other) == RowsOf(rows, other))
  {
    var added := NewRows(id, version, ChunkSpec(version.content, MAX_CHUNK_CHARS), vectors);
    RowsAfter(rows, id, added, id);
    forall other: VersionId | other != id
      ensures RowsOf(Without(rows, id) + added, other) == RowsOf(rows, other)
    {
      RowsAfter(rows, id, added, other);
    }
  }

  lemma WordsStripped(text: string)
    ensures TokenCount(text) == |Words(text)|
  {
    WordStartsStrip(text);
    WordsAreWordStarts(text);
    WordsAreWordStarts(Strip(text));
  }

  lemma ChunksFit(content: string)
    ensures var chunks := ChunkSpec(content, MAX_CHUNK_CHARS);
            chunks != [] && forall i :: 0 <= i < |chunks| ==> |chunks[i]| <= 1000
  {
    if !Blank(content) {
      ChunkLaws(content, MAX_CHUNK_CHARS);
    }
  }

  /** The embedding that the provider gives for the chunk at position `i`. */
  function EmbeddingOf(provider: Provider, chunk: string, i: nat): Vector {
    match provider
    case NotConfigured(pseudo) => pseudo(if Strip(chunk) == "" then "__empty__" else chunk)
    case RequestFails => []
    case Replies(vectors) => if i < |vectors| then vectors[i] else []
  }

  lemma EmbeddingsInOrder(chunks: seq<string>, provider: Provider)
    requires chunks != [] && EmbedChunks(chunks, provider).Some?
    ensures forall i :: 0 <= i < |chunks| ==>
              EmbedChunks(chunks, provider).value[i] == EmbeddingOf(provider, chunks[i], i)
  {
    forall i | 0 <= i < |chunks|
      ensures EmbedChunks(chunks, provider).value[i] == EmbeddingOf(provider, chunks[i], i)
    {
      if provider.NotConfigured? {
        assert EmbeddingInputs(chunks)[i] == if Blank(chunks[i]) then "__empty__" else chunks[i];
      }
    }
  }

  /** Every stored row: its version's scope and id, its number, a chunk of at most a
      thousand characters, the chunk's words, and the embedding of that chunk. */
  lemma IndexedRows(rows: seq<Row>, id: VersionId, version: Version, provider: Provider)
    requires VectorsFor(version, provider).Some?
    ensures var after := Reindexed(rows, id, version, VectorsFor(version, provider).value);
            var mine, chunks := RowsOf(after, id), ChunkSpec(version.content, MAX_CHUNK_CHARS);
            && |mine| == |chunks| >= 1
            && forall i :: 0 <= i < |mine| ==>
                 && mine[i] == Row(version.scope, id, i + 1, chunks[i], |Words(chunks[i])|,
                                   EmbeddingOf(provider, chunks[i], i))
                 && |chunks[i]| <= 1000
  {
    var chunks, vectors := ChunkSpec(version.content, MAX_CHUNK_CHARS), VectorsFor(version, provider).value;
    var added := NewRows(id, version, chunks, vectors);
    RowsAfter(rows, id, added, id);
    ChunksFit(version.content);
    EmbeddingsInOrder(chunks, provider);
    forall i | 0 <= i < |chunks|
      ensures added[i] == Row(version.scope, id, i + 1, chunks[i], |Words(chunks[i])|,
                              EmbeddingOf(provider, chunks[i], i))
    {
      WordsStripped(chunks[i]);
    }
  }

  /** The embedding of a document fails exactly when its request does, or when the
      answer has another number of vectors or one of another length. */
  lemma EmbeddingFailsIff(version: Version, provider: Provider)
    ensures VectorsFor(version, provider).None?
       <==> || provider.RequestFails?
            || (provider.Replies?
                && (|provider.vectors| != |ChunkSpec(version.content, MAX_CHUNK_CHARS)|
                    || exists i :: 0 <= i < |provider.vectors| && |provider.vectors[i]| != 1536))
  {
    ChunksFit(version.content);
    if provider.Replies? {
      var vectors := provider.vectors;
      assert forall i :: 0 <= i < |vectors| ==> vectors[i] in vectors;
    }
  }

  lemma ReplacingTwice(rows: seq<Row>, id: VersionId, added: seq<Row>)
    requires forall i :: 0 <= i < |added| ==> added[i].version == id
    ensures Without(Without(rows, id) + added, id) == Without(rows, id)
  {
    WithoutTwice(rows, id);
    WithoutConcat(Without(rows, id), added, id);
    OneVersion(added, id, id);
  }

  /** Indexing the same content again leaves the table as it is. */
  lemma ReindexingIsIdempotent(rows: seq<Row>, id: VersionId, version: Version, vectors: seq<Vector>)
    requires |vectors| == |ChunkSpec(version.content, MAX_CHUNK_CHARS)|
    ensures Reindexed(Reindexed(rows, id, version, vectors), id, version, vectors)
         == Reindexed(rows, id, version, vectors)
  {
    ReplacingTwice(rows, id, NewRows(id, version, ChunkSpec(version.content, MAX_CHUNK_CHARS), vectors));
  }

  /** The stored token counts add up to the document's words plus the words
      that had to be cut. */
  lemma ReindexedTokens(rows: seq<Row>, id: VersionId, version: Version, vectors: seq<Vector>)
    requires |vectors| == |ChunkSpec(version.content, MAX_CHUNK_CHARS)|
    ensures Solid(DocumentParagraphs(version.content))
    ensures SumTokens(RowsOf(Reindexed(rows, id, version, vectors), id))
         == |Words(version.content)| + AllWordCuts(DocumentParagraphs(version.content), MAX_CHUNK_CHARS)
  {
    var chunks := ChunkSpec(version.content, MAX_CHUNK_CHARS);
    var added := NewRows(id, version, chunks, vectors);
    RowsAfter(rows, id, added, id);
    TokensAreWords(added, chunks);
    DocumentParagraphsKeep(version.content);
    if Blank(version.content) {
      BlankWords(version.content);
    } else {
      ChunkLaws(version.content, MAX_CHUNK_CHARS);
    }
  }

  lemma BlankWords(content: string)
    requires Blank(content)
    ensures SumWords([""]) == 0 == |Words(content)|
    ensures DocumentParagraphs(content) == []
  {
    assert [""][1..] == [];
    WordsAreWordStarts(content);
    WordStartsStrip(content);
    NormalizeKeeps(content);
    assert FindBlankLine("") == 0 && SplitBlankLines("") == [""];
  }
}
