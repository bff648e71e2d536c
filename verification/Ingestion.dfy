/** Ingestion of the runbooks into documents, chunks and embeddings
    (app/knowledge/ingestion.py). */
module Ingestion {
  import Chunking
  import Text

  const DIMENSIONS := 768
  const DOCUMENT_PREFIX := "search_document: "

  datatype Source = Source(sourceId: string, title: string, category: string, version: string,
                           path: string, content: string)

  datatype Document = Document(id: nat, title: string, category: string, version: string,
                               path: string, contentHash: string)

  datatype ChunkRow = ChunkRow(content: string, contentHash: string)

  datatype EmbeddingRow = EmbeddingRow(provider: string, model: string, dimensions: nat,
                                       contentHash: string, vector: seq<real>)

  /** A chunk row is identified by its document and its index, which are unique together;
      an embedding row by the chunk it belongs to, which is unique too. */
  type ChunkKey = (nat, nat)

  datatype Tables = Tables(documents: map<string, Document>, chunks: map<ChunkKey, ChunkRow>,
                           embeddings: map<ChunkKey, EmbeddingRow>, nextDocument: nat)

  /** What one ingestor is configured with, and the functions outside it: the content hash
      and the vector each embedding model gives a text. */
  datatype Config = Config(provider: string, model: string, limit: nat, hash: string -> string,
                           vector: (string, string, string) -> seq<real>)

  function DocumentFor(cfg: Config, id: nat, s: Source): (d: Document)
    ensures d.id == id
  {
    Document(id, s.title, s.category, s.version, s.path, cfg.hash(s.content))
  }

  function ChunkFor(chunk: Chunking.Chunk): ChunkRow { ChunkRow(chunk.content, chunk.contentHash) }

  function EmbeddingFor(cfg: Config, chunk: Chunking.Chunk): EmbeddingRow {
    EmbeddingRow(cfg.provider, cfg.model, DIMENSIONS, chunk.contentHash,
                 cfg.vector(cfg.provider, cfg.model, DOCUMENT_PREFIX + chunk.content))
  }

  ghost predicate Injective(hash: string -> string) {
    forall a, b :: hash(a) == hash(b) ==> a == b
  }

  // ---- Agreement of the tables with a source

  /** The rows of a document are these chunks, one embedding each, and nothing else. */
  ghost predicate Block(cfg: Config, t: Tables, document: nat, chunks: seq<Chunking.Chunk>) {
    && (forall i :: 0 <= i < |chunks| ==>
          && (document, i) in t.chunks && t.chunks[(document, i)] == ChunkFor(chunks[i])
          && (document, i) in t.embeddings && t.embeddings[(document, i)] == EmbeddingFor(cfg, chunks[i]))
    && (forall i: nat :: (document, i) in t.chunks ==> i < |chunks|)
  }

  /** One pass over a source, and the chunks it computed. */
  datatype Pass = Pass(cfg: Config, source: Source, chunks: seq<Chunking.Chunk>)

  /** The stored document is the source of the pass, with its chunks embedded as configured. */
  ghost predicate Agrees(t: Tables, pass: Pass) {
    && pass.source.sourceId in t.documents
    && var id := t.documents[pass.source.sourceId].id;
       && t.documents[pass.source.sourceId] == DocumentFor(pass.cfg, id, pass.source)
       && Block(pass.cfg, t, id, pass.chunks)
  }

  /** No chunk without an embedding, no embedding without a chunk, no chunk without a document. */
  ghost predicate NoOrphans(t: Tables) {
    && t.chunks.Keys == t.embeddings.Keys
    && (forall d: nat, i: nat :: (d, i) in t.chunks ==> exists k :: k in t.documents && t.documents[k].id == d)
    && (forall k :: k in t.documents ==> t.documents[k].id < t.nextDocument)
    && (forall j, k :: j in t.documents && k in t.documents && t.documents[j].id == t.documents[k].id ==> j == k)
  }

  /** Every document agrees with the last pass over its source. */
  ghost predicate Consistent(t: Tables, last: map<string, Pass>) {
    && NoOrphans(t)
    && t.documents.Keys == last.Keys
    && forall k :: k in last ==> last[k].source.sourceId == k && Agrees(t, last[k])
  }

  /** The pass really chunked its source, with the shared hash and models. */
  ghost predicate Genuine(cfg: Config, pass: Pass) {
    && pass.cfg.hash == cfg.hash && pass.cfg.vector == cfg.vector
    && pass.chunks == Chunking.Chunks(cfg.hash, pass.source.content, pass.cfg.limit)
  }

  // ---- The transaction for one source

  function DocumentId(t: Tables, s: Source): nat {
    if s.sourceId in t.documents then t.documents[s.sourceId].id else t.nextDocument
  }

  /** The document row written, and its former chunk and embedding rows deleted. */
  function Cleared(cfg: Config, t: Tables, s: Source): Tables {
    var id := DocumentId(t, s);
    Tables(t.documents[s.sourceId := DocumentFor(cfg, id, s)],
           map k | k in t.chunks && k.0 != id :: t.chunks[k],
           map k | k in t.embeddings && k.0 != id :: t.embeddings[k],
           if s.sourceId in t.documents then t.nextDocument else id + 1)
  }

  /** Chunk and embedding rows added one after the other. */
  function Inserted(cfg: Config, t: Tables, document: nat, chunks: seq<Chunking.Chunk>): Tables {
    if chunks == [] then t
    else
      var i := |chunks| - 1;
      var r := Inserted(cfg, t, document, chunks[..i]);
      r.(chunks := r.chunks[(document, i) := ChunkFor(chunks[i])],
         embeddings := r.embeddings[(document, i) := EmbeddingFor(cfg, chunks[i])])
  }

  function Replaced(cfg: Config, t: Tables, s: Source, chunks: seq<Chunking.Chunk>): Tables {
    Inserted(cfg, Cleared(cfg, t, s), DocumentId(t, s), chunks)
  }

  predicate RowMatches(cfg: Config, t: Tables, key: ChunkKey, expected: Chunking.Chunk) {
    && key in t.chunks && key in t.embeddings
    && t.chunks[key].contentHash == expected.contentHash
    && t.embeddings[key].contentHash == expected.contentHash
    && t.embeddings[key].provider == cfg.provider
    && t.embeddings[key].model == cfg.model
    && t.embeddings[key].dimensions == DIMENSIONS
  }

  predicate MetadataCurrent(t: Tables, s: Source) {
    && s.sourceId in t.documents
    && var d := t.documents[s.sourceId];
       d.title == s.title && d.category == s.category && d.version == s.version && d.path == s.path
  }

  /** The rows of a document that have an embedding. */
  function RowKeys(t: Tables, document: nat): set<ChunkKey> {
    set k | k in t.chunks && k in t.embeddings && k.0 == document
  }

  /** As many rows as chunks, and the row at each index has the hash and the model expected.
      Reading the rows in index order and comparing them one by one checks just this. */
  ghost predicate UpToDate(cfg: Config, t: Tables, s: Source, chunks: seq<Chunking.Chunk>) {
    && MetadataCurrent(t, s)
    && chunks != []
    && t.documents[s.sourceId].contentHash == cfg.hash(s.content)
    && var id := t.documents[s.sourceId].id;
       && |RowKeys(t, id)| == |chunks|
       && forall i :: 0 <= i < |chunks| ==> RowMatches(cfg, t, (id, i), chunks[i])
  }

  // ---- Properties of the transaction

  lemma ClearedRows(cfg: Config, t: Tables, s: Source)
    requires t.chunks.Keys == t.embeddings.Keys
    ensures var r, id := Cleared(cfg, t, s), DocumentId(t, s);
            && r.chunks.Keys == r.embeddings.Keys
            && (forall d: nat, i: nat :: (d, i) in r.chunks <==> d != id && (d, i) in t.chunks)
            && (forall d: nat, i: nat :: (d, i) in r.chunks ==>
                  r.chunks[(d, i)] == t.chunks[(d, i)] && r.embeddings[(d, i)] == t.embeddings[(d, i)])
  {
    hide DocumentFor, DocumentId;
  }

  /** Every document keeps its number, and none has that of another. */
  lemma ClearedDocuments(cfg: Config, t: Tables, s: Source)
    requires NoOrphans(t)
    ensures var r := Cleared(cfg, t, s);
            && s.sourceId in r.documents && r.documents[s.sourceId].id == DocumentId(t, s)
            && (forall k :: k in t.documents ==> k in r.documents && r.documents[k].id == t.documents[k].id)
            && (forall k :: k in r.documents ==> r.documents[k].id < r.nextDocument)
            && (forall j, k ::
                  j in r.documents && k in r.documents && r.documents[j].id == r.documents[k].id ==> j == k)
  {
  }

  lemma ClearedShape(cfg: Config, t: Tables, s: Source)
    requires NoOrphans(t)
    ensures var r, id := Cleared(cfg, t, s), DocumentId(t, s);
            && NoOrphans(r)
            && (forall d: nat, i: nat :: (d, i) in r.chunks <==> d != id && (d, i) in t.chunks)
            && (forall d: nat, i: nat :: (d, i) in r.chunks ==>
                  r.chunks[(d, i)] == t.chunks[(d, i)] && r.embeddings[(d, i)] == t.embeddings[(d, i)])
  {
    ClearedRows(cfg, t, s);
    ClearedDocuments(cfg, t, s);
    var r, id := Cleared(cfg, t, s), DocumentId(t, s);
    hide DocumentFor, DocumentId, Cleared;
    forall d: nat, i: nat | (d, i) in r.chunks ensures exists k :: k in r.documents && r.documents[k].id == d {
      assert (d, i) in t.chunks;
      var k :| k in t.documents && t.documents[k].id == d;
      assert k in r.documents && r.documents[k].id == d;
    }
  }

  lemma InsertedLast(cfg: Config, t: Tables, document: nat, chunks: seq<Chunking.Chunk>)
    requires chunks != []
    ensures var i, r := |chunks| - 1, Inserted(cfg, t, document, chunks);
            var before := Inserted(cfg, t, document, chunks[..i]);
            && r.documents == before.documents && r.nextDocument == before.nextDocument
            && r.chunks == before.chunks[(document, i) := ChunkFor(chunks[i])]
            && r.embeddings == before.embeddings[(document, i) := EmbeddingFor(cfg, chunks[i])]
  {
    hide ChunkFor, EmbeddingFor;
  }

  lemma {:induction false} InsertedChunks(cfg: Config, t: Tables, document: nat, chunks: seq<Chunking.Chunk>)
    ensures var r := Inserted(cfg, t, document, chunks);
            && r.documents == t.documents && r.nextDocument == t.nextDocument
            && (forall k :: k in r.chunks <==> k in t.chunks || (k.0 == document && k.1 < |chunks|))
            && (forall k :: k in t.chunks && k.0 != document ==> r.chunks[k] == t.chunks[k])
            && (forall i :: 0 <= i < |chunks| ==> r.chunks[(document, i)] == ChunkFor(chunks[i]))
  {
    hide ChunkFor, EmbeddingFor;
    if chunks != [] {
      InsertedChunks(cfg, t, document, chunks[..|chunks| - 1]);
      InsertedLast(cfg, t, document, chunks);
      hide Inserted;
    }
  }

  lemma {:induction false} InsertedEmbeddings(cfg: Config, t: Tables, document: nat, chunks: seq<Chunking.Chunk>)
    ensures var r := Inserted(cfg, t, document, chunks);
            && (forall k :: k in r.embeddings <==> k in t.embeddings || (k.0 == document && k.1 < |chunks|))
            && (forall k :: k in t.embeddings && k.0 != document ==> r.embeddings[k] == t.embeddings[k])
            && (forall i :: 0 <= i < |chunks| ==> r.embeddings[(document, i)] == EmbeddingFor(cfg, chunks[i]))
  {
    hide ChunkFor, EmbeddingFor;
    if chunks != [] {
      InsertedEmbeddings(cfg, t, document, chunks[..|chunks| - 1]);
      InsertedLast(cfg, t, document, chunks);
      hide Inserted;
    }
  }

  lemma ReplacedShape(cfg: Config, t: Tables, s: Source, chunks: seq<Chunking.Chunk>)
    requires NoOrphans(t)
    ensures var r, id := Replaced(cfg, t, s, chunks), DocumentId(t, s);
            && NoOrphans(r)
            && r.documents == t.documents[s.sourceId := DocumentFor(cfg, id, s)]
            && Block(cfg, r, id, chunks)
            && (forall k :: k in t.documents && k != s.sourceId ==> t.documents[k].id != id)
            && (forall d: nat, i: nat :: d != id ==> ((d, i) in r.chunks <==> (d, i) in t.chunks))
            && (forall d: nat, i: nat :: d != id && (d, i) in t.chunks ==>
                  r.chunks[(d, i)] == t.chunks[(d, i)] && r.embeddings[(d, i)] == t.embeddings[(d, i)])
  {
    var base, id := Cleared(cfg, t, s), DocumentId(t, s);
    ClearedShape(cfg, t, s);
    InsertedChunks(cfg, base, id, chunks);
    InsertedEmbeddings(cfg, base, id, chunks);
    NewRowsOwned(base, Replaced(cfg, t, s, chunks), s, id);
  }

  lemma NewRowsOwned(base: Tables, r: Tables, s: Source, id: nat)
    requires NoOrphans(base) && r.documents == base.documents && r.nextDocument == base.nextDocument
    requires r.chunks.Keys == r.embeddings.Keys
    requires s.sourceId in base.documents && base.documents[s.sourceId].id == id
    requires forall d: nat, i: nat :: d != id ==> ((d, i) in r.chunks <==> (d, i) in base.chunks)
    ensures NoOrphans(r)
  {
    forall d: nat, i: nat | (d, i) in r.chunks ensures exists k :: k in r.documents && r.documents[k].id == d {
      if d == id {
        assert r.documents[s.sourceId].id == id;
      } else {
        assert (d, i) in base.chunks;
      }
    }
  }

  lemma OthersKept(t: Tables, r: Tables, pass: Pass, id: nat)
    requires Agrees(t, pass) && t.chunks.Keys == t.embeddings.Keys && r.chunks.Keys == r.embeddings.Keys
    requires pass.source.sourceId in r.documents
    requires r.documents[pass.source.sourceId] == t.documents[pass.source.sourceId]
    requires t.documents[pass.source.sourceId].id != id
    requires forall d: nat, i: nat :: d != id ==> ((d, i) in r.chunks <==> (d, i) in t.chunks)
    requires forall d: nat, i: nat :: d != id && (d, i) in t.chunks ==>
      r.chunks[(d, i)] == t.chunks[(d, i)] && r.embeddings[(d, i)] == t.embeddings[(d, i)]
    ensures Agrees(r, pass)
  {
  }

  lemma OthersAgree(cfg: Config, t: Tables, last: map<string, Pass>, s: Source, chunks: seq<Chunking.Chunk>, k: string)
    requires Consistent(t, last) && k in last && k != s.sourceId
    ensures Agrees(Replaced(cfg, t, s, chunks), last[k])
  {
    ReplacedShape(cfg, t, s, chunks);
    hide Replaced, Block, Agrees, DocumentId, DocumentFor;
    assert last[k].source.sourceId == k;
    OthersKept(t, Replaced(cfg, t, s, chunks), last[k], DocumentId(t, s));
  }

  lemma ReplacedAgrees(cfg: Config, t: Tables, s: Source, chunks: seq<Chunking.Chunk>)
    requires NoOrphans(t)
    ensures Agrees(Replaced(cfg, t, s, chunks), Pass(cfg, s, chunks)) && NoOrphans(Replaced(cfg, t, s, chunks))
    ensures Replaced(cfg, t, s, chunks).documents.Keys == t.documents.Keys + {s.sourceId}
  {
    ReplacedShape(cfg, t, s, chunks);
    hide Replaced, Block, NoOrphans, DocumentId;
  }

  /** The transaction for one source makes it agree and disturbs no other document. */
  lemma ReplacedConsistent(cfg: Config, t: Tables, last: map<string, Pass>, s: Source, chunks: seq<Chunking.Chunk>)
    requires Consistent(t, last)
    ensures Agrees(Replaced(cfg, t, s, chunks), Pass(cfg, s, chunks))
    ensures Consistent(Replaced(cfg, t, s, chunks), last[s.sourceId := Pass(cfg, s, chunks)])
  {
    hide Replaced, Agrees, NoOrphans;
    ReplacedAgrees(cfg, t, s, chunks);
    var r := Replaced(cfg, t, s, chunks);
    forall k | k in last && k != s.sourceId ensures Agrees(r, last[k]) {
      OthersAgree(cfg, t, last, s, chunks, k);
    }
  }

  /** Rows that match hold these very chunks: equal hashes are equal texts, and a model
      gives a text one vector. */
  lemma MatchingBlock(cfg: Config, t: Tables, was: Pass, document: nat, chunks: seq<Chunking.Chunk>)
    requires Injective(cfg.hash) && was.cfg.vector == cfg.vector && |chunks| == |was.chunks|
    requires forall i :: 0 <= i < |chunks| ==> was.chunks[i].contentHash == cfg.hash(was.chunks[i].content)
    requires forall i :: 0 <= i < |chunks| ==> chunks[i].contentHash == cfg.hash(chunks[i].content)
    requires Block(was.cfg, t, document, was.chunks)
    requires forall i :: 0 <= i < |chunks| ==> RowMatches(cfg, t, (document, i), chunks[i])
    ensures Block(cfg, t, document, chunks)
  {
    forall i | 0 <= i < |chunks|
      ensures t.chunks[(document, i)] == ChunkFor(chunks[i])
      ensures t.embeddings[(document, i)] == EmbeddingFor(cfg, chunks[i])
    {
      assert t.chunks[(document, i)] == ChunkFor(was.chunks[i]);
      assert t.embeddings[(document, i)] == EmbeddingFor(was.cfg, was.chunks[i]);
      assert RowMatches(cfg, t, (document, i), chunks[i]);
    }
  }

  lemma BlockKeys(cfg: Config, t: Tables, document: nat, chunks: seq<Chunking.Chunk>)
    requires Block(cfg, t, document, chunks) && t.chunks.Keys == t.embeddings.Keys
    ensures |RowKeys(t, document)| == |chunks|
  {
    var keys := set i: nat | i < |chunks| :: (document, i);
    forall k: ChunkKey | k in RowKeys(t, document) ensures k in keys {
      assert k == (document, k.1);
    }
    assert RowKeys(t, document) == keys;
    KeyCount(document, |chunks|);
  }

  lemma {:induction false} KeyCount(document: nat, n: nat)
    ensures |set i: nat | i < n :: (document, i)| == n
  {
    if n > 0 {
      KeyCount(document, n - 1);
      assert (set i: nat | i < n :: (document, i)) == (set i: nat | i < n - 1 :: (document, i)) + {(document, n - 1)};
    }
  }

  /** With an injective hash, a source is skipped exactly when it has a word and the stored
      document already is what ingesting it now would store. */
  lemma UpToDateMeans(cfg: Config, t: Tables, last: map<string, Pass>, s: Source, chunks: seq<Chunking.Chunk>)
    requires Injective(cfg.hash) && Consistent(t, last)
    requires forall k :: k in last ==> Genuine(cfg, last[k])
    requires chunks == Chunking.Chunks(cfg.hash, s.content, cfg.limit)
    ensures UpToDate(cfg, t, s, chunks) <==> Text.Words(s.content) != [] && Agrees(t, Pass(cfg, s, chunks))
  {
    hide RowKeys, Chunking.Texts, Text.Words;
    Chunking.NoChunkIffNoWord(s.content, cfg.limit);
    if UpToDate(cfg, t, s, chunks) {
      var id, was := t.documents[s.sourceId].id, last[s.sourceId];
      assert Genuine(cfg, was) && Agrees(t, was);
      BlockKeys(was.cfg, t, id, was.chunks);
      hide RowMatches, Block;
      MatchingBlock(cfg, t, was, id, chunks);
    }
    if chunks != [] && Agrees(t, Pass(cfg, s, chunks)) {
      AgreeingIsCurrent(cfg, t, s, chunks);
    }
  }

  lemma AgreeingIsCurrent(cfg: Config, t: Tables, s: Source, chunks: seq<Chunking.Chunk>)
    requires t.chunks.Keys == t.embeddings.Keys && chunks != [] && Agrees(t, Pass(cfg, s, chunks))
    ensures UpToDate(cfg, t, s, chunks)
  {
    BlockKeys(cfg, t, t.documents[s.sourceId].id, chunks);
  }

  /** A pass that finds its source in agreement can stand as the last one. */
  lemma SkippedConsistent(t: Tables, last: map<string, Pass>, pass: Pass)
    requires Consistent(t, last) && Agrees(t, pass)
    ensures Consistent(t, last[pass.source.sourceId := pass])
  {
    hide NoOrphans, Block;
  }

  /** A pass made now. */
  ghost function PassOver(cfg: Config, s: Source): Pass {
    Pass(cfg, s, Chunking.Chunks(cfg.hash, s.content, cfg.limit))
  }

  /** The passes recorded after ingesting a list of sources in order. */
  ghost function Recorded(cfg: Config, last: map<string, Pass>, sources: seq<Source>): map<string, Pass> {
    if sources == [] then last
    else
      var s := sources[|sources| - 1];
      Recorded(cfg, last, sources[..|sources| - 1])[s.sourceId := PassOver(cfg, s)]
  }

  lemma RecordedNone(cfg: Config, last: map<string, Pass>)
    ensures Recorded(cfg, last, []) == last
  {
  }

  lemma RecordedNext(cfg: Config, last: map<string, Pass>, sources: seq<Source>, n: nat)
    requires n < |sources|
    ensures Recorded(cfg, last, sources[..n + 1])
            == Recorded(cfg, last, sources[..n])[sources[n].sourceId := PassOver(cfg, sources[n])]
  {
    hide PassOver;
    assert sources[..n + 1][..n] == sources[..n];
  }

  /** Every source has a word and is stored as it would be now. */
  ghost predicate Settled(cfg: Config, t: Tables, sources: seq<Source>) {
    forall i :: 0 <= i < |sources| ==> IsSettled(cfg, t, sources[i])
  }

  ghost predicate IsSettled(cfg: Config, t: Tables, s: Source) {
    Text.Words(s.content) != [] && Agrees(t, PassOver(cfg, s))
  }

  /** What the tables hold of a document that agrees with a pass: the source's own fields under
      the document's number, and for each chunk its text, and the embedding of the text as a
      search document by the configured model. */
  lemma AgreementMeans(t: Tables, pass: Pass, i: nat)
    requires Agrees(t, pass) && t.chunks.Keys == t.embeddings.Keys
    ensures var s, cfg, d := pass.source, pass.cfg, t.documents[pass.source.sourceId];
            && d.title == s.title && d.category == s.category && d.version == s.version && d.path == s.path
            && d.contentHash == cfg.hash(s.content)
            && ((d.id, i) in t.chunks <==> i < |pass.chunks|) && ((d.id, i) in t.embeddings <==> i < |pass.chunks|)
            && (i < |pass.chunks| ==>
                  && t.chunks[(d.id, i)].content == pass.chunks[i].content
                  && t.chunks[(d.id, i)].contentHash == pass.chunks[i].contentHash
                  && t.embeddings[(d.id, i)].provider == cfg.provider && t.embeddings[(d.id, i)].model == cfg.model
                  && t.embeddings[(d.id, i)].dimensions == 768
                  && t.embeddings[(d.id, i)].contentHash == pass.chunks[i].contentHash
                  && t.embeddings[(d.id, i)].vector
                     == cfg.vector(cfg.provider, cfg.model, "search_document: " + pass.chunks[i].content))
  {
  }

  /** Chunks of the sources that were replaced. */
  ghost function EmbeddedOf(cfg: Config, sources: seq<Source>, changed: seq<bool>): nat
    requires |changed| <= |sources|
  {
    if changed == [] then 0
    else
      var n := |changed| - 1;
      EmbeddedOf(cfg, sources, changed[..n])
      + if changed[n] then |Chunking.Chunks(cfg.hash, sources[n].content, cfg.limit)| else 0
  }

  function CountTrue(flags: seq<bool>): nat {
    if flags == [] then 0 else CountTrue(flags[..|flags| - 1]) + if flags[|flags| - 1] then 1 else 0
  }

  class KnowledgeIngestor {
    const cfg: Config
    var documents: map<string, Document>
    var chunks: map<ChunkKey, ChunkRow>
    var embeddings: map<ChunkKey, EmbeddingRow>
    var nextDocument: nat
    ghost var last: map<string, Pass>
    // The embedding provider refused a request.
    ghost var refused: bool

    ghost function Stored(): Tables
      reads this
    {
      Tables(documents, chunks, embeddings, nextDocument)
    }

    ghost predicate Valid()
      reads this
    {
      && Consistent(Stored(), last)
      && forall k :: k in last ==> Genuine(cfg, last[k])
    }

    /** An ingestor over tables that earlier ingestors, perhaps configured differently, filled. */
    constructor (cfg: Config, t: Tables, ghost last: map<string, Pass>)
      requires Consistent(t, last) && forall k :: k in last ==> Genuine(cfg, last[k])
      ensures Valid() && this.cfg == cfg && Stored() == t && this.last == last
    {
      this.cfg := cfg;
      documents, chunks, embeddings, nextDocument := t.documents, t.chunks, t.embeddings, t.nextDocument;
      this.last, refused := last, false;
    }

    /** Ask for the embeddings of the chunks. */
    method Embed() returns (ok: bool)
      modifies this`refused
      ensures refused == (old(refused) || !ok)
    {
      ok := *;
      refused := refused || !ok;
    }

    /** `_is_current`, with the metadata comparison made before it. */
    method IsCurrent(s: Source, expected: seq<Chunking.Chunk>) returns (current: bool)
      ensures current == UpToDate(cfg, Stored(), s, expected)
    {
      var t := Tables(documents, chunks, embeddings, nextDocument);
      if !MetadataCurrent(t, s) || expected == [] || documents[s.sourceId].contentHash != cfg.hash(s.content) {
        return false;
      }
      var id := documents[s.sourceId].id;
      if |RowKeys(t, id)| != |expected| {
        return false;
      }
      for i := 0 to |expected|
        invariant forall j :: 0 <= j < i ==> RowMatches(cfg, t, (id, j), expected[j])
      {
        if !RowMatches(cfg, t, (id, i), expected[i]) {
          return false;
        }
      }
      current := true;
    }

    /** One transaction: the document row, the old rows deleted, the new rows added. */
    method Replace(s: Source, wanted: seq<Chunking.Chunk>)
      modifies this
      ensures Stored() == Replaced(cfg, old(Stored()), s, wanted) && last == old(last) && refused == old(refused)
    {
      ghost var before := Stored();
      var id := if s.sourceId in documents then documents[s.sourceId].id else nextDocument;
      chunks := map k | k in chunks && k.0 != id :: chunks[k];
      embeddings := map k | k in embeddings && k.0 != id :: embeddings[k];
      if s.sourceId !in documents {
        nextDocument := nextDocument + 1;
      }
      documents := documents[s.sourceId := DocumentFor(cfg, id, s)];
      assert Stored() == Cleared(cfg, before, s);
      InsertRows(id, wanted);
    }

    method InsertRows(document: nat, wanted: seq<Chunking.Chunk>)
      modifies this
      ensures Stored() == Inserted(cfg, old(Stored()), document, wanted) && last == old(last) && refused == old(refused)
    {
      for i := 0 to |wanted|
        invariant Stored() == Inserted(cfg, old(Stored()), document, wanted[..i])
        invariant last == old(last) && refused == old(refused)
      {
        assert wanted[..i + 1][..i] == wanted[..i];
        chunks := chunks[(document, i) := ChunkFor(wanted[i])];
        embeddings := embeddings[(document, i) := EmbeddingFor(cfg, wanted[i])];
      }
      assert wanted[..|wanted|] == wanted;
    }

    /** One source of a pass. A failed embedding request leaves every table as it was. */
    method IngestSource(s: Source) returns (done: bool, updated: bool, embedded: nat)
      requires Valid() && Injective(cfg.hash)
      modifies this
      ensures Valid() && refused == (old(refused) || !done)
      ensures last == if done then old(last)[s.sourceId := PassOver(cfg, s)] else old(last)
      ensures !done || !updated ==> Stored() == old(Stored()) && embedded == 0
      ensures old(IsSettled(cfg, Stored(), s)) <==> done && !updated
      ensures done && updated ==> embedded == |Chunking.Chunks(cfg.hash, s.content, cfg.limit)|
    {
      hide Consistent, NoOrphans, Agrees, Replaced, UpToDate;
      embedded := 0;
      var wanted := Chunking.ChunkDocument(cfg.hash, s.content, cfg.limit);
      ghost var pass := Pass(cfg, s, wanted);
      UpToDateMeans(cfg, Stored(), last, s, wanted);
      var current := IsCurrent(s, wanted);
      if current {
        SkippedConsistent(Stored(), last, pass);
        last := last[s.sourceId := pass];
        return true, false, 0;
      }
      var available := Embed();
      if !available {
        return false, true, 0;
      }
      ReplacedConsistent(cfg, Stored(), last, s, wanted);
      Replace(s, wanted);
      last := last[s.sourceId := pass];
      done, updated, embedded := true, true, |wanted|;
    }

    /** One pass over the manifest, which names no source twice. It stops only at a refused
        embedding request; a crash between transactions leaves what a shorter manifest would. */
    method Ingest(sources: seq<Source>)
      returns (finished: nat, updated: nat, skipped: nat, embedded: nat, ghost changed: seq<bool>)
      requires Valid() && Injective(cfg.hash)
      modifies this
      ensures Valid() && finished <= |sources| && (finished == |sources| || refused) && (old(refused) ==> refused)
      ensures last == Recorded(cfg, old(last), sources[..finished])
      ensures |changed| == finished == updated + skipped && updated == CountTrue(changed)
      ensures embedded == EmbeddedOf(cfg, sources, changed)
      ensures old(Settled(cfg, Stored(), sources)) ==>
                finished == skipped == |sources| && embedded == 0 && Stored() == old(Stored())
    {
      hide Valid, IsSettled, Recorded, PassOver, Stored;
      assert sources[..0] == [];
      RecordedNone(cfg, last);
      finished, updated, skipped, embedded, changed := 0, 0, 0, 0, [];
      while finished < |sources|
        invariant Valid() && finished <= |sources|
        invariant last == Recorded(cfg, old(last), sources[..finished])
        invariant |changed| == finished == updated + skipped && updated == CountTrue(changed)
        invariant embedded == EmbeddedOf(cfg, sources, changed) && (old(refused) ==> refused)
        invariant old(Settled(cfg, Stored(), sources)) ==>
                    skipped == finished && embedded == 0 && Stored() == old(Stored())
      {
        var done, replaced, added := IngestSource(sources[finished]);
        if !done {
          return;
        }
        RecordedNext(cfg, old(last), sources, finished);
        if replaced {
          updated := updated + 1;
        } else {
          skipped := skipped + 1;
        }
        assert (changed + [replaced])[..finished] == changed;
        finished, embedded, changed := finished + 1, embedded + added, changed + [replaced];
      }
    }
  }
}
