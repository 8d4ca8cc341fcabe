/** The logical fields of the protocol messages the assembler fills in: documents and
    requests with one document list per mode. Wire encoding is not modelled. */
module Proto {
  import opened Utf8

  /** The processing intent of a run; it names the request field that holds the documents. */
  datatype ClientMode = Index | Train | Search

  /** A document's payload: at most one of a byte buffer, a data URI or a file path. */
  datatype Content = NoContent | Buffer(buffer: seq<byte>) | DataUri(dataUri: string) | FilePath(filePath: string)

  /** A document record. `meta` stands for every other field of the record (MIME type,
      tags, chunks, ...), which the assembler never reads or writes but copies along. */
  datatype Document = Document(docId: int, weight: real, content: Content, meta: map<string, string>)

  /** A freshly added document: every field at its default value. */
  function EmptyDocument(): Document {
    Document(0, 0.0, NoContent, map[])
  }

  datatype IndexRequest = IndexRequest(docs: seq<Document>)
  datatype TrainRequest = TrainRequest(docs: seq<Document>, flush: bool)
  datatype SearchRequest = SearchRequest(docs: seq<Document>, topK: int)

  /** A request: its id and one sub-message per mode, each with its own document list. */
  datatype Request = Request(requestId: int, index: IndexRequest, train: TrainRequest, search: SearchRequest)

  /** A freshly constructed request: every field at its default value. */
  function EmptyRequest(): Request {
    Request(0, IndexRequest([]), TrainRequest([], false), SearchRequest([], 0))
  }

  /** The document list of the sub-message named after `mode`. */
  function Docs(r: Request, mode: ClientMode): seq<Document> {
    match mode
    case Index => r.index.docs
    case Train => r.train.docs
    case Search => r.search.docs
  }

  /** `r` with the document list named after `mode` replaced by `docs`; nothing else changes. */
  function WithDocs(r: Request, mode: ClientMode, docs: seq<Document>): (r': Request)
    ensures Docs(r', mode) == docs
    ensures forall m: ClientMode | m != mode :: Docs(r', m) == Docs(r, m)
    ensures r'.requestId == r.requestId
    ensures r'.train.flush == r.train.flush && r'.search.topK == r.search.topK
  {
    match mode
    case Index => r.(index := r.index.(docs := docs))
    case Train => r.(train := r.train.(docs := docs))
    case Search => r.(search := r.search.(docs := docs))
  }

  /** Replacing a document list twice keeps only the second replacement. */
  lemma WithDocsTwice(r: Request, mode: ClientMode, docs: seq<Document>, docs': seq<Document>)
    ensures WithDocs(WithDocs(r, mode, docs), mode, docs') == WithDocs(r, mode, docs')
  {
  }
}
