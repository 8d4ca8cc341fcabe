/** The client-side request-batch assembler: turns batches of raw input items into
    protocol requests, one per batch, numbering requests and documents as it goes.

    `Generate` is the assembler itself; `Index`, `Train` and `Search` are the entry
    points built on it. `Assembled` and `Generated` state what a run produces, and the
    lemmas below derive from them the properties callers rely on. */
module ClientRequest {
  import opened Wrappers
  import opened Utf8
  import opened Batching
  import opened Proto

  /** How the items of a run are to be read. */
  datatype ClientInputType = BufferInput | DataUriInput | FilePathInput | ProtobufInput

  /** A raw input item: a byte string, a text string, or a pre-built document record. */
  datatype Item = Bytes(bytes: seq<byte>) | Text(text: string) | Record(record: Document)

  /** The settings of one run that stay fixed across its batches, each with the default a
      caller gets by leaving it out: sequential ids, indexing, `top_k` 50, BUFFER input. */
  datatype Config = Config(randomDocId: bool := false, mode: ClientMode := ClientMode.Index, topK: int := 50,
                           inputType: ClientInputType := BufferInput)

  /** The one failure of a run: a search whose `top_k` is not positive. */
  datatype Error = InvalidTopK(topK: int)

  /** What a run yields: the requests emitted, and the error that ended it, if any. */
  datatype Outcome = Outcome(requests: seq<Request>, error: Option<Error>)

  const UIntModulus: int := 0x1_0000_0000

  /** The value of a C `unsigned int` (32 bits) initialised with `x`: `x` wrapped modulo 2^32. */
  function CUInt(x: int): (r: int)
    ensures 0 <= r < UIntModulus
    ensures (x - r) % UIntModulus == 0
  {
    x % UIntModulus
  }

  /** The largest random document id: the unsigned 32-bit value of -1. */
  const RandomDocIdMax: int := CUInt(-1)

  /** A random integer drawn from `lo..hi`, both included, out of raw `entropy`. */
  function RandInt(lo: int, hi: int, entropy: nat): (r: int)
    requires lo <= hi
    ensures lo <= r <= hi
  {
    lo + entropy % (hi - lo + 1)
  }

  /** Every value of the range can be drawn: the entropy model excludes no document id. */
  lemma RandIntCovers(lo: int, hi: int, v: int)
    requires lo <= v <= hi
    ensures RandInt(lo, hi, v - lo) == v
  {
  }

  /** The item has the shape the input type reads: a record for PROTOBUF, a string for
      DATA_URI and FILE_PATH, bytes or a string for BUFFER. */
  predicate Accepts(t: ClientInputType, x: Item) {
    match t
    case ProtobufInput => x.Record?
    case DataUriInput => x.Text?
    case FilePathInput => x.Text?
    case BufferInput => x.Bytes? || x.Text?
  }

  /** Every item has the shape the input type reads. */
  predicate ItemsAccepted(items: seq<Item>, t: ClientInputType) {
    forall j | 0 <= j < |items| :: Accepts(t, items[j])
  }

  /** Every item of every batch has the shape the input type reads. */
  predicate AllAccepted(batches: seq<seq<Item>>, t: ClientInputType) {
    forall i | 0 <= i < |batches| :: ItemsAccepted(batches[i], t)
  }

  /** The document built for item `x`: a copy of the record, or a fresh document carrying
      the string or the bytes (a string encoded first), stamped with `docId` and weight 1. */
  function NewDocument(x: Item, t: ClientInputType, docId: int): Document
    requires Accepts(t, x)
  {
    var d := match t
      case ProtobufInput => x.record
      case DataUriInput => EmptyDocument().(content := DataUri(x.text))
      case FilePathInput => EmptyDocument().(content := FilePath(x.text))
      case BufferInput =>
        EmptyDocument().(content := Buffer(if x.Text? then Encode(x.text) else x.bytes));
    d.(docId := docId, weight := 1.0)
  }

  /** The id of the document at position `k` of the run (counting from 0 over all
      batches): the running counter, or a draw from `entropy(k)` when ids are random. */
  function DocIdFor(cfg: Config, firstDocId: int, k: nat, entropy: nat -> nat): int {
    if cfg.randomDocId then RandInt(0, RandomDocIdMax, entropy(k)) else firstDocId + k
  }

  /** The documents built for `batch`, whose first item sits at position `offset` of the run. */
  function BatchDocs(batch: seq<Item>, cfg: Config, firstDocId: int, offset: nat,
                     entropy: nat -> nat): (ds: seq<Document>)
    requires ItemsAccepted(batch, cfg.inputType)
    ensures |ds| == |batch|
  {
    seq(|batch|, j requires 0 <= j < |batch| =>
      NewDocument(batch[j], cfg.inputType, DocIdFor(cfg, firstDocId, offset + j, entropy)))
  }

  /** A request before its documents are added: its id and, in search mode, `top_k`. */
  function Header(cfg: Config, requestId: int): Request {
    var r := EmptyRequest().(requestId := requestId);
    if cfg.mode.Search? then r.(search := r.search.(topK := cfg.topK)) else r
  }

  /** A document is stamped with the id it is given and weight 1. A record keeps its
      content and its other fields; a string for DATA_URI or FILE_PATH is stored unchanged
      in the field of that name; BUFFER stores bytes as they are and a string as its
      UTF-8 encoding, which decodes back to the string. */
  lemma NewDocumentPayload(x: Item, t: ClientInputType, docId: int)
    requires Accepts(t, x)
    ensures NewDocument(x, t, docId).docId == docId && NewDocument(x, t, docId).weight == 1.0
    ensures t.ProtobufInput? ==>
      NewDocument(x, t, docId).content == x.record.content && NewDocument(x, t, docId).meta == x.record.meta
    ensures t.DataUriInput? ==>
      NewDocument(x, t, docId).content == DataUri(x.text) && NewDocument(x, t, docId).meta == map[]
    ensures t.FilePathInput? ==>
      NewDocument(x, t, docId).content == FilePath(x.text) && NewDocument(x, t, docId).meta == map[]
    ensures t.BufferInput? && x.Bytes? ==>
      NewDocument(x, t, docId).content == Buffer(x.bytes) && NewDocument(x, t, docId).meta == map[]
    ensures t.BufferInput? && x.Text? ==>
      && NewDocument(x, t, docId).content == Buffer(Encode(x.text))
      && Decode(NewDocument(x, t, docId).content.buffer) == Some(x.text)
      && NewDocument(x, t, docId).meta == map[]
  {
    if t.BufferInput? && x.Text? {
      DecodeEncode(x.text);
    }
  }

  /** With sequential ids the document at run position `k` gets `firstDocId + k`, and
      the random draws play no part; with random ids it gets a value of the unsigned
      32-bit range. */
  lemma DocIdChoice(cfg: Config, firstDocId: int, k: nat, e1: nat -> nat, e2: nat -> nat)
    ensures !cfg.randomDocId ==> DocIdFor(cfg, firstDocId, k, e1) == firstDocId + k
    ensures !cfg.randomDocId ==> DocIdFor(cfg, firstDocId, k, e1) == DocIdFor(cfg, firstDocId, k, e2)
    ensures cfg.randomDocId ==> 0 <= DocIdFor(cfg, firstDocId, k, e1) <= 0xFFFF_FFFF
  {
  }

  /** A request header carries the given id, no document in any list, `top_k` in search
      mode and the default otherwise, and no flush flag. */
  lemma HeaderFields(cfg: Config, requestId: int)
    ensures Header(cfg, requestId).requestId == requestId
    ensures forall m: ClientMode :: Docs(Header(cfg, requestId), m) == []
    ensures Header(cfg, requestId).search.topK == (if cfg.mode.Search? then cfg.topK else 0)
    ensures !Header(cfg, requestId).train.flush
  {
  }

  /** The complete request for one batch. */
  function BatchRequest(batch: seq<Item>, cfg: Config, requestId: int, firstDocId: int,
                        offset: nat, entropy: nat -> nat): Request
    requires ItemsAccepted(batch, cfg.inputType)
  {
    WithDocs(Header(cfg, requestId), cfg.mode, BatchDocs(batch, cfg, firstDocId, offset, entropy))
  }

  /** `reqs` is what a run that does not fail yields: one request per batch, in batch
      order, request `i` built from batch `i` with id `firstRequestId + i`. */
  predicate Assembled(batches: seq<seq<Item>>, cfg: Config, firstDocId: int, firstRequestId: int,
                      entropy: nat -> nat, reqs: seq<Request>)
    requires AllAccepted(batches, cfg.inputType)
  {
    && |reqs| == |batches|
    && forall i | 0 <= i < |batches| ::
         reqs[i] == BatchRequest(batches[i], cfg, firstRequestId + i, firstDocId, Offset(batches, i), entropy)
  }

  /** `out` is what a run yields: it fails exactly when a search with a non-positive
      `top_k` reaches its first batch, before any request is emitted; otherwise it
      yields the assembled requests. */
  predicate Generated(batches: seq<seq<Item>>, cfg: Config, firstDocId: int, firstRequestId: int,
                      entropy: nat -> nat, out: Outcome)
    requires AllAccepted(batches, cfg.inputType)
  {
    && (out.error.Some? <==> cfg.mode.Search? && cfg.topK <= 0 && |batches| > 0)
    && (out.error.Some? ==> out.error.value == InvalidTopK(cfg.topK) && out.requests == [])
    && (out.error.None? ==> Assembled(batches, cfg, firstDocId, firstRequestId, entropy, out.requests))
  }

  /** The inner loop of a run: adds one document per item of `batch`, in order, to the
      document list of the run's mode, numbering them from the counter `docId`, which
      advances once per document whether or not the ids are random. */
  method AddDocuments(req: Request, batch: seq<Item>, cfg: Config, firstDocId: int, docId: int,
                      entropy: nat -> nat) returns (req': Request, docId': int)
    requires firstDocId <= docId
    requires ItemsAccepted(batch, cfg.inputType)
    ensures docId' == docId + |batch|
    ensures req' == WithDocs(req, cfg.mode,
                             Docs(req, cfg.mode) + BatchDocs(batch, cfg, firstDocId, docId - firstDocId, entropy))
  {
    ghost var before := Docs(req, cfg.mode);
    ghost var docs := BatchDocs(batch, cfg, firstDocId, docId - firstDocId, entropy);
    req', docId' := req, docId;
    var j := 0;
    while j < |batch|
      invariant 0 <= j <= |batch|
      invariant docId' == docId + j
      invariant req' == WithDocs(req, cfg.mode, before + docs[..j])
    {
      var id := if cfg.randomDocId then RandInt(0, RandomDocIdMax, entropy(docId' - firstDocId)) else docId';
      var d := NewDocument(batch[j], cfg.inputType, id);
      assert docs[j] == d;
      assert before + docs[..j + 1] == (before + docs[..j]) + [d];
      WithDocsTwice(req, cfg.mode, before + docs[..j], before + docs[..j + 1]);
      req' := WithDocs(req', cfg.mode, Docs(req', cfg.mode) + [d]);
      docId' := docId' + 1;
      j := j + 1;
    }
    assert docs[..j] == docs;
  }

  /** The request for one batch: the header with the request id and, in search mode,
      `top_k`, then one document per item, numbered from the counter `docId`. The caller
      has already rejected a non-positive `top_k`. */
  method BuildRequest(batch: seq<Item>, cfg: Config, requestId: int, firstDocId: int, docId: int,
                      entropy: nat -> nat) returns (req: Request, docId': int)
    requires firstDocId <= docId
    requires ItemsAccepted(batch, cfg.inputType)
    ensures docId' == docId + |batch|
    ensures req == BatchRequest(batch, cfg, requestId, firstDocId, docId - firstDocId, entropy)
  {
    req := EmptyRequest().(requestId := requestId);
    if cfg.mode.Search? {
      req := req.(search := req.search.(topK := cfg.topK));
    }
    assert req == Header(cfg, requestId) && Docs(req, cfg.mode) == [];
    ghost var docs := BatchDocs(batch, cfg, firstDocId, docId - firstDocId, entropy);
    req, docId' := AddDocuments(req, batch, cfg, firstDocId, docId, entropy);
    assert [] + docs == docs;
  }

  /** The first `n` batches of accepted batches are accepted. */
  lemma AcceptedPrefix(batches: seq<seq<Item>>, t: ClientInputType, n: nat)
    requires AllAccepted(batches, t)
    requires n <= |batches|
    ensures AllAccepted(batches[..n], t)
  {
  }

  /** The run of the first `i` batches, followed by the request for batch `i`, is the run
      of the first `i + 1` batches. */
  lemma AssembledStep(batches: seq<seq<Item>>, i: nat, cfg: Config, firstDocId: int, firstRequestId: int,
                      entropy: nat -> nat, reqs: seq<Request>, req: Request)
    requires AllAccepted(batches, cfg.inputType)
    requires i < |batches|
    requires AllAccepted(batches[..i], cfg.inputType)
    requires Assembled(batches[..i], cfg, firstDocId, firstRequestId, entropy, reqs)
    requires req == BatchRequest(batches[i], cfg, firstRequestId + i, firstDocId, Offset(batches, i), entropy)
    ensures AllAccepted(batches[..i + 1], cfg.inputType)
    ensures Assembled(batches[..i + 1], cfg, firstDocId, firstRequestId, entropy, reqs + [req])
  {
    AcceptedPrefix(batches, cfg.inputType, i + 1);
    var front, front' := batches[..i], batches[..i + 1];
    var reqs' := reqs + [req];
    forall r | 0 <= r <= i
      ensures reqs'[r] == BatchRequest(front'[r], cfg, firstRequestId + r, firstDocId, Offset(front', r), entropy)
    {
      assert front'[..r] == batches[..r];
      if r < i {
        assert front[..r] == batches[..r];
        assert reqs'[r] == reqs[r];
      }
    }
  }

  /** The requests of one run, batch by batch. `entropy(k)` is the raw random draw for
      the `k`-th document of the run; it is read only when ids are random. */
  method Generate(batches: seq<seq<Item>>, entropy: nat -> nat, cfg: Config := Config(),
                  firstDocId: int := 0, firstRequestId: int := 0) returns (out: Outcome)
    requires AllAccepted(batches, cfg.inputType)
    ensures Generated(batches, cfg, firstDocId, firstRequestId, entropy, out)
  {
    var docId := firstDocId;
    var requestId := firstRequestId;
    var requests: seq<Request> := [];
    var i := 0;
    AcceptedPrefix(batches, cfg.inputType, 0);
    while i < |batches|
      invariant 0 <= i <= |batches|
      invariant requestId == firstRequestId + i
      invariant docId == firstDocId + Offset(batches, i)
      invariant AllAccepted(batches[..i], cfg.inputType)
      invariant Assembled(batches[..i], cfg, firstDocId, firstRequestId, entropy, requests)
      invariant i > 0 ==> !(cfg.mode.Search? && cfg.topK <= 0)
    {
      if cfg.mode.Search? && cfg.topK <= 0 {
        return Outcome(requests, Some(InvalidTopK(cfg.topK)));
      }
      var req;
      req, docId := BuildRequest(batches[i], cfg, requestId, firstDocId, docId, entropy);
      AssembledStep(batches, i, cfg, firstDocId, firstRequestId, entropy, requests, req);
      OffsetStep(batches, i);
      requests := requests + [req];
      requestId := requestId + 1;
      i := i + 1;
    }
    assert batches[..i] == batches;
    out := Outcome(requests, None);
  }

  /** The indexing entry point: exactly the requests of `Generate`. */
  method Index(batches: seq<seq<Item>>, entropy: nat -> nat, cfg: Config := Config(),
               firstDocId: int := 0, firstRequestId: int := 0) returns (out: Outcome)
    requires AllAccepted(batches, cfg.inputType)
    ensures Generated(batches, cfg, firstDocId, firstRequestId, entropy, out)
  {
    out := Generate(batches, entropy, cfg, firstDocId, firstRequestId);
  }

  /** The search entry point: exactly the requests of `Generate`. */
  method Search(batches: seq<seq<Item>>, entropy: nat -> nat, cfg: Config := Config(),
                firstDocId: int := 0, firstRequestId: int := 0) returns (out: Outcome)
    requires AllAccepted(batches, cfg.inputType)
    ensures Generated(batches, cfg, firstDocId, firstRequestId, entropy, out)
  {
    out := Generate(batches, entropy, cfg, firstDocId, firstRequestId);
  }

  /** The request that ends a training run: id 1, the train flush flag set, no documents. */
  function FlushRequest(): Request {
    EmptyRequest().(requestId := 1, train := TrainRequest([], true))
  }

  /** The flush request carries id 1 and the train flush flag, no document in any list,
      and the default `top_k`. */
  lemma FlushRequestFields()
    ensures FlushRequest().requestId == 1 && FlushRequest().train.flush
    ensures forall m: ClientMode :: Docs(FlushRequest(), m) == []
    ensures FlushRequest().search.topK == 0
  {
  }

  /** `out` is what a training run yields: the requests of `Generate` followed by the
      flush request, or, when `Generate` fails, its failure with no flush request. */
  predicate TrainGenerated(batches: seq<seq<Item>>, cfg: Config, firstDocId: int, firstRequestId: int,
                           entropy: nat -> nat, out: Outcome)
    requires AllAccepted(batches, cfg.inputType)
  {
    if out.error.Some? then Generated(batches, cfg, firstDocId, firstRequestId, entropy, out)
    else
      && out.requests != []
      && out.requests[|out.requests| - 1] == FlushRequest()
      && Generated(batches, cfg, firstDocId, firstRequestId, entropy,
                   Outcome(out.requests[..|out.requests| - 1], None))
  }

  /** The training entry point: the requests of `Generate`, then the flush request. */
  method Train(batches: seq<seq<Item>>, entropy: nat -> nat, cfg: Config := Config(),
               firstDocId: int := 0, firstRequestId: int := 0) returns (out: Outcome)
    requires AllAccepted(batches, cfg.inputType)
    ensures TrainGenerated(batches, cfg, firstDocId, firstRequestId, entropy, out)
  {
    out := Generate(batches, entropy, cfg, firstDocId, firstRequestId);
    if out.error.None? {
      var requests := out.requests + [FlushRequest()];
      assert requests[..|requests| - 1] == out.requests;
      out := Outcome(requests, None);
    }
  }

  // ---------------------------------------------------------------------------
  // Properties of a run

  /** The documents of all requests, read in emission order, from the list of `mode`. */
  function AllDocs(reqs: seq<Request>, mode: ClientMode): seq<Document> {
    Concat(seq(|reqs|, i requires 0 <= i < |reqs| => Docs(reqs[i], mode)))
  }

  /** The documents of all requests but the last, followed by those of the last. */
  lemma AllDocsSnoc(reqs: seq<Request>, mode: ClientMode)
    requires reqs != []
    ensures AllDocs(reqs, mode) == AllDocs(reqs[..|reqs| - 1], mode) + Docs(reqs[|reqs| - 1], mode)
  {
    var n := |reqs|;
    var lists := seq(n, i requires 0 <= i < n => Docs(reqs[i], mode));
    assert lists[..n - 1] == seq(n - 1, i requires 0 <= i < n - 1 => Docs(reqs[..n - 1][i], mode));
  }

  /** The items of accepted batches, taken together, are accepted. */
  lemma {:induction false} ConcatAccepted(batches: seq<seq<Item>>, t: ClientInputType)
    requires AllAccepted(batches, t)
    ensures ItemsAccepted(Concat(batches), t)
    decreases |batches|
  {
    if batches != [] {
      var n := |batches|;
      var front := batches[..n - 1];
      assert AllAccepted(front, t) by {
        forall i | 0 <= i < n - 1 ensures ItemsAccepted(front[i], t) {
          assert front[i] == batches[i];
        }
      }
      ConcatAccepted(batches[..n - 1], t);
      var init, last := Concat(batches[..n - 1]), batches[n - 1];
      assert ItemsAccepted(last, t);
      forall k | 0 <= k < |init + last| ensures Accepts(t, (init + last)[k]) {
        if k >= |init| {
          assert (init + last)[k] == last[k - |init|];
        }
      }
    }
  }

  /** Building the documents of two consecutive runs of items at once, or one after the
      other, gives the same documents. */
  lemma BatchDocsAppend(a: seq<Item>, b: seq<Item>, cfg: Config, firstDocId: int, offset: nat,
                        entropy: nat -> nat)
    requires ItemsAccepted(a, cfg.inputType) && ItemsAccepted(b, cfg.inputType)
    ensures ItemsAccepted(a + b, cfg.inputType)
    ensures BatchDocs(a + b, cfg, firstDocId, offset, entropy)
         == BatchDocs(a, cfg, firstDocId, offset, entropy) + BatchDocs(b, cfg, firstDocId, offset + |a|, entropy)
  {
  }

  /** The first `n` requests of a run are the run of the first `n` batches. */
  lemma AssembledPrefix(batches: seq<seq<Item>>, cfg: Config, firstDocId: int, firstRequestId: int,
                        entropy: nat -> nat, reqs: seq<Request>, n: nat)
    requires AllAccepted(batches, cfg.inputType)
    requires Assembled(batches, cfg, firstDocId, firstRequestId, entropy, reqs)
    requires n <= |batches|
    ensures AllAccepted(batches[..n], cfg.inputType)
    ensures Assembled(batches[..n], cfg, firstDocId, firstRequestId, entropy, reqs[..n])
  {
    forall i | 0 <= i < n ensures Offset(batches[..n], i) == Offset(batches, i) {
      assert batches[..n][..i] == batches[..i];
    }
  }

  /** The documents of a run, read in emission order, are exactly the documents built
      for the input items in input order, numbered by their position in the whole run:
      batch boundaries leave no trace in them. */
  lemma {:induction false} EmittedDocuments(batches: seq<seq<Item>>, cfg: Config, firstDocId: int,
                                            firstRequestId: int, entropy: nat -> nat, reqs: seq<Request>)
    requires AllAccepted(batches, cfg.inputType)
    requires Assembled(batches, cfg, firstDocId, firstRequestId, entropy, reqs)
    ensures ItemsAccepted(Concat(batches), cfg.inputType)
    ensures AllDocs(reqs, cfg.mode) == BatchDocs(Concat(batches), cfg, firstDocId, 0, entropy)
    decreases |batches|
  {
    ConcatAccepted(batches, cfg.inputType);
    if batches != [] {
      var n := |batches|;
      var front, last := batches[..n - 1], batches[n - 1];
      assert ItemsAccepted(Concat(front), cfg.inputType)
          && AllDocs(reqs[..n - 1], cfg.mode) == BatchDocs(Concat(front), cfg, firstDocId, 0, entropy) by {
        AssembledPrefix(batches, cfg, firstDocId, firstRequestId, entropy, reqs, n - 1);
        EmittedDocuments(front, cfg, firstDocId, firstRequestId, entropy, reqs[..n - 1]);
      }
      assert Concat(batches) == Concat(front) + last;
      AllDocsStep(reqs, Concat(front), last, cfg, firstDocId, entropy);
    }
  }

  /** One step of `EmittedDocuments`: the documents of one more request, built from one
      more batch, extend the documents of the run so far. */
  lemma AllDocsStep(reqs: seq<Request>, items: seq<Item>, batch: seq<Item>, cfg: Config,
                    firstDocId: int, entropy: nat -> nat)
    requires reqs != []
    requires ItemsAccepted(items, cfg.inputType) && ItemsAccepted(batch, cfg.inputType)
    requires AllDocs(reqs[..|reqs| - 1], cfg.mode) == BatchDocs(items, cfg, firstDocId, 0, entropy)
    requires Docs(reqs[|reqs| - 1], cfg.mode) == BatchDocs(batch, cfg, firstDocId, |items|, entropy)
    ensures ItemsAccepted(items + batch, cfg.inputType)
    ensures AllDocs(reqs, cfg.mode) == BatchDocs(items + batch, cfg, firstDocId, 0, entropy)
  {
    AllDocsSnoc(reqs, cfg.mode);
    BatchDocsAppend(items, batch, cfg, firstDocId, 0, entropy);
  }

  /** With sequential ids, the documents of a run carry `firstDocId, firstDocId + 1, ...`
      in emission order, one per input item, across batch boundaries. */
  lemma SequentialDocIds(batches: seq<seq<Item>>, cfg: Config, firstDocId: int, firstRequestId: int,
                         entropy: nat -> nat, reqs: seq<Request>)
    requires AllAccepted(batches, cfg.inputType)
    requires Assembled(batches, cfg, firstDocId, firstRequestId, entropy, reqs)
    requires !cfg.randomDocId
    ensures |AllDocs(reqs, cfg.mode)| == |Concat(batches)|
    ensures forall k | 0 <= k < |AllDocs(reqs, cfg.mode)| :: AllDocs(reqs, cfg.mode)[k].docId == firstDocId + k
  {
    EmittedDocuments(batches, cfg, firstDocId, firstRequestId, entropy, reqs);
  }

  /** With random ids, every document id lies in the unsigned 32-bit range. */
  lemma RandomDocIdsInRange(batches: seq<seq<Item>>, cfg: Config, firstDocId: int, firstRequestId: int,
                            entropy: nat -> nat, reqs: seq<Request>)
    requires AllAccepted(batches, cfg.inputType)
    requires Assembled(batches, cfg, firstDocId, firstRequestId, entropy, reqs)
    requires cfg.randomDocId
    ensures forall d | d in AllDocs(reqs, cfg.mode) :: 0 <= d.docId <= 0xFFFF_FFFF
  {
    EmittedDocuments(batches, cfg, firstDocId, firstRequestId, entropy, reqs);
  }

  /** What the `k`-th emitted document holds, given the `k`-th input item: a record is
      copied whole; a string for DATA_URI or FILE_PATH is stored unchanged in the field of
      that name; BUFFER stores bytes as they are and a string as its UTF-8 encoding, which
      decodes back to the string. Every document has weight 1. */
  lemma EmittedPayloads(batches: seq<seq<Item>>, cfg: Config, firstDocId: int, firstRequestId: int,
                        entropy: nat -> nat, reqs: seq<Request>)
    requires AllAccepted(batches, cfg.inputType)
    requires Assembled(batches, cfg, firstDocId, firstRequestId, entropy, reqs)
    ensures |AllDocs(reqs, cfg.mode)| == |Concat(batches)|
    ensures forall k | 0 <= k < |Concat(batches)| ::
      var d, x := AllDocs(reqs, cfg.mode)[k], Concat(batches)[k];
      && d.weight == 1.0
      && (cfg.inputType.ProtobufInput? ==> x.Record? && d.content == x.record.content && d.meta == x.record.meta)
      && (cfg.inputType.DataUriInput? ==> x.Text? && d.content == DataUri(x.text) && d.meta == map[])
      && (cfg.inputType.FilePathInput? ==> x.Text? && d.content == FilePath(x.text) && d.meta == map[])
      && (cfg.inputType.BufferInput? && x.Bytes? ==> d.content == Buffer(x.bytes) && d.meta == map[])
      && (cfg.inputType.BufferInput? && x.Text? ==>
            d.content == Buffer(Encode(x.text)) && Decode(d.content.buffer) == Some(x.text) && d.meta == map[])
  {
    EmittedDocuments(batches, cfg, firstDocId, firstRequestId, entropy, reqs);
    forall k | 0 <= k < |Concat(batches)| && Concat(batches)[k].Text?
      ensures Decode(Encode(Concat(batches)[k].text)) == Some(Concat(batches)[k].text)
    {
      DecodeEncode(Concat(batches)[k].text);
    }
  }

  /** Every request of a run carries the next request id; its mode's list holds one
      document per batch item, the other modes' lists stay empty; `top_k` is set exactly
      in search mode; no request of the run is a flush request. */
  lemma RequestFields(batches: seq<seq<Item>>, cfg: Config, firstDocId: int, firstRequestId: int,
                      entropy: nat -> nat, reqs: seq<Request>)
    requires AllAccepted(batches, cfg.inputType)
    requires Assembled(batches, cfg, firstDocId, firstRequestId, entropy, reqs)
    ensures forall i | 0 <= i < |reqs| ::
      && reqs[i].requestId == firstRequestId + i
      && |Docs(reqs[i], cfg.mode)| == |batches[i]|
      && (forall m: ClientMode | m != cfg.mode :: Docs(reqs[i], m) == [])
      && reqs[i].search.topK == (if cfg.mode.Search? then cfg.topK else 0)
      && !reqs[i].train.flush
  {
  }

  /** A run is determined by its input and settings: two runs over the same batches
      with the same settings yield the same outcome. The random draws matter only when
      ids are random; with sequential ids the runs agree whatever they draw. */
  lemma GeneratedUnique(batches: seq<seq<Item>>, cfg: Config, firstDocId: int, firstRequestId: int,
                        e1: nat -> nat, e2: nat -> nat, out: Outcome, out': Outcome)
    requires AllAccepted(batches, cfg.inputType)
    requires !cfg.randomDocId || e1 == e2
    requires Generated(batches, cfg, firstDocId, firstRequestId, e1, out)
    requires Generated(batches, cfg, firstDocId, firstRequestId, e2, out')
    ensures out == out'
  {
    forall i | 0 <= i < |batches|
      ensures BatchDocs(batches[i], cfg, firstDocId, Offset(batches, i), e1)
           == BatchDocs(batches[i], cfg, firstDocId, Offset(batches, i), e2)
    {
    }
  }

  /** A training run is determined the same way: same batches and settings, and the
      same random draws when ids are random, give the same outcome. */
  lemma TrainGeneratedUnique(batches: seq<seq<Item>>, cfg: Config, firstDocId: int, firstRequestId: int,
                             e1: nat -> nat, e2: nat -> nat, out: Outcome, out': Outcome)
    requires AllAccepted(batches, cfg.inputType)
    requires !cfg.randomDocId || e1 == e2
    requires TrainGenerated(batches, cfg, firstDocId, firstRequestId, e1, out)
    requires TrainGenerated(batches, cfg, firstDocId, firstRequestId, e2, out')
    ensures out == out'
  {
    if out.error.Some? || out'.error.Some? {
      GeneratedUnique(batches, cfg, firstDocId, firstRequestId, e1, e2, out, out');
    } else {
      var n, n' := |out.requests| - 1, |out'.requests| - 1;
      GeneratedUnique(batches, cfg, firstDocId, firstRequestId, e1, e2,
                      Outcome(out.requests[..n], None), Outcome(out'.requests[..n'], None));
      assert out.requests == out.requests[..n] + [FlushRequest()];
      assert out'.requests == out'.requests[..n'] + [FlushRequest()];
    }
  }

  /** Cutting accepted items into groups gives accepted batches. */
  lemma {:induction false} ChunksAccepted(items: seq<Item>, batchSize: int, t: ClientInputType)
    requires ItemsAccepted(items, t)
    ensures AllAccepted(Chunks(items, batchSize), t)
    decreases |items|
  {
    if items != [] && batchSize > 0 && |items| > batchSize {
      var head, tail := items[..batchSize], items[batchSize..];
      assert ItemsAccepted(tail, t) by {
        forall j | 0 <= j < |tail| ensures Accepts(t, tail[j]) {
          assert tail[j] == items[batchSize + j];
        }
      }
      ChunksAccepted(tail, batchSize, t);
      var rest := Chunks(tail, batchSize);
      assert Chunks(items, batchSize) == [head] + rest;
      forall i | 1 <= i < |rest| + 1 ensures ItemsAccepted(Chunks(items, batchSize)[i], t) {
        assert Chunks(items, batchSize)[i] == rest[i - 1];
      }
    }
  }

  /** Without batches nothing fails and nothing is emitted, whatever `top_k` is. */
  lemma EmptyRun(cfg: Config, firstDocId: int, firstRequestId: int, entropy: nat -> nat, out: Outcome)
    requires Generated([], cfg, firstDocId, firstRequestId, entropy, out)
    ensures out == Outcome([], None)
  {
  }

  /** Without batches a training run yields the flush request alone. */
  lemma EmptyTrainRun(cfg: Config, firstDocId: int, firstRequestId: int, entropy: nat -> nat, out: Outcome)
    requires TrainGenerated([], cfg, firstDocId, firstRequestId, entropy, out)
    ensures out == Outcome([FlushRequest()], None)
  {
  }

  /** Batches cut by `Chunks` give one request per group of `batchSize` items (the
      ceiling of |items| / batchSize, or one request for all items when `batchSize <= 0`),
      and their documents, read in emission order, are those of the items in input order. */
  lemma ChunkedRun(items: seq<Item>, batchSize: int, cfg: Config, firstDocId: int, firstRequestId: int,
                   entropy: nat -> nat, out: Outcome)
    requires ItemsAccepted(items, cfg.inputType)
    requires (ChunksAccepted(items, batchSize, cfg.inputType);
              Generated(Chunks(items, batchSize), cfg, firstDocId, firstRequestId, entropy, out))
    requires out.error.None?
    ensures batchSize > 0 ==> |items| <= |out.requests| * batchSize < |items| + batchSize
    ensures batchSize <= 0 ==> |out.requests| == if items == [] then 0 else 1
    ensures AllDocs(out.requests, cfg.mode) == BatchDocs(items, cfg, firstDocId, 0, entropy)
  {
    ChunksAccepted(items, batchSize, cfg.inputType);
    if batchSize > 0 {
      ChunkCount(items, batchSize);
    }
    EmittedDocuments(Chunks(items, batchSize), cfg, firstDocId, firstRequestId, entropy, out.requests);
  }

  /** The ids of a list of documents, in order. */
  function DocIds(ds: seq<Document>): seq<int> {
    seq(|ds|, k requires 0 <= k < |ds| => ds[k].docId)
  }

  /** With sequential ids, the documents of a batch starting at run position `offset`
      carry the ids `firstDocId + offset`, `firstDocId + offset + 1`, ... */
  lemma BatchDocIds(batch: seq<Item>, cfg: Config, firstDocId: int, offset: nat, entropy: nat -> nat)
    requires ItemsAccepted(batch, cfg.inputType)
    requires !cfg.randomDocId
    ensures DocIds(BatchDocs(batch, cfg, firstDocId, offset, entropy))
         == seq(|batch|, j requires 0 <= j < |batch| => firstDocId + offset + j)
  {
  }

  /** Five strings cut into groups of two: two pairs and a single. */
  lemma FiveStringsChunked()
    ensures Chunks([Text("a"), Text("b"), Text("c"), Text("d"), Text("e")], 2)
         == [[Text("a"), Text("b")], [Text("c"), Text("d")], [Text("e")]]
  {
    var items := [Text("a"), Text("b"), Text("c"), Text("d"), Text("e")];
    var rest, last := items[2..], items[4..];
    assert rest[2..] == last == [Text("e")];
    assert Chunks(last, 2) == [last];
    assert rest[..2] == [Text("c"), Text("d")];
    assert Chunks(rest, 2) == [rest[..2]] + Chunks(last, 2);
    assert items[..2] == [Text("a"), Text("b")];
  }

  /** Five strings indexed in those groups of two, numbered from 0: three requests with
      ids 0, 1, 2, holding the documents with ids 0, 1 / 2, 3 / 4. */
  lemma FiveStringsInTwos(entropy: nat -> nat, out: Outcome)
    requires Generated([[Text("a"), Text("b")], [Text("c"), Text("d")], [Text("e")]],
                       Config(), 0, 0, entropy, out)
    ensures out.error == None && |out.requests| == 3
    ensures out.requests[0].requestId == 0 && DocIds(Docs(out.requests[0], ClientMode.Index)) == [0, 1]
    ensures out.requests[1].requestId == 1 && DocIds(Docs(out.requests[1], ClientMode.Index)) == [2, 3]
    ensures out.requests[2].requestId == 2 && DocIds(Docs(out.requests[2], ClientMode.Index)) == [4]
  {
    var batches := [[Text("a"), Text("b")], [Text("c"), Text("d")], [Text("e")]];
    var cfg := Config();
    OffsetStep(batches, 0);
    OffsetStep(batches, 1);
    BatchDocIds(batches[0], cfg, 0, 0, entropy);
    BatchDocIds(batches[1], cfg, 0, 2, entropy);
    BatchDocIds(batches[2], cfg, 0, 4, entropy);
  }
}
