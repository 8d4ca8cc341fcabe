# Client request-batch assembler, modelled in Dafny

This project models the client-side request generator of Jina (`jina/clients/python/request.py`).
The generator turns a stream of raw input items into protocol `Request` messages. The items can be
byte strings, text strings, file paths, data URIs or pre-built `Document` records.

- `_generate` walks the batches the input is cut into and builds one request per batch.
- Each request takes its `request_id` from a running counter. In search mode it also checks and
  stores `top_k`.
- For every item, `_generate` appends a document to the list named after the mode (`index`,
  `train` or `search`).
- Each document gets a payload that depends on the input type, a `doc_id` and weight 1.0. The
  `doc_id` comes from a second running counter, or is drawn at random from the unsigned 32-bit
  range.
- `index` and `search` yield exactly what `_generate` yields. `train` adds one flush request at the
  end.

Files:

- `request.dfy` (module `ClientRequest`) is the assembler.
  - `Generate` is an imperative method. Its outer loop runs over the batches and advances the
    request counter. `AddDocuments` holds the inner loop over the items of a batch and advances the
    document counter.
  - `Index`, `Train` and `Search` are the three entry points.
  - `Assembled`, `Generated` and `TrainGenerated` state what a run yields. They fully determine it
    (`GeneratedUnique`, `TrainGeneratedUnique`). With sequential ids the random draws play no part.
  - The remaining lemmas derive the properties callers rely on from those predicates.
- `proto.dfy` (module `Proto`) holds the logical fields of the `Document` and `Request` messages.
  A request has one sub-message per mode, and each sub-message has its own document list.
- `batching.dfy` (module `Batching`) covers how the input is cut into batches. `Concat` rejoins
  the batches. `Chunks` is the grouping this model assumes for the batching helper
  `batch_iterator`: consecutive groups of `batch_size` items, or one group when `batch_size <= 0`.
- `utf8.dfy` (module `Utf8`) is UTF-8 as in section 3 of RFC 3629. It is the codec behind
  `str.encode()`, which the BUFFER input type applies to text items. `Decode` is its inverse and
  shows that the encoding loses nothing.
- `wrappers.dfy` (module `Wrappers`) holds `Option`.

Design choices:

- **Batching.** `Generate` takes the batch sequence itself, with no condition on how it is grouped.
  Whatever grouping the helper yields is covered, including an empty batch, which gives one request
  with no documents. `ChunkedRun` combines `Generate` with the grouping `Chunks` assumes.
- **Defaults.** Leaving out an argument gives the same default as in `request.py:15-18`.
  - `Config()` means sequential ids, INDEX mode, `top_k` 50 and BUFFER input.
  - `Generate`, `Index`, `Search` and `Train` number documents and requests from 0 by default.
  - `Chunks` takes batch size 0 by default, which puts all items in one batch.
  - So `Search(batches, entropy)` with no configuration builds INDEX requests and never checks
    `top_k`, as `search(data)` does.
- **Random ids.** The random generator becomes an oracle `entropy`. Its value `entropy(k)` is the
  raw draw for the `k`-th document of the run. `randint(lo, hi)` is modelled as
  `lo + draw % (hi - lo + 1)`. `RandIntCovers` shows that this model can still produce every id.
- **Error path.** The error ends a run and is returned as the `error` of an `Outcome`, next to the
  requests yielded before it.

Three behaviours of the code a reader may not expect; the model follows the code:

- The document counter advances once per document even when ids are random (`request.py:52`). It
  is not held still.
- The entry points do not fix the mode. They forward every argument to `_generate`, so the mode
  is part of the configuration each of them takes.
- An empty input yields no request only when the batching helper yields no batch for it. With an
  empty batch, `_generate` emits one request with no documents.

## Model

| member | source | states |
|---|---|---|
| `ClientRequest.Generate` | jina/clients/python/request.py:15-54 | The output satisfies `Generated`. The run fails exactly when the mode is search, `top_k <= 0` and there is at least one batch; it then fails with `InvalidTopK(top_k)` before any request. Otherwise it yields one request per batch, in order, each equal to the request `Assembled` prescribes for that batch. The loop invariants keep the request counter at `firstRequestId + i` and the document counter at `firstDocId` plus the number of items already read. |
| `ClientRequest.BuildRequest` | jina/clients/python/request.py:25-52 | Yields exactly the request `BatchRequest` prescribes for one batch: the header with the request id and, in search mode, `top_k`, then one document per item. The counter advances by the batch length. The `top_k` check (lines 28-30) is made by `Generate` before this is called. |
| `ClientRequest.AddDocuments` | jina/clients/python/request.py:34-52 | Appends one document per batch item, in batch order, to the list of the run's mode and to no other list. The counter advances by exactly the batch length, random ids or not. Each document is built from its item and numbered by its position in the run. |
| `ClientRequest.Index` | jina/clients/python/request.py:57-59 | Yields exactly what `Generate` yields, error included. |
| `ClientRequest.Search` | jina/clients/python/request.py:71-73 | Yields exactly what `Generate` yields, error included. |
| `ClientRequest.Train` | jina/clients/python/request.py:62-68 | On success, yields `Generate`'s requests followed by exactly one flush request: id 1, `train.flush` set, no documents. On failure, yields the failure and no flush request. |
| `ClientRequest.NewDocumentPayload` | jina/clients/python/request.py:35-51 | A document gets the given id and weight 1.0. PROTOBUF keeps the record's content and other fields. DATA_URI and FILE_PATH store the string unchanged in the field of that name. BUFFER stores bytes unchanged, and stores a string as exactly its UTF-8 encoding, which decodes back to it. |
| `ClientRequest.DocIdChoice` | jina/clients/python/request.py:50 | With sequential ids the document at run position `k` gets `first_doc_id + k`, whatever the random draws. With random ids it gets a value in `0..2^32-1`. |
| `ClientRequest.HeaderFields` | jina/clients/python/request.py:25-32 | A fresh request carries the request id and no documents in any list. `top_k` is set in search mode and keeps its default otherwise. The flush flag is not set. |
| `ClientRequest.FlushRequestFields` | jina/clients/python/request.py:65-67 | The flush request has id 1, `train.flush` set, no documents and the default `top_k`. |
| `ClientRequest.EmittedDocuments` | jina/clients/python/request.py:34-52 | The documents of all requests, read in emission order, are the documents built for the input items in input order. Each is numbered by its position in the whole run, so batch boundaries leave no trace. |
| `ClientRequest.SequentialDocIds` | jina/clients/python/request.py:50-52 | With sequential ids there is one emitted document per input item, and the `k`-th one carries `firstDocId + k`, across batch boundaries. |
| `ClientRequest.RandomDocIdsInRange` | jina/clients/python/request.py:50 | With random ids, every emitted `doc_id` lies in `0..2^32-1`, both bounds included. |
| `ClientRequest.EmittedPayloads` | jina/clients/python/request.py:36-51 | For the `k`-th emitted document and the `k`-th input item, the document's weight is 1.0. PROTOBUF copies the record's content and remaining fields. DATA_URI and FILE_PATH store the string unchanged in the field of that name. BUFFER stores bytes unchanged, and stores a string as its UTF-8 encoding, which decodes back to the string. |
| `ClientRequest.RequestFields` | jina/clients/python/request.py:25-35 | Request `i` carries id `firstRequestId + i`. Its mode's list holds one document per item of batch `i`, and the other modes' lists are empty. `search.top_k` equals `top_k` in search mode and keeps its default otherwise. No request of the run is a flush request. |
| `ClientRequest.GeneratedUnique` | jina/clients/python/request.py:15-54 | Two runs over the same batches and settings yield the same outcome. The random draws must agree only when ids are random; with sequential ids the outcome does not depend on them. |
| `ClientRequest.TrainGeneratedUnique` | jina/clients/python/request.py:62-68 | The same holds for training runs, flush request included. |
| `ClientRequest.EmptyRun` | jina/clients/python/request.py:24-32 | With no batches, nothing fails and nothing is yielded, even when `top_k` is invalid. |
| `ClientRequest.EmptyTrainRun` | jina/clients/python/request.py:62-68 | With no batches, a training run yields the flush request alone. |
| `ClientRequest.ChunksAccepted` | jina/clients/python/request.py:24 | Cutting items that all fit the input type into batches gives batches whose items all fit it. |
| `ClientRequest.ChunkedRun` | jina/clients/python/request.py:24-53 | For items that fit the input type, cut by `Chunks`: with a positive batch size, the request count is the ceiling of the item count divided by the batch size. With batch size `<= 0` there is one request, or none for empty input. The documents follow the input items in order. |
| `ClientRequest.FiveStringsChunked` | jina/clients/python/request.py:24 | Five strings in groups of two make two pairs and a single. |
| `ClientRequest.FiveStringsInTwos` | jina/clients/python/request.py:24-54 | Those three batches, with the default settings: three requests with ids 0, 1, 2. Their document ids are [0, 1], [2, 3] and [4]. |
| `ClientRequest.BatchDocIds` | jina/clients/python/request.py:50-52 | With sequential ids, the documents of a batch starting at run position `offset` carry consecutive ids from `first_doc_id + offset`. |
| `ClientRequest.CUInt` | jina/clients/python/request.py:50 | A C `unsigned int` built from `x` holds a value in `0..2^32-1` that is congruent to `x` modulo 2^32. `c_uint(-1).value` is therefore 2^32-1. |
| `ClientRequest.RandInt` | jina/clients/python/request.py:50 | A draw of `randint(lo, hi)` lies between `lo` and `hi`, both included. |
| `ClientRequest.RandIntCovers` | jina/clients/python/request.py:50 | Every value of `lo..hi` is some draw of the model, so the entropy model excludes no id. |
| `Proto.WithDocs` | jina/clients/python/request.py:35 | Selecting the document list by mode name replaces that mode's list only. The other lists, the request id, the flush flag and `top_k` are unchanged. |
| `Batching.Chunks` | jina/clients/python/request.py:24 | The batches, concatenated, are the input: nothing is dropped, duplicated or reordered. This is the grouping assumed for `batch_iterator`. |
| `Batching.ChunkSizes` | jina/clients/python/request.py:24 | No batch is empty. With a positive batch size, every batch but the last holds exactly that many items and the last at most that many. Otherwise the whole input is one batch, or there is none for empty input. |
| `Batching.ChunkCount` | jina/clients/python/request.py:24 | With a positive batch size, the number of batches is the least count whose batches can hold every item. |
| `Utf8.EncodeChar` | jina/clients/python/request.py:43-44 | One character becomes 1 to 4 bytes, a single byte exactly for ASCII. The lead byte announces the length, and the other bytes are continuation bytes. |
| `Utf8.DecodeEncode` | jina/clients/python/request.py:43-44 | Decoding the encoding of a string gives the string back: the auto-encoding of text items is lossless. |
| `Utf8.EncodeAppend` | jina/clients/python/request.py:43-44 | The encoding of a concatenation is the concatenation of the encodings. |
| `Utf8.EncodeAscii` | jina/clients/python/request.py:43-44 | An ASCII string is encoded as its own character codes, one byte per character. |

## Left out

- The batching helper `batch_iterator` (`jina/helper.py`) is not part of this model. `Generate` takes the batches it yields, whatever they are. `Chunks` states only the grouping this model assumes for it, not the helper's code.
- The MIME-type warning (`request.py:46-49`) is logging and is not modelled. It fires once per BUFFER document when no MIME type is given, not once per run. The `mime_type` argument is used only for this warning, so it is left out too.
- Parsing a mode given as a string (`request.py:21-22`) calls an enum helper that is not part of this model. The mode is taken as a `ClientMode` value.
- RandInt: states the range of a draw, not that draws are uniform. The process-wide random generator is replaced by the `entropy` oracle.
- CUInt: assumes the platform's C `unsigned int` has 32 bits.
- The protobuf schema and wire encoding are not modelled. `doc_id`, `request_id` and `top_k` are unbounded integers, so any range check the generated message classes apply on assignment is not captured. `weight` is a real that is only ever 1.0.
- A document's fields other than `doc_id`, `weight` and the payload are one opaque `meta` value. Deep copy and aliasing (`CopyFrom`) do not arise between immutable values.
- The requires clauses of `Generate`, `Index`, `Search` and `Train` exclude items whose shape does not fit the input type. An example is a string item under PROTOBUF, or bytes under DATA_URI. In Python these cases are decided by the protobuf runtime, which is not part of this model.
- Generator laziness is not modelled. The output is returned whole, and a caller stopping early is not captured. On failure the model returns the requests yielded before the error; with a constant `top_k` there are none.
- Utf8.Decode: accepts overlong byte sequences. It serves only to show that `Encode` is lossless, not as a validating decoder. Python strings that hold lone surrogates, which `str.encode()` rejects, cannot occur because Dafny characters are Unicode scalar values.
