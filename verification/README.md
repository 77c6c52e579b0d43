# Model of the inference engine's hard parts

A Dafny 4.11 model of five parts of the repository, with proofs.

- **DeepSeek V4 decode engine** (`src/model/dsv4.cpp`). `Dsv4Net` is the forward pass as pure functions over
  uninterpreted kernels; `Dsv4Slot` is the slot updated in place. Layer-major prefill windows are proved equal to
  token-major decode steps. `CkptPolicy` and `Dsv4Ckpt` are the prefix-checkpoint cache, first as a policy over runs and
  then as engine fields; it is proved invisible to results. `CkptBlob` is its file form, and `Dsv4Files` joins the two.
  `Dsv4Decode`, `Dsv4Draft` and `Dsv4Generate` are generation, speculative drafting and the incremental interface;
  `Dsv4Moe` is the grouped expert layer. `Dsv4Meaning` says what a request means in terms of the kernels and the
  callbacks alone. `Dsv4Examples` holds inputs at which the engine does less than one might
  expect.
- **Paged KV cache and continuous batching** (`src/legacy/llama_main.cpp`, `src/legacy/llama_dims.hpp`). `PagedKv` proves
  that blocks, table and free list store one list of rows per slot and layer; `Batching` proves that the scheduling loop
  ends, is first in first out, and gives every accepted prompt the tokens it would get alone; `BatchMeaning` says which
  these are in terms of the kernels.
- **Split and reassociated computations** (`src/gpu/dsv4_cuda.cpp`, `src/gpu/coli_cuda.cpp`, `src/gpu/metal_ops.cpp`).
  `Mla` and `MlaHost` prove that absorbed and unabsorbed latent attention agree; `Fp4`, `TpAttention` and `EpMoe` prove
  that sharded FP4 experts, two-rank attention and expert-parallel routing equal the one-rank computation. `MlaMeaning`,
  `TpMeaning`, `ExpertMeaning` and `RoutedMeaning` prove that on buffers in the documented layout all of them compute
  textbook attention and textbook experts.
- **JPEG entropy decoding** (`src/io/image.cpp`). `JpegBits`, `JpegHuffman`, `JpegBlock` and `JpegScan` write the coding of
  ITU-T T.81 (Annex C, sections F.1.2 and F.2.2) as functions and prove that the decoder inverts it.
- **Int4 quantisation and direct reads** (`python/convert_glm53.py`, `src/io/file_io.cpp`). `Int4` bounds the error of the
  quantiser and its dequantiser; `DirectRead` proves that short, interrupted and aligned reads are exact.

Code that works in place is modelled by classes and loops that are proved against pure specification functions; the
lemmas then speak about those functions, and the modules whose names end in `Meaning` say what they compute without
calling them. Floating-point values are reals. `Results`, `Arith`, `Bytes`, `Buffers`, `RealSum`, `Textbook` and
`Softmax` hold what several parts share.

## What the proofs rely on

- The kernels (embedding, projections, attention, experts, sampling, grammar masks, text) are functions of what the
  source passes to them, and every theorem holds for all such functions.
- DSV4: two-rank mode is off. A slot's rows beyond its position may hold anything. Checkpoints read from disk are
  assumed to hold the cold state of their ids. `Dsv4Files.ReadDirectory` proves that of files which an engine with these
  sizes and kernels wrote; the fingerprint in the file covers the sizes only (`Dsv4Files.OtherWeights`).
- Batching: the prompt limit is below the sequence limit, and there is a physical block for every table entry. The
  program does not check either.
- JPEG: blocks and scans use legal Huffman tables (at most 256 codes, and every code fits its length); reading one code
  is proved for all tables. Scans have DC categories up to 25, the most bits that one read always delivers.
- Sharded attention equals one rank when the sinks the second rank counts to are its own
  (`TpAttention.SinksAgreeWhen`), and for all weights with the given sinks only then (`TpAttention.ProbeDecides`).
  Sharded experts equal the whole one exactly when the half width is a multiple of 32 (`Fp4.HalvesAddWhen`).
- Direct reads: memory reaches down to where a negative window writes.

## Where the code is weaker than one might expect

Each line names the exact condition and a member with an input at which the code fails.

- `generate` runs one forward pass more than the incremental interface when the token limit ends a request, so it can
  fail where the calls do not: `Dsv4Decode.DrainIsPlain`, `Dsv4Examples.LastPassFails`. With a store that never fails
  they agree: `Dsv4Decode.ServedAgree`.
- Forward drafts of two or more tokens are confirmed by the head that made them and may change the output of requests
  of two or more tokens: `Dsv4Draft.DraftedIsPlain`, `Dsv4Examples.ForwardDraftsDiffer` for all such depths and lengths.
- A `next_token` call after the end of a request feeds its token in place of the first unfed one:
  `Dsv4Generate.FaithfulWhen`, `Dsv4Examples.CallsAfterTheEnd`.
- A request that fails inside a prefill window leaves the old history with a position of the failed window, and the
  next request may reuse rows that are not those of its prompt: `Dsv4Generate.ReusableWhen`,
  `Dsv4Examples.FailedWindowIsReused`. After a failed `next_token` the condition is the one in
  `Dsv4Generate.NextToken`.
- An expert set loaded by packed index finds a wrong expert for every number that is an index of the set, except the
  first: `EpMoe.PackedWhen`.
- A checkpoint of an engine with other weights and the same sizes is accepted: `Dsv4Files.OtherWeights`.
- A checkpoint with an array over the reader's limits is written but not read back: `CkptBlob.WriteAndRead`,
  `CkptBlob.LongBlobIsLost`.
- With `max_new_tokens` below 2 the batching loop can end with live slots, whose answers are complete:
  `Batching.Server.Serve`, `Batching.LeaveWhen`, `Batching.OneTokenEach`.
- Fewer sinks than heads can make two-rank attention differ from one rank: `TpAttention.SinksAgreeWhen`,
  `TpAttention.ProbeDecides`, `TpAttention.CompareRanks`.
- At even half widths that are no multiple of 32 the two halves of an expert do not add up, and the scales may be read
  past their end: `Fp4.HalvesAddWhen`, `Fp4.HalvesDiffer`, `Fp4.ScaleStretchesFit`.
- A direct read whose page starts beyond the end of the file writes before the scratch buffer:
  `DirectRead.WholePagesOnly`, `DirectRead.PageBeyondFile`.
- A DC difference of 26 bits and more may lose its leading bits: `JpegBits.ReceivedWhen`, `JpegBits.ShiftInWhen`.

## Model

| member | source | states |
|---|---|---|
| Dsv4Net.WindowIsSteps | src/model/dsv4.cpp:1914-1984 | a layer-major prefill window of any length leaves the same rows in every layer, the same streams, position and success as that many token-major decode steps |
| Dsv4Net.Interchange | src/model/dsv4.cpp:1931-1977 | the loop interchange behind it: all layers for the first token and then the rest of the window equals the whole window layer by layer |
| Dsv4Net.FeedAppend | src/model/dsv4.cpp:1986-2000 | feeding a + b is feeding a and then b, with the failure of either: any split of a prompt into windows gives one state |
| Dsv4Net.FeedGrows | src/model/dsv4.cpp:1476-1519 | feeding never changes a row already cached, and leaves one row per position in every layer |
| Dsv4Net.ColdPrefix | src/model/dsv4.cpp:1986-2000 | causality: after a cold prefill of a prompt the first k rows of every layer are those of the first k tokens alone, and the rest continues from that state |
| Dsv4Slot.Slot.Alloc | src/model/dsv4.cpp:1388-1416 | the slot means the empty state, has room in every layer, and its request fields are cleared |
| Dsv4Slot.Slot.EnsureT | src/model/dsv4.cpp:1418-1442 | buffers grow to the wanted capacity and every row already there is kept |
| Dsv4Slot.AttnOne | src/model/dsv4.cpp:1176-1375 | writes only the row of its own position and attends over rows 0 to that position only, so rows beyond it cannot matter |
| Dsv4Slot.ChooseRows | src/model/dsv4.cpp:1233-1283 | in place, with anything beyond the position, the candidates are those of the specification, which Dsv4Net.WindowRows ties to the window |
| Dsv4Slot.GatherRows | src/model/dsv4.cpp:1302-1312 | the values attended over are those of the candidates inside 0 to the position, in candidate order |
| Dsv4Slot.LayerAt | src/model/dsv4.cpp:1482-1515 | one layer in place computes the layer function of the rows below the position, both with official hyper-connections and without |
| Dsv4Slot.StepLayers | src/model/dsv4.cpp:1481-1515 | the layer loop of a decode step, in place on buffers with stale rows, computes the token-major pass; it fails exactly when a kernel fails |
| Dsv4Slot.WindowLayer | src/model/dsv4.cpp:1932-1976 | the inner loop of a window is one layer over the tokens in order; on failure it reports the position reached |
| Dsv4Slot.WindowLayers | src/model/dsv4.cpp:1931-1977 | the two nested loops of a window compute the layer-major pass |
| Dsv4Slot.Slot.Step | src/model/dsv4.cpp:1476-1519 | the new state of the slot is one step of the forward pass, and the pooled hidden state is refreshed; a step that fails keeps position and rows and leaves the streams of the layer that failed |
| Dsv4Slot.Slot.PrefillWindow | src/model/dsv4.cpp:1914-1984 | the state after a window is that of feeding its tokens one by one; on an error the rows below are kept, and position and streams are those of the first token that fails in the first layer that fails |
| Dsv4Slot.Slot.Prefill | src/model/dsv4.cpp:1986-2000 | the state does not depend on the window length: for every chunk size it is the state of feeding the remaining tokens; on an error it stops where the first failing window does |
| Dsv4Net.WindowRows | src/model/dsv4.cpp:1275-1283 | without an indexer the candidates are exactly the last rows of the sliding window, or all rows without a window, each once and in increasing order |
| Dsv4Net.WindowValues | src/model/dsv4.cpp:1275-1312 | so attention sees exactly the values of the last window rows, in order |
| Dsv4Net.FarRowsIgnored | src/model/dsv4.cpp:1275-1312 | a row further back than the window cannot change what the layer does |
| Dsv4Net.LayerPasses | src/model/dsv4.cpp:1482-1515 | one layer stated in the kernels alone: which input attention gets, which row is cached, which rows are seen, and how streams go on, with official hyper-connections and without; it fails exactly when the feed-forward kernel does |
| Dsv4Net.StepRuns | src/model/dsv4.cpp:1476-1519 | a step is that for every layer in order, from the embedding of the token to the streams after the last layer |
| CkptPolicy.LongestIsLongest | src/model/dsv4.cpp:2138-2161 | a lookup misses only when no stored ids are a long enough prefix of the prompt, and otherwise finds a longest one |
| CkptPolicy.OldestIsOldest | src/model/dsv4.cpp:2184-2204 | the scan over one class finds an entry with the smallest tick of that class, or none exists |
| CkptPolicy.VictimIsOldest | src/model/dsv4.cpp:2184-2204 | a prefix entry is the victim only when there is no prompt-end entry, and the victim has the smallest tick of its class |
| CkptPolicy.RunKeeps | src/model/dsv4.cpp:2138-2209 | over every run of lookups and insertions: at most cap entries, no ids twice, and each tick is the time of the last use of its entry |
| CkptPolicy.TicksAreDistinct | src/model/dsv4.cpp:2138-2209 | ticks are distinct and do not exceed the clock in every reachable cache |
| CkptPolicy.InsertedSurvives | src/model/dsv4.cpp:2163-2209 | an inserted entry is stored afterwards with its contents and the newest tick |
| CkptPolicy.InsertedClass | src/model/dsv4.cpp:2163-2183 | the entry of the inserted ids counts as the end of a prompt exactly when the inserted one does and no stored one with these ids is a mere prefix |
| CkptPolicy.GoneMeansEvicted | src/model/dsv4.cpp:2163-2209 | only inserting new ids into a full cache removes an entry, only the victim goes, and the others stay in order |
| CkptPolicy.EvictsLeastRecentlyUsed | src/model/dsv4.cpp:2163-2209 | at any point of any run the entry removed was last used before every other entry of its class, and is a prefix entry only if no prompt-end entry was stored |
| Dsv4Ckpt.ColdShape | src/model/dsv4.cpp:2060-2091 | a cold state has one row per position in every layer and streams of the slot width, so a snapshot is rectangular |
| Dsv4Ckpt.TouchKeepsSound | src/model/dsv4.cpp:2138-2161 | a lookup keeps every entry the cold state of its ids |
| Dsv4Ckpt.InsertKeepsSound | src/model/dsv4.cpp:2163-2209 | an insertion with its evictions keeps every entry the cold state of its ids |
| Dsv4Ckpt.Engine.Lookup | src/model/dsv4.cpp:2138-2161 | the in-place scan returns the longest match, refreshes its tick, counts the hit, and changes nothing else |
| Dsv4Ckpt.Engine.PickVictim | src/model/dsv4.cpp:2184-2204 | the two scans pick the victim of the policy |
| Dsv4Ckpt.Engine.Insert | src/model/dsv4.cpp:2163-2209 | the cache becomes the policy's cache after an insertion: refresh in place, or evict down to the cap and append |
| Dsv4Ckpt.CloneRows | src/model/dsv4.cpp:2060-2091 | the snapshot holds the first n rows of every layer |
| Dsv4Ckpt.CopyRows | src/model/dsv4.cpp:2093-2136 | after restoring, the first n rows of every layer are the saved ones and buffer lengths are unchanged |
| Dsv4Ckpt.Engine.Store | src/model/dsv4.cpp:2211-2232 | an enabled cache gets the snapshot of the first \|ids\| rows, when there are that many and at least the minimum, and nothing otherwise; a sound cache stays sound when nothing is stored or the slot holds the cold state of the ids |
| Dsv4Ckpt.Engine.LoadDisk | src/model/dsv4.cpp:2356-2381 | every readable entry of the directory is inserted in order, once; when those are cold states of their ids, the cache stays sound |
| Dsv4Ckpt.LoadKeepsSound | src/model/dsv4.cpp:2356-2381 | inserting any sequence of sound entries, with its evictions, keeps every entry the cold state of its ids |
| Dsv4Ckpt.Engine.ApplyTo | src/model/dsv4.cpp:2093-2136 | applying a sound entry leaves the slot in the cold state of its ids, with room to go on |
| Dsv4Ckpt.Engine.CapturePoint | src/model/dsv4.cpp:2038-2058 | the capture point is the gateway prefix when that reaches the minimum, else the longest common prefix with the last fresh prompt when that does, else 0; it never lies beyond the prompt |
| Dsv4Ckpt.CaptureMeaning | src/model/dsv4.cpp:2038-2058 | the capture point for every input: a declared prefix of the minimum length, cut to the prompt; or else the most that prompt and last fresh prompt share, when that is long enough; or else 0 |
| Dsv4Ckpt.Engine.FindHit | src/model/dsv4.cpp:2386-2389 | a hit is a sound entry whose ids are a longest stored prefix of the prompt of the minimum length, and there is a hit whenever one is stored |
| Dsv4Ckpt.Engine.Restore | src/model/dsv4.cpp:2385-2401 | after loading the directory, the slot holds the cold state of the longest prefix of the prompt that it held itself or that the cache stores: a longer hit is always used; the cache is the one after that lookup |
| Dsv4Ckpt.Engine.Advance | src/model/dsv4.cpp:2403-2418 | prefilling part of the prompt moves the slot from the cold state of one prefix to that of a longer one |
| Dsv4Ckpt.Engine.Capture | src/model/dsv4.cpp:2405-2418 | prefills to the capture point when it lies ahead, stores the cold state there and nothing else, and leaves the slot in the cold state of a prefix |
| Dsv4Ckpt.Engine.RunPrefill | src/model/dsv4.cpp:2383-2424 | the cache is invisible in results and used wherever it can be: success and final state are those of a cold prefill of the whole prompt; the reused length is the longest of the slot's own and of all stored prefixes, the directory included; on success the cache is exactly the one after the lookup, the capture and the store of the whole prompt, and a prompt without reuse of the slot becomes the last fresh one; after a failure the rows of the reused part are still there |
| Dsv4Ckpt.Engine.PrefillExtension | src/model/dsv4.cpp:2383-2424 | two requests: once a long enough prompt is prefilled, a prompt that extends it, on an empty slot, takes at least all of it from the cache |
| CkptBlob.WriteBlob | src/model/dsv4.cpp:2234-2276 | the bytes written are the file form of the checkpoint |
| CkptBlob.OneFile | src/model/dsv4.cpp:2234-2276 | one file with every kind of field, byte by byte: magic, fingerprint, counts and arrays in their order, little-endian |
| CkptBlob.Reader.ReadBlob | src/model/dsv4.cpp:2278-2325 | a written file is read back exactly when the model agrees and every array is within the reader's limits (2^24 tokens and stream words, 2^26 words per layer array); then the checkpoint is the one written, a non-positive position becoming the token count |
| CkptBlob.Reader.TakeVec | src/model/dsv4.cpp:2303-2309 | a counted array is read back exactly when it is within the limit |
| CkptBlob.WordsRoundTrip | src/model/dsv4.cpp:2278-2325 | 32-bit words survive writing and reading |
| CkptBlob.WriteAndRead | src/model/dsv4.cpp:2234-2325 | writing and then reading gives the checkpoint back exactly when the models are equal and every array is within the limits |
| CkptBlob.LongBlobIsLost | src/model/dsv4.cpp:2234-2325 | a checkpoint of 2^24 + 1 tokens is written and not read back |
| Dsv4Files.EntryBack | src/model/dsv4.cpp:2060-2136 | the flat arrays of a snapshot, cut into rows again, are the snapshot |
| Dsv4Files.SoundFits | src/model/dsv4.cpp:2060-2091 | every sound entry has the sizes its file needs |
| Dsv4Files.ReadDirectory | src/model/dsv4.cpp:2356-2381 | a directory of files that an engine of this geometry and these kernels wrote for sound entries is read as exactly those within the limits, and all of them are sound |
| Dsv4Files.PrefillFromFiles | src/model/dsv4.cpp:2356-2424 | a prefill that loads such a directory has the success and the final state of a cold one |
| Dsv4Files.OtherWeights | src/model/dsv4.cpp:2019-2030 | two engines of one geometry, hence of one fingerprint: the second reads a file of the first without complaint, and the entry is not the cold state of its ids there |
| Dsv4Decode.PlainTokens | src/model/dsv4.cpp:443-513 | plain generation gives at most max_new_tokens tokens, and the history grows by exactly the tokens |
| Dsv4Decode.NextIsIter | src/model/dsv4.cpp:676-716 | one next_token call is one iteration of generation, except that a call that reaches the token limit skips the forward pass |
| Dsv4Decode.DrainIsPlain | src/model/dsv4.cpp:676-716 | repeated next_token calls give exactly the tokens, history, random state and log-probabilities of plain generation; generation succeeds exactly when the calls do and the one extra forward pass does |
| Dsv4Decode.ServedAgree | src/model/dsv4.cpp:676-716 | with an expert store that never fails, generation and the calls both succeed and agree on all tokens |
| Dsv4Examples.LastPassFails | src/model/dsv4.cpp:503-509 | a network and a request of one token for which the calls succeed and generation fails |
| Dsv4Decode.OrderDoesNotMatter | src/model/dsv4.cpp:718-784 | calls on distinct slots in any order leave every slot with its own next state |
| Dsv4Meaning.StartMasked | src/model/dsv4.cpp:391-404 | generation starts under the grammar's mask for no text exactly when the grammar is ready and tokens can be rendered, and without a mask otherwise |
| Dsv4Meaning.IterMasked | src/model/dsv4.cpp:405-509 | after every iteration that goes on the mask is the grammar's for the texts of all tokens behind the prompt, or there is none |
| Dsv4Meaning.NextMasked | src/model/dsv4.cpp:676-716 | the same after every next_token call |
| Dsv4Meaning.DraftIterMasked | src/model/dsv4.cpp:468-509 | the same after every turn with a draft, whose tokens are all shown to the grammar |
| Dsv4Meaning.IterChooses | src/model/dsv4.cpp:483-509 | one iteration in terms of kernels and callbacks: the token is the sampler's on the cold state of all tokens before it, their list, the random state and the mask; it ends the request exactly for a stop id or a stop string in the text so far, and is fed otherwise |
| Dsv4Meaning.RequestMeaning | src/model/dsv4.cpp:443-513 | a whole plain request: tokens chosen one after the other up to the first that ends it or the limit; it succeeds exactly when every token that does not end it can be fed |
| Dsv4Meaning.TurnMeaning | src/model/dsv4.cpp:443-509 | a turn with drafting: one token is sampled; exactly when the forward head's draft begins with it the turn goes on with the draft; it ends at the first token that ends the request, and otherwise all its tokens are fed |
| Dsv4Meaning.DraftedEnds | src/model/dsv4.cpp:443-513 | a whole request with drafts of any mode stops exactly at its first token that ends it, and gives fewer tokens than asked for only then |
| Dsv4Draft.BigramNext | src/model/dsv4.cpp:422-440 | the proposal is a most frequent successor of the token in the history, and -1 exactly when it has none |
| Dsv4Draft.FollowsCounts | src/model/dsv4.cpp:430-433 | the count behind it is the number of places where the candidate follows the token |
| Dsv4Draft.BigramIsBest | src/model/dsv4.cpp:422-440 | the proposal is the most frequent successor that stands first among equally frequent ones, and -1 exactly when there is no successor |
| Dsv4Draft.Propose | src/model/dsv4.cpp:444-467 | the draft is the chain of suggestions of its mode, each made from the one before and its hidden state, up to the first negative one, the depth and the remaining budget |
| Dsv4Draft.DraftLinked | src/model/dsv4.cpp:444-467 | link by link: each draft token is what its mode proposes for the token before it, with the hidden state of the forward head handed on, and the draft is shorter than depth and budget only where the next proposal is refused |
| Dsv4Draft.VerifyTail | src/model/dsv4.cpp:1889-1911 | at least the first token is confirmed, and all of a draft that the forward head itself chained from the same hidden state and token |
| Dsv4Draft.DraftedIsPlain | src/model/dsv4.cpp:443-513 | generation with bigram or Markov drafts of any depth, forward drafts of depth at most 1, or any drafts for at most one token, equals plain generation in everything |
| Dsv4Examples.ForwardDraftsDiffer | src/model/dsv4.cpp:443-513 | in every other case, forward drafts of depth two or more and requests of two or more tokens, there are a network and a forward head whose output differs from plain generation, so the condition is exact |
| Dsv4Draft.DraftedTokens | src/model/dsv4.cpp:443-513 | generation with drafts of any mode gives at most max_new_tokens tokens, and the history grows by exactly the tokens |
| Dsv4Generate.Turn | src/model/dsv4.cpp:443-512 | one iteration emits the sampled token, or the draft when its first token is the sampled one, up to the first stop, and feeds exactly what it emitted; the draft counts as a whole with the forward head and as one token otherwise |
| Dsv4Generate.FaithfulTurn | src/model/dsv4.cpp:443-512 | in every mode the rows stay those of the history, and all of it is fed unless the turn stopped |
| Dsv4Generate.Loop | src/model/dsv4.cpp:443-513 | the loop ends and computes generation with drafting in tokens, stop, random state, history, log-probabilities and cache; that is plain generation unless forward drafts and the request both have two or more tokens; it emits at most max_new_tokens and keeps the rows those of the history |
| Dsv4Generate.KvReuse | src/model/dsv4.cpp:370-381 | the reused length is the position of the slot, when it is filled, within the prompt, the shared history and the request's limit, and otherwise 0; of a reusable slot it is one at which the slot holds the cold state of the prompt's prefix |
| Dsv4Generate.ReuseWhen | src/model/dsv4.cpp:370-381 | the reused length is the whole position of the slot exactly when it is filled, the limit allows it and that much of its history begins the prompt, and 0 otherwise |
| Dsv4Generate.ReusableWhen | src/model/dsv4.cpp:370-381 | what is reused is right for every prompt exactly when a slot that counts as filled, with its position inside its history, holds the cold state of that part of the history |
| Dsv4Generate.Generate | src/model/dsv4.cpp:353-527 | a whole request gives the tokens of a cold prefill followed by generation with drafting, in every mode and whatever slot and cache it runs with, which is plain generation unless forward drafts and the request both have two or more tokens; the stop flag is set by a stop string and not by a stop id; the token bound, the history and the slot's promise for reuse hold; a request that fails without having reused anything leaves a slot that is not taken for filled; the reused length is the longest of what the slot and the cache hold of the prompt |
| Dsv4Meaning.Answer | src/model/dsv4.cpp:353-527 | the same request without its specification functions: whatever slot and cache it runs with and however it drafts, its tokens go up to the first that ends it, and except with forward drafts of two or more tokens they are chosen one after the other on the cold state of those before |
| Dsv4Generate.Prepare | src/model/dsv4.cpp:370-386 | reuse and prefill together succeed exactly when the cold prefill does, with its state; a failure leaves the history of before or of the entry, the rows of the reused part, and the position of the failed window; the reused length is the longest of what the slot and the cache hold of the prompt |
| Dsv4Generate.BeginGenerate | src/model/dsv4.cpp:625-674 | succeeds exactly when the prompt is not empty and its cold prefill succeeds, and leaves the slot live at the start state of generation, with its whole history fed; a failure is described as by Prepare; the reused length is the longest of what the slot and the cache hold of the prompt |
| Dsv4Examples.FailedWindowIsReused | src/model/dsv4.cpp:1936-1967 | a request that fails at the second token of a window leaves a slot whose position lies inside its old history, and the next request reuses rows that are not those of its prompt |
| Dsv4Generate.NextToken | src/model/dsv4.cpp:676-716 | on a live slot the call is the next step of the one-token interface in token, end flag, error and new slot state; otherwise it changes nothing; a slot whose history is fed stays so until the end and stays reusable; after a failed forward pass it is reusable exactly when the streams are those of before |
| Dsv4Generate.NextFaithful | src/model/dsv4.cpp:676-716 | a call from a fed history keeps the rows those of the history, and feeds it all again unless the request is done |
| Dsv4Generate.FaithfulWhen | src/model/dsv4.cpp:676-716 | a call from any state whose rows are those of the history keeps them so exactly when it reports the end, or no token is unfed, or its token leads to the same state as the first unfed one; only a call that reports the end adds an unfed token |
| Dsv4Examples.CallsAfterTheEnd | src/model/dsv4.cpp:676-716 | a request that two calls end in a row, which leaves two tokens unfed, and a further call that succeeds and leaves rows that are not those of the history |
| Dsv4Generate.GenerateByCalls | src/model/dsv4.cpp:625-716 | begin_generate and next_token until the end give the tokens of plain generation, succeed whenever it does, and leave the slot reusable by the next request |
| Dsv4Generate.HalfwayToFinal | src/model/dsv4.cpp:718-784 | sampling on all slots first and stepping later gives each slot what sampling and stepping together give |
| Dsv4Generate.NextTokens | src/model/dsv4.cpp:718-784 | one call for several distinct live slots gives each exactly the token, end flag and state of its own next_token call, and the same promise for reuse |
| Dsv4Moe.UnionIds | src/model/ops.cpp:1082-1099 | the result is the distinct filled ids in increasing order, cut after the cap smallest |
| Dsv4Moe.CompleteWhen | src/model/ops.cpp:1082-1099 | no filled id is missing exactly when there are at most cap distinct ones |
| Dsv4Moe.RoomForAll | src/model/dsv4.cpp:3100-3101 | with a cap of the number of experts the union of any choices is complete |
| Dsv4Moe.GroupedIsPerToken | src/model/dsv4.cpp:3107-3150 | the weighted sum over distinct experts equals the sum over a token's own choices, repeated ids included |
| Dsv4Moe.OneMoreChoice | src/model/dsv4.cpp:3122-3127 | one more choice adds its weighted expert exactly once, wherever the expert stands in the union |
| Dsv4Moe.Gather | src/model/dsv4.cpp:3121-3134 | the gathered rows are the tokens with a nonzero summed weight, in order, with those weights |
| Dsv4Moe.Scatter | src/model/dsv4.cpp:3135-3145 | each gathered token gets its weighted expert row added, every other token is unchanged |
| Dsv4Moe.OneExpert | src/model/dsv4.cpp:3121-3145 | after one expert of the union every token holds the sum over the experts so far |
| Dsv4Moe.RunUnion | src/model/dsv4.cpp:3109-3151 | succeeds exactly when every expert can be looked up and prefetched; on every path pinned views are released and no prefetch is outstanding |
| Dsv4Moe.MoeLayer | src/model/dsv4.cpp:3100-3172 | every token of the batch gets its own weighted expert sum, scaled, and the shared expert once; it succeeds exactly when the store serves every expert that some token chose |
| Dsv4Moe.MixedMeaning | src/model/dsv4.cpp:3100-3172 | what a token gets, choice by choice: the old value, the scaled sum of its weighted experts with data, and the shared expert |
| Dsv4Moe.ServedWhen | src/model/dsv4.cpp:3109-3151 | the store serves the union exactly when every chosen expert can be looked up and, when prefetching, every one but the smallest can be prefetched |
| PagedKv.IndexInjective | src/legacy/llama_dims.hpp:76-78 | no two (slot, layer, logical block) places share a table entry |
| PagedKv.IndexInRange | src/legacy/llama_dims.hpp:68-78 | every place indexes inside the block table |
| PagedKv.IndexOnto | src/legacy/llama_dims.hpp:68-78 | every table entry belongs to some place |
| PagedKv.EntryUnique | src/legacy/llama_main.cpp:163-179 | a table entry that is not -1 is a block number held by no other entry and not free |
| PagedKv.FreeNotEmpty | src/legacy/llama_main.cpp:425-431 | with a block for every table entry, an unused entry means the free list is not empty when it is popped |
| PagedKv.TakeConserves | src/legacy/llama_main.cpp:427-430 | popping a block into an unused entry keeps each block held exactly once |
| PagedKv.GiveConserves | src/legacy/llama_main.cpp:171-175 | returning a block keeps each block held exactly once |
| PagedKv.ReadWritten | src/legacy/llama_main.cpp:437-446 | copying rows into a block changes exactly those K and V rows |
| PagedKv.AppendPlace | src/legacy/llama_main.cpp:1221-1231 | a block is missing exactly when the offset in the block is 0, and then one is free: prefill's test of the entry and decode's test of the offset agree |
| PagedKv.AppendKeeps | src/legacy/llama_main.cpp:411-448 | appending rows of one slot and layer keeps the pool a faithful store of the lists of all slots and layers |
| PagedKv.AppendChunk | src/legacy/llama_main.cpp:1215-1239 | the code for one chunk, with either test, appends exactly the rows to the list of its slot and layer |
| PagedKv.PrefillLayer | src/legacy/llama_main.cpp:411-448 | scattering a prompt into fresh blocks appends all its rows in order |
| PagedKv.ReleaseSlot | src/legacy/llama_main.cpp:163-179 | releasing a slot empties its lists, keeps all other lists, and returns each of its blocks once |
| PagedKv.InitialRefines | src/legacy/llama_main.cpp:163-179 | the initial pool stores empty lists and has every block free |
| PagedKv.AllReturned | src/legacy/llama_main.cpp:163-179 | when no slot holds rows every table entry is -1 and the free list holds every block exactly once |
| PagedKv.GatherIsList | src/legacy/llama_main.cpp:1241-1247 | reading rows 0 to n through the block table gives the K and V lists in token order |
| Batching.DecodedRows | src/legacy/llama_main.cpp:1386-1389 | a decode step adds one row in every layer |
| Batching.AloneLength | src/legacy/llama_main.cpp:1386-1399 | a sequence never gets more than max_new_tokens tokens, but the first one, and only grows |
| Batching.FillLayers | src/legacy/llama_main.cpp:325-700 | after a prefill every layer of the slot lists exactly the prompt's rows and no other list changed |
| Batching.Scatter | src/legacy/llama_main.cpp:1215-1239 | all sequences of the batch get their row of this layer before any attention, each in its own list |
| Batching.Attend | src/legacy/llama_main.cpp:1241-1247 | each sequence attends over its own rows, read through the block table |
| Batching.DepthGrows | src/legacy/llama_main.cpp:1129-1340 | one layer of the batched step is one layer of each sequence's own step |
| BatchMeaning.DeepMeaning | src/legacy/llama_main.cpp:1129-1340 | the layers of one decode step in the kernels alone: the hidden state starts as the embedding of the last token, each layer attends over its rows and the new one, and the new rows are those of the state it got |
| Batching.DecodeLayers | src/legacy/llama_main.cpp:1129-1340 | a batched decode step takes every sequence through the step it would take alone and leaves all other slots alone |
| Batching.WorkDrops | src/legacy/llama_main.cpp:1066-1115 | the number of tokens still to come drops when one slot comes closer to its end and none goes back |
| Batching.PassWork | src/legacy/llama_main.cpp:1066-1400 | a pass that admits nobody leaves strictly less to do |
| Batching.Server.Release | src/legacy/llama_main.cpp:163-179 | a slot is released only with its prompt's answer; its ticket is closed with it |
| Batching.Server.Prefill | src/legacy/llama_main.cpp:298-315 | the next prompt is taken in order; a too long one is dropped and the slot stays free, an empty queue changes nothing |
| Batching.Server.Occupy | src/legacy/llama_main.cpp:315-700 | the slot holds the prompt's rows and its first token, and the prompt has one ticket for this slot |
| Batching.Server.Visit | src/legacy/llama_main.cpp:1070-1104 | what a pass does with one slot: it ends active exactly when it is live and unfinished, or a prompt was taken; below two tokens per prompt the outcome is a function of the lengths of the waiting prompts |
| Batching.Server.AdmitPass | src/legacy/llama_main.cpp:1066-1106 | the slots to decode are exactly the live unfinished ones; if there is none while prompts wait, prompts were taken; below two tokens per prompt nothing is ever decoded and a pass without waiting prompts frees every slot |
| Batching.Server.StepOfSeat | src/legacy/llama_main.cpp:1373-1400 | stopping on the end tokens or at the length limit is where the sequence alone stops; otherwise keeping the token stays on its way |
| Batching.Server.TakeToken | src/legacy/llama_main.cpp:1373-1400 | a slot stops with its answer, or is one token further, or is refilled in the same pass |
| Batching.Server.DecodeStep | src/legacy/llama_main.cpp:1117-1400 | one decode step of the batch keeps the invariant; every decoded slot is freed or one token further unless a prompt was taken |
| Batching.Server.FillSlots | src/legacy/llama_main.cpp:1051-1059 | the first admission takes one prompt per slot in order while prompts wait; a slot stays free exactly when its prompt is too long or none was left |
| Batching.LeaveWhen | src/legacy/llama_main.cpp:1051-1106 | below two tokens per prompt all slots are free at the end for every queue no longer than the batch, and for queues without rejected prompts only then |
| Batching.Server.Serve | src/legacy/llama_main.cpp:1051-1400 | the loop ends for every queue and every stop behaviour; accepted prompts are admitted first in first out, each to one slot, and each gets the tokens it would get alone; with max_new_tokens >= 2 all slots are free at the end and the free list holds every block once; below 2 that is so exactly when the lengths of the queue leave no prompt in a slot (Leaves), the last answers otherwise sitting complete in live slots |
| BatchMeaning.AnswerMeaning | src/legacy/llama_main.cpp:1118-1399 | along a whole answer: the first token is the prefill's; every further one is picked from the last hidden state of a decode step that embeds the token before it and attends over the rows of the prompt and of all earlier steps; it ends at the limit or exactly where a step gives an end token or no row is left |
| BatchMeaning.AcceptedMeaning | src/legacy/llama_main.cpp:298-315 | the accepted prompts are those of the queue that are not too long, in its order |
| Batching.OneTokenEach | src/legacy/llama_main.cpp:1051-1400 | one slot and two prompts of one token each: the loop ends with the slot live |
| JpegBits.UnstuffUndoesStuff | src/io/image.cpp:280-300 | removing stuffed zeros gives back the bytes an encoder stuffed (section F.1.2.3 of ITU-T T.81), followed by whatever follows |
| JpegBits.SegmentBits | src/io/image.cpp:280-311 | a reader at a padded and stuffed segment sees its bits first |
| JpegBits.ShiftIn | src/io/image.cpp:301-307 | shifting a byte into the 32-bit buffer keeps the unread bits and appends the byte's bits; the wrap-around loses none of them |
| JpegBits.ShiftInWhen | src/io/image.cpp:301-307 | that holds for every buffer exactly while at most 24 bits are unread |
| JpegBits.ReceivedWhen | src/io/image.cpp:301-311 | all bits of a read arrive up to 25, and beyond that exactly when the leading bits that leave the buffer are zero |
| JpegBits.BitReader.NextByte | src/io/image.cpp:280-300 | gives the next unstuffed byte, or an error at a marker or the end |
| JpegBits.BitReader.Get | src/io/image.cpp:301-311 | for every length at which the shift is defined it drops exactly the next n bits and gives the value of those that the 32-bit buffer still holds; it fails exactly when fewer than n are left |
| JpegHuffman.CodeForm | src/io/image.cpp:330-344 | the codes of Annex C of ITU-T T.81, symbol by symbol, are the ones numbered upwards from the first code of each length |
| JpegHuffman.FirstGrows | src/io/image.cpp:330-344 | later lengths start beyond all codes of a shorter length |
| JpegHuffman.PrefixFree | src/io/image.cpp:313-328 | in a legal table no bit sequence starts with two codes |
| JpegHuffman.BuildHuff | src/io/image.cpp:330-344 | the table holds first and last code, first symbol index per length and the symbols, with unused lengths unmatchable |
| JpegHuffman.OneMoreBit | src/io/image.cpp:316-327 | testing only the last code of a length suffices: the code is never below the first one |
| JpegHuffman.MatchInTable | src/io/image.cpp:316-327 | for every table, legal or not, the index is never below that of the first code of its length, and below the number of codes |
| JpegHuffman.StaysInPlaces | src/io/image.cpp:316-327 | a table of at most 256 codes is never read beyond its end |
| JpegHuffman.MatchIsSymbol | src/io/image.cpp:316-327 | in a legal table the shortest matching length is that of the one code the bits start with, and there is a match exactly when there is such a code |
| JpegHuffman.Decode | src/io/image.cpp:316-327 | for every table it gives the symbol of the shortest length whose codes reach up to the bits read, or what memory holds behind the table for a place of 256 and more, and drops those bits; it fails exactly when there is no such length |
| JpegBlock.CategoryBounds | src/io/image.cpp:578-582 | a value of category t lies within t bits and not within t - 1 |
| JpegBlock.ReadExtra | src/io/image.cpp:578-582 | EXTEND of the additional bits gives back the value, for every value |
| JpegBlock.ReadCode | src/io/image.cpp:316-327 | decoding a symbol's code gives the symbol and leaves what follows |
| JpegBlock.AcRoundTrip | src/io/image.cpp:585-604 | zero runs, ZRL and EOB decode back to the AC coefficients from any position on |
| JpegBlock.BlockRoundTrip | src/io/image.cpp:576-604 | every codable block of a DC difference and 63 AC coefficients is given back, and nothing after it is touched |
| JpegBlock.ZigIsPath | src/io/image.cpp:368-371 | the table is the zigzag path of the standard |
| JpegBlock.ZigInjective | src/io/image.cpp:368-371 | every place of the block has its own index |
| JpegScan.NextSymbol | src/io/image.cpp:316-327 | the decoder's symbol is the one of the standard's procedure; errors are sticky |
| JpegScan.DecodeAc | src/io/image.cpp:585-604 | the AC loop computes the decoding procedure, with dequantised values in natural order, and fails exactly when it does |
| JpegScan.ReceivedBlock | src/io/image.cpp:576-584 | with DC categories up to 25 the block received is the block of the standard's procedure |
| JpegScan.DecodeBlock | src/io/image.cpp:576-604 | one block is decoded as the procedure says from the bits that arrive, with the DC prediction added, for every DC category whose shifts are defined |
| JpegScan.ScanStep | src/io/image.cpp:574-604 | the first block of a coded scan decodes to itself and leaves the coded rest |
| JpegScan.DecodeScan | src/io/image.cpp:560-604 | a coded sequence of blocks of several components is decoded back completely, in order |
| JpegScan.DecodeSegment | src/io/image.cpp:556-604 | so it is from the stuffed bytes on, whatever follows the segment |
| Softmax.SoftmaxByDivision | src/gpu/coli_cuda.cpp:476-488 | the inline softmax of the unabsorbed form is softmax |
| Softmax.SoftmaxByReciprocal | src/quant/quant.cpp:405-422 | the shared softmax is softmax |
| Softmax.LargestIsLargest | src/gpu/coli_cuda.cpp:476-479 | the value subtracted is one of the scores and none is larger |
| Softmax.WeightsMeaning | src/gpu/coli_cuda.cpp:476-488 | the weights are positive, in the ratio of the exponentials of the scores, and add up to one |
| Mla.Bilinear | src/gpu/metal_ops.cpp:163-168 | x . (W y) equals (W^T x) . y, by exchanging the two sums |
| Mla.ScoresAgree | src/gpu/coli_cuda.cpp:459-475 | (W_kt q) . c + rotated part equals q . (W_k c) + rotated part |
| Mla.ValuesAgree | src/gpu/coli_cuda.cpp:490-503 | W_v applied to the pooled row equals the pooled W_v of the rows |
| Mla.FormsAgree | src/gpu/metal_ops.cpp:152-195 | absorbed and unabsorbed attention agree for every head, element, length and scale |
| MlaHost.ScoreRow | src/gpu/coli_cuda.cpp:458-475 | the nested score loops compute the score of a row |
| MlaHost.Head | src/gpu/coli_cuda.cpp:455-503 | one head of the unabsorbed loops computes the attention of that head |
| MlaHost.AbsorbOne | src/gpu/coli_cuda.cpp:449-505 | the output buffer holds the unabsorbed attention of all heads; it refuses exactly empty dimensions |
| MlaHost.Fold | src/model/ops.cpp:1348-1368 | the folded matrices are the transposed key rows and the value rows of kv_b |
| MlaHost.AbsorbQuery | src/gpu/metal_ops.cpp:162-168 | the absorbed query of a head is W_kt q |
| MlaHost.AbsorbedScoreRow | src/gpu/metal_ops.cpp:169-176 | one running sum over latent and rotated part is the absorbed score |
| MlaHost.PoolRows | src/gpu/metal_ops.cpp:178-184 | the pooled row is the weighted sum of the cached rows |
| MlaHost.AbsorbAll | src/gpu/metal_ops.cpp:152-195 | the output buffer holds the absorbed attention of all heads over the joined cache |
| MlaHost.OutputsAgree | src/gpu/metal_ops.cpp:152-195 | given folded matrices and a joined cache of the same rows, the two output buffers are equal |
| MlaMeaning.QueryIs | src/gpu/coli_cuda.cpp:455-456 | in a query buffer of heads one after the other, the query of a head is that head's, first the unrotated part, then the rotated one |
| MlaMeaning.KeyIs | src/gpu/coli_cuda.cpp:459-465 | in a kv_b of blocks of key rows and then value rows per head, the key rows of a head are that head's |
| MlaMeaning.ValueIs | src/gpu/coli_cuda.cpp:490-500 | and so are its value rows |
| MlaMeaning.FoldedRows | src/gpu/metal_ops.cpp:162-190 | in folded buffers per head, row k of the transposed keys and row v of the values of a head are that head's |
| MlaMeaning.ContextMeaning | src/gpu/coli_cuda.cpp:455-503 | one head on such buffers is textbook attention: softmax over the scaled products of query and keys in both parts, applied to the values |
| MlaMeaning.AttendHeads | src/gpu/coli_cuda.cpp:449-505 | the unabsorbed call on the buffers of given heads and cached rows puts out textbook attention of each head |
| MlaMeaning.AttendAbsorbed | src/gpu/metal_ops.cpp:152-195 | folding and the absorbed call on the joined cache put out the same textbook attention |
| Fp4.MatVec | src/quant/quant.cpp:298-321 | the product with one scale read per group of 32 columns is the sum over the dequantised elements |
| Fp4.OneExpert | src/gpu/dsv4_cuda.cpp:169-189 | adds the weighted expert output to every element, and refuses exactly mismatched shapes |
| ExpertMeaning.ElementIs | src/gpu/dsv4_cuda.cpp:144-154 | in a packed matrix, two columns a byte with the low half first and one scale for 32 columns, the element read is the element stored |
| ExpertMeaning.OutputMeaning | src/gpu/dsv4_cuda.cpp:169-189 | on packed matrices the expert is the down matrix times the activation of the gate matrix and the up matrix times the input |
| ExpertMeaning.AddMlp | src/gpu/dsv4_cuda.cpp:169-189 | the call adds that, weighted, to the output |
| Fp4.RowShardElements | src/gpu/dsv4_cuda.cpp:1703-1710 | a gate or up shard has, element by element, the rows it stands for |
| Fp4.ColumnShardElements | src/gpu/dsv4_cuda.cpp:1711-1727 | a down shard has, element by element, the columns it stands for when the half width is a multiple of 32 |
| Fp4.GroupsAlign | src/gpu/dsv4_cuda.cpp:1713-1726 | the scale of every shard column is that of the column it stands for exactly when the half width is a multiple of 32 |
| Fp4.PackedStretchesFit | src/gpu/dsv4_cuda.cpp:1717-1721 | the copied stretches of packed columns lie inside the source buffer for every even width |
| Fp4.ScaleStretchesFit | src/gpu/dsv4_cuda.cpp:1722-1726 | the copied stretches of scales lie inside a buffer of exact size exactly for rank 0, and for rank 1 when the half width modulo 32 is 0 or above 16 |
| Fp4.SliceColumns | src/gpu/dsv4_cuda.cpp:1717-1726 | the row by row copies give the columns of the rank |
| Fp4.UploadTp2 | src/gpu/dsv4_cuda.cpp:1683-1733 | a rank gets its shard of the three matrices for every even width, whatever memory holds past the scales, or the whole expert for an odd or empty width |
| Fp4.ShardsAdd | src/gpu/dsv4_cuda.cpp:1683-1733 | the outputs of the two shards add up to the output of the whole expert of twice the width |
| Fp4.HalvesDiffer | src/gpu/dsv4_cuda.cpp:1683-1733 | at every other even width, for one of two values of the scale that the cut goes through, the two outputs do not add up on an input of ones, whatever lies past the buffers |
| Fp4.HalvesAddWhen | src/gpu/dsv4_cuda.cpp:1683-1733 | for a codec like the source's the shards of every expert add up on every input exactly when the half width is a multiple of 32 |
| TpAttention.WoAdds | src/gpu/dsv4_cuda.cpp:867-879 | the output projection, one or two matrices, is linear |
| TpAttention.SinksAgreeWhen | src/gpu/dsv4_cuda.cpp:1308-1350 | the second rank, which counts sinks from its own first head, uses the right ones exactly when there are sinks for all heads or those the two ranks count to are equal |
| TpAttention.SinksDecide | src/gpu/dsv4_cuda.cpp:1308-1350 | that is exactly when, for any query and keys, all its attention scores are those of one rank |
| TpAttention.RangesAdd | src/gpu/dsv4_cuda.cpp:1258-1354 | with agreeing sinks the contexts of the two ranks' head ranges add up to that of all heads |
| TpAttention.RanksAdd | src/gpu/dsv4_cuda.cpp:1495-1513 | then the projected contexts of the two ranks' head ranges add up to the one-rank output, for odd head counts too |
| TpAttention.AllreducePair | src/gpu/dsv4_cuda.cpp:1195-1204 | both outputs become the element-wise sum |
| TpAttention.ContextHeads | src/gpu/dsv4_cuda.cpp:1308-1352 | for every sink length and for sharded weights too, the buffer is the context of the head range: each head at its own place, or counted from the first head of the range when the output matrix is sharded, and zero elsewhere |
| TpAttention.AttentionHeads | src/gpu/dsv4_cuda.cpp:1258-1354 | the output is the projected context of the head range over the extended cache, for every sink length and layout; a seeded cache is not extended; refused exactly for empty sizes and ranges outside the heads |
| TpAttention.RunRank | src/gpu/dsv4_cuda.cpp:1489-1513 | with full weights a rank computes its half of the heads, or all of a lone head; with sharded weights all heads of its own shard |
| TpAttention.FullRanks | src/gpu/dsv4_cuda.cpp:1480-1539 | with full weights and agreeing sinks the two ranks' outputs add up to one-rank attention over all heads |
| TpAttention.SinkTakesMore | src/gpu/dsv4_cuda.cpp:1330-1345 | beside one key the weight falls strictly as the score of the sink grows |
| TpAttention.ProbeDecides | src/gpu/dsv4_cuda.cpp:1308-1350 | for every number of heads from two on, any sinks, and each head of the second rank, there are weights for which the two ranks' sum is the one-rank output exactly when that head's sinks agree |
| TpAttention.AttentionTp2 | src/gpu/dsv4_cuda.cpp:1480-1539 | both outputs are the sum of what the ranks compute; with full weights, agreeing sinks, equal inputs and equal caches both equal one-rank attention over all heads, and both caches gain the same key |
| TpAttention.CompareRanks | src/gpu/dsv4_cuda.cpp:1480-1539 | such a layer is built and both calls are made on it: the outputs are equal exactly when the head's sinks agree |
| TpMeaning.HeadQueryIs | src/gpu/dsv4_cuda.cpp:1294-1325 | when the query projection puts out one query after the other, each head rotates its own; missing queries are zero |
| TpMeaning.HeadMeaning | src/gpu/dsv4_cuda.cpp:1308-1352 | a head is textbook attention: softmax over the scaled products with the keys and its sink score, applied to the keys |
| TpMeaning.ContextMeaning | src/gpu/dsv4_cuda.cpp:1258-1352 | the projected buffer is the outputs of the call's heads one after the other, behind zeros for the heads before them when the output matrix has places for all |
| TpMeaning.AttentionMeaning | src/gpu/dsv4_cuda.cpp:1258-1354 | all heads, projected by the output matrices as textbook products |
| TpMeaning.Attend | src/gpu/dsv4_cuda.cpp:1258-1354 | the one-rank call puts out that over the keys of its cache and the new token's |
| TpMeaning.AttendTp2 | src/gpu/dsv4_cuda.cpp:1480-1539 | and so do both ranks, with full weights, equal inputs and caches, and a sink for every head |
| EpMoe.PicksByEntry | src/gpu/dsv4_cuda.cpp:1381-1393 | the sum over the gathered experts equals the sum over routing entries that are taken |
| EpMoe.TakenOnce | src/gpu/dsv4_cuda.cpp:1356-1369 | a placed expert is taken by the rank of its parity, at its own number, and by no other |
| EpMoe.PackedWhen | src/gpu/dsv4_cuda.cpp:1356-1369 | with experts loaded by packed index, the expert found is the right one exactly when it is the first or its number is past the bank |
| EpMoe.RanksAdd | src/gpu/dsv4_cuda.cpp:1841-1903 | the two ranks' sums add up to the six-expert sum of one rank |
| EpMoe.ExpertGroup | src/gpu/dsv4_cuda.cpp:812-825 | the group starts from zero and is the weighted sum of the experts |
| EpMoe.Moe | src/gpu/dsv4_cuda.cpp:834-847 | the group plus the shared expert once, if complete |
| EpMoe.RoutedParity | src/gpu/dsv4_cuda.cpp:1371-1406 | one rank's share, also when it has no expert of the routing |
| EpMoe.RouteMoe | src/gpu/dsv4_cuda.cpp:1754-1781 | one rank with all experts gives the full weighted sum plus the shared expert |
| EpMoe.RouteMoeEp2 | src/gpu/dsv4_cuda.cpp:1841-1903 | both outputs are equal, with the shared expert counted once wherever it lives; with one gate, one input and every routed expert on its rank they are the one-rank result |
| RoutedMeaning.SumMeaning | src/gpu/dsv4_cuda.cpp:1754-1781 | the routed sum is, entry by entry, the weighted textbook output of the expert with that number, where there is one, and the shared expert |
| RoutedMeaning.Route | src/gpu/dsv4_cuda.cpp:1754-1781 | one rank puts out that mixture, and fails exactly when the gate refuses or no routed expert is there |
| RoutedMeaning.RouteEp2 | src/gpu/dsv4_cuda.cpp:1841-1903 | two ranks with the experts of their parity put out the same mixture when every routed expert is there |
| Int4.QuantWithNear | python/convert_glm53.py:73-74 | the clipping never acts and the rounding error is at most half a scale |
| Int4.QuantNear | python/convert_glm53.py:66-75 | so it is for every element of every group, the ragged last one included |
| Int4.ScaleMeaning | python/convert_glm53.py:66-72 | seven times the scale of a group bounds its magnitudes and is the largest of them, unless the scale is the floor of 1e-8 |
| Int4.NibbleOfByte | python/convert_glm53.py:76-82 | unpacking a packed byte gives the quantised value of either column, for odd widths too |
| Int4.RoundTrip | src/gpu/coli_cuda.cpp:99-105 | the fmt-4 dequantiser gives every weight back within half the scale stored for its group |
| Int4.RoundTripNear | src/gpu/coli_cuda.cpp:99-105 | so every weight of a group whose magnitudes are below a bound comes back within a fourteenth of it, or half the floor |
| Int4.CodePlace | src/gpu/coli_cuda.cpp:99-105 | the low half of a byte is the even column and the high half the odd one, offset by eight |
| Int4.PackRow | python/convert_glm53.py:76-82 | filling low nibbles first and merging high nibbles gives the packed row |
| Int4.QuantInt4Grouped | python/convert_glm53.py:59-83 | the written nibbles and scales are those of the quantiser and bring every weight back within half its group's scale, for every shape |
| DirectRead.PreadFull | src/io/file_io.cpp:35-62 | with healthy reads it succeeds exactly when the range is in the file; then the bytes are in place and nothing else changed, for every sequence of short reads and interruptions; a range over the end of the file is read up to the end and fails |
| DirectRead.FillScratch | src/io/file_io.cpp:113-127 | the scratch buffer holds the range from the aligned start on, and nothing outside it is written unless the window is negative |
| DirectRead.ReadTail | src/io/file_io.cpp:119-124 | the part beyond the whole pages of the file is read behind the direct part |
| DirectRead.PreadDirect | src/io/file_io.cpp:95-129 | the destination holds exactly the requested bytes, with or without scratch, short reads, end of file and overlap; only destination and scratch are written, except when the page of the range starts beyond the end of the file: then the read fails and the last partial page of the file lies before the scratch buffer |
| DirectRead.WholePagesOnly | src/io/file_io.cpp:114-122 | in that case nothing outside the scratch buffer is written exactly when the file is a whole number of pages |
| DirectRead.PageBeyondFile | src/io/file_io.cpp:114-122 | a file of one byte, read at its second page: the byte appears one page before the scratch buffer |

## Left out

- Floating-point rounding: all arithmetic is over the reals, so the equalities hold up to rounding of the machine floats.
- Dsv4Slot.Slot.PrefillWindow: after an error the rows from the old position on are not described.
- Dsv4Generate.Generate: when the prefill succeeded and a later forward pass fails, the slot is not described beyond whether it counts as filled; BeginGenerate and NextToken describe both kinds of failure.
- Dsv4Generate.NextToken: the engine's slot-number range checks are not modelled; a slot is an object.
- Dsv4Generate.NextTokens: null-pointer and empty-batch arguments are not modelled, and slots are given as distinct objects.
- Dsv4Ckpt.Engine.RunPrefill: entries read from disk are assumed to be cold states of their ids; a file is checked only against the fingerprint of the sizes.
- Dsv4Files.ReadDirectory: directory listing, file names and their hashes are I/O; the fingerprint is any function of the sizes; values are reals that some float stands for.
- Dsv4Ckpt.Engine.Store: writing the file and its name hash are I/O; clearing of slot flags after a failed prefill is not stated.
- CkptPolicy.RunKeeps: the tick is unbounded, where the source uses a 64-bit counter.
- Dsv4Moe.MoeLayer: the expert store enters by its contract; its body is not part of this model, and neither is the optional two-rank branch.
- Flat float buffers of the DSV4 slot are modelled as one row per position, with the indexer parts beside it.
- Layer and window loops of the DSV4 slot take and return buffers by value; the class methods assign them to the slot, so aliasing between buffers is not modelled.
- Batching.DecodeLayers: the device copy of the block table and cuBLAS calls are not modelled; attention reads the host table.
- Batching.Server.Occupy: prefill attention over the projected rows is one uninterpreted function per layer.
- Bytes of K and V rows: a row is one element, so V_OFFSET and KV_DIM appear as rows and not as bytes.
- JpegScan.DecodeScan: blocks are a flat list in scan order, without the loop over MCUs; after an error the block contents are not stated.
- JpegHuffman.Decode: memory behind a table is a parameter.
- JpegBits.BitReader.Get: a read of 32 bits and more is outside its precondition, because the shift is undefined there.
- JpegScan.DecodeBlock: DC categories above 30 are outside its precondition, because the shifts are undefined there.
- JPEG markers, restart intervals, inverse DCT and colour conversion; PNG, base64 and image resizing, which would add only easier members.
- MlaHost.AbsorbOne: buffers shorter than the layout demands read as zero, where the source would read beyond them; negative sizes are not modelled.
- MlaHost.Fold: only the unquantised form, without the 4-bit and 8-bit packing of the folded matrices.
- Fp4.UploadTp2: allocation, device placement and adoption of tensors are not modelled; what is read past the scales is a parameter.
- TpAttention.AttentionTp2: for sharded weights it is the sum of what the ranks compute, and how loading cuts the weights is not modelled; equal copies of the weights on two devices are one object, and projection failures are not modelled.
- EpMoe.RouteMoeEp2: the second routing attempt after both gates refuse is replaced by its result, failure; with experts loaded by packed index it is the sum of what the ranks pick.
- Routing, top-k selection, normalisation, rotary embedding and activation functions are uninterpreted.
- Int4.QuantInt4Grouped: the scale is a real and not rounded to 32 bits, and merging nibbles with bitwise or is an addition of disjoint nibbles.
- DirectRead.PreadDirect: a failing fstat is a flag, the file does not change during the read, and buffer alignment in memory is not modelled.
- The scatter-add of the Metal expert block, the ring cache of sparse attention, key-row import and export, telemetry, configuration, CLI and HTTP.
- The video, vision and other model families, and all CUDA, Metal and Vulkan kernels.
