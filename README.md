# Face-identity core of the DeepStream metadata service, in Dafny

This project models three parts of the service:

- **The identity store** (`app/identity_manager.py`). It keeps a dict from a person's name to a reference face embedding. A query embedding is matched against the store: the known face with the highest similarity wins, an earlier face wins a tie, and the winner is reported only when its score reaches 0.6. Otherwise the answer is `"unknown"`.
- **The metadata pad probe** (`app/custom_probes.py`). For each frame of a batch it builds a record with one object per person detection: track id, box, confidence, whether a face embedding was read, and the face identity. It also keeps a module-global cache from track id to the first embedding seen for that track.
- **The frame-ingest gRPC service** (`app/grpc_server.py`). A client stream of raw frames goes into a FIFO queue that holds at most 30 frames. A worker takes frames off the queue, reshapes each frame's bytes, stamps the buffer with a presentation time in nanoseconds and pushes it to the pipeline's appsrc.

The files:

- `common.dfy`: the `Option` and `Result` wrappers.
- `ordered_dict.dfy`: Python's insertion-ordered `dict`. It is the order of the keys beside the mapping. Assigning to an existing key keeps its position, a new key goes last, and deleting a key keeps the other keys in order.
- `identity_manager.dfy`: the class `IdentityManager`. `BestIndex` and `Identify` are the reference definitions of the matching loop.
- `custom_probes.dfy`: the class `ProbeContext` holds the module globals. Three prefix folds are the reference for the probe's three nested loops: `ScanUserMetas`, `ScanObjects` and `ScanBatch`.
- `grpc_server.dfy`: the class `FrameStreamerServicer`. `ConvertFrame`, `Step` and `Run` are the reference for the worker loop.

The methods that run the source's loops (`LoadKnownFaces`, `IdentifyFace`, the three probe loops, `ProcessStep` and `ProcessFrames`) are proved against those reference functions. The other methods (`AddKnownFace`, `RemoveKnownFace`, `Put`, `Get`, `StreamFrames`, `Stop`) state their new state directly. The lemmas state what the source promises about the reference functions.

### Behaviour of the code worth knowing

- **Cached tracks report "unknown".** The cache lookup at `app/custom_probes.py:63` reads an `"identity"` key that lines 56-59 never store, so it always yields its default. A track that is already cached is therefore reported as `"unknown"` on every later frame. The same happens within one object: a second tensor-output meta after the one that cached the track resets the identity to `"unknown"`. The model does this (`CachedTrackIsUnknown`, `LaterTensorMetaResetsIdentity`, `TrackResolvedOnce`).
- **The cache is never updated or pruned.** `last_seen_frame` stays at the frame of first sighting.
- **The probe's store is empty.** The module-global `identity_manager` is built with no faces file (`app/custom_probes.py:14`), so its store is empty unless something else adds faces. With an empty store every detection is reported as `"unknown"` (`EmptyStoreReportsUnknown`).
- **Conversion failures are decided by the Python libraries.** numpy and the GStreamer binding decide when converting a frame fails:
  - `reshape((height, width, 3))` accepts a byte count of exactly `height * width * 3`. It also accepts one negative size, whatever its value, as the unknown dimension, which it infers when the other sizes are non-zero and divide the byte count. Two negative sizes fail.
  - Setting `pts` to `timestamp_us * 1000` fails when the value is outside the unsigned 64-bit clock range.

  Either failure is printed, and the frame is dropped.
- **A rejected stream acknowledges with an empty message.** When the queue is full, `put` raises `queue.Full`, whose text is empty. So the failure `StreamAck` carries the message `""`.

## Model

| member | source | states |
|---|---|---|
| OrderedDict.Empty | app/identity_manager.py:15 | the new store is a well-formed dict with no entries |
| OrderedDict.Without | app/identity_manager.py:103-104 | removing a key from the iteration order keeps every other key, keeps the order free of duplicates, leaves an order without that key unchanged, and shortens an order with it by exactly one |
| OrderedDict.WithoutConcat | app/identity_manager.py:103-104 | removing a key from a concatenation removes it from each part, so the remaining keys keep their relative order |
| OrderedDict.WithoutSingle | app/identity_manager.py:103-104 | removing a key from a one-key order keeps that key exactly when it is a different key |
| OrderedDict.PutUpserts | app/identity_manager.py:95 | `d[k] = v` maps `k` to `v` and keeps every other entry; an existing key keeps its position and a new key is appended; the dict stays well-formed |
| OrderedDict.RemoveDeletesOnly | app/identity_manager.py:103-104 | `del d[k]` removes exactly `k` and keeps the other keys in order; it is a no-op when `k` is absent |
| OrderedDict.PutAllMerges | app/identity_manager.py:27-33 | merging a list of pairs into the dict adds or overwrites its keys, with the last of repeated keys winning; every other entry is kept, and existing keys are neither moved nor dropped |
| Identity.BestIndex | app/identity_manager.py:75-83 | after the loop has visited the first `n` faces, the kept match is the earliest face whose score is maximal and above -1; it is -1 when no score beats -1 |
| Identity.IdentifySelectsEarliestBest | app/identity_manager.py:72-86 | either some known face scores at least 0.6 and the answer is the earliest face with the highest score, or every face scores below 0.6 and the answer is "unknown" |
| Identity.IdentifyIsKnownOrUnknown | app/identity_manager.py:63-86 | the answer is "unknown" or a name in the store |
| Identity.IdentifyTieGoesToEarlier | app/identity_manager.py:78-82 | when the face at position `i` has the top score and it reaches the threshold, the answer is at position `i` or earlier: a later face with an equal score never wins |
| Identity.IdentityManager.constructor | app/identity_manager.py:9-19 | the store starts empty and is the faces file merged in when a path is given and the file loads |
| Identity.IdentityManager.LoadKnownFaces | app/identity_manager.py:21-33 | the file's pairs are merged in file order without clearing the store; on an open or parse error the store is unchanged |
| Identity.IdentityManager.IdentifyFace | app/identity_manager.py:63-86 | the loop computes `Identify`; the answer is "unknown" or a stored name, and it is "unknown" for an empty store |
| Identity.IdentityManager.AddKnownFace | app/identity_manager.py:88-95 | upserts the name with the embedding; every other entry is unchanged |
| Identity.IdentityManager.RemoveKnownFace | app/identity_manager.py:97-104 | deletes the name when present and nothing else; an absent name leaves the store unchanged |
| Identity.IdentityManager.GetAllIdentities | app/identity_manager.py:106-112 | every stored name appears exactly once, and nothing else appears |
| Probes.NoTensorOutputIsUnknown | app/custom_probes.py:44-64 | an object with no tensor-output meta is reported with no embedding and identity "unknown", and the cache is untouched |
| Probes.CachedTrackIsUnknown | app/custom_probes.py:55-63 | a track already cached keeps its entry unchanged, last-seen frame included, and is reported as "unknown" |
| Probes.ScanCachesFirstEmbedding | app/custom_probes.py:48-61 | scanning an object keeps every cached entry and adds at most its own track; an uncached track gains the first embedding seen, stamped with this frame's number |
| Probes.FirstSightingIdentifies | app/custom_probes.py:48-61 | an uncached track whose only tensor-output meta carries the embedding `e` is cached as `e` and this frame, and is reported with the identity the store gives `e` |
| Probes.LaterTensorMetaResetsIdentity | app/custom_probes.py:48-63 | once the track is cached, by an earlier meta of the object or an earlier frame, a further tensor-output meta sets the embedding to what it carries (possibly none) and resets the identity to "unknown", leaving the cache as it was |
| Probes.ScanIdentityIsKnownOrUnknown | app/custom_probes.py:44-63 | every reported identity is "unknown" or a name in the store |
| Probes.EmptyStoreReportsUnknown | app/custom_probes.py:44-63 | with an empty store, such as the module-global manager's, every object is reported as "unknown" |
| Probes.ObjectsFollowPersons | app/custom_probes.py:31-75 | a frame yields one record per person detection, in order, each with that detection's track id, class "person", box and confidence; the cache only gains entries |
| Probes.BatchRecordsFollowFrames | app/custom_probes.py:27-89 | a batch yields one record per frame, in order, with the frame's number, its source and its timestamp; each record holds one object per person detection of that frame, in order, with the detection's track id, class "person", box and confidence; no cache entry changes |
| Probes.TrackResolvedOnce | app/custom_probes.py:48-75 | a person seen in two frames is identified from the first embedding, then reported as "unknown"; the cache keeps the first embedding and frame |
| Probes.ProbeContext.constructor | app/custom_probes.py:12-14 | the track cache starts empty beside the given identity manager |
| Probes.ProbeContext.ScanFace | app/custom_probes.py:44-63 | the loop over an object's user metas computes `ScanUserMetas` from the current cache |
| Probes.ProbeContext.CollectObjects | app/custom_probes.py:28-75 | the loop over a frame's objects computes `ScanObjects` from the current cache |
| Probes.ProbeContext.AllDataProbe | app/custom_probes.py:16-91 | always answers OK; with no buffer it sends nothing and leaves the cache alone; otherwise the records sent and the new cache are `ScanBatch` of the frames |
| GrpcServer.ReshapedShape | app/grpc_server.py:64-65 | when the reshape succeeds, the shape keeps the sizes given as non-negative, infers the negative one, and holds exactly the frame's bytes |
| GrpcServer.ConvertKeepsFrame | app/grpc_server.py:63-73 | a converted frame keeps its bytes in a shape that holds them all; the frame is rebuilt from the buffer's bytes and its pts read back in microseconds; dts and duration are none; a frame with non-negative sizes converts exactly when it holds height×width×3 bytes and its time fits the clock; two negative sizes never convert |
| GrpcServer.ConvertedInOrder | app/grpc_server.py:58-83 | no more buffers are pushed than frames are taken; when every frame converts, the i-th buffer is the i-th frame's |
| GrpcServer.ConvertedConcat | app/grpc_server.py:58-83 | the buffers of two runs of frames taken one after the other are those of the first run followed by those of the second |
| GrpcServer.ConvertedSkipsBadFrame | app/grpc_server.py:80-83 | a frame that fails to convert drops out, and the buffers of the frames before and after it are still pushed, in order |
| GrpcServer.RunDrainsInOrder | app/grpc_server.py:56-83 | k passes take the first min(k, queue length) frames in FIFO order, push the buffers of those that convert in that order, and print one line per failed frame or non-OK push |
| GrpcServer.StepTakesNext | app/grpc_server.py:58-83 | after m frames are handled, the next pass handles frame m with answer m and extends the pushed buffers and the log by that frame's share |
| GrpcServer.FrameStreamerServicer.constructor | app/grpc_server.py:14-27 | the queue starts empty, the service is running, nothing is pushed or printed |
| GrpcServer.FrameStreamerServicer.Put | app/grpc_server.py:42 | a frame is appended when the queue is below 30, and the put fails otherwise |
| GrpcServer.FrameStreamerServicer.Get | app/grpc_server.py:61 | takes the oldest frame, or nothing when the queue is empty |
| GrpcServer.FrameStreamerServicer.StreamFrames | app/grpc_server.py:29-54 | the stream succeeds exactly when all its frames fit; then every frame is queued in order; otherwise the frames that fit are queued, one more is consumed, the error is printed, and the ack is false with message "" |
| GrpcServer.FrameStreamerServicer.ProcessStep | app/grpc_server.py:58-83 | a stopped worker exits; otherwise one pass is `Step`: a poll on an empty queue, or the oldest frame pushed or printed as failed |
| GrpcServer.FrameStreamerServicer.ProcessFrames | app/grpc_server.py:56-83 | while running, the passes take queued frames in FIFO order and push the well-formed ones in that order (`Run`, and its closed form); after stop nothing changes |
| GrpcServer.FrameStreamerServicer.Stop | app/grpc_server.py:85-89 | clears the running flag |
| GrpcServer.OverflowThenDrain | app/grpc_server.py:29-83 | 31 frames into an empty queue fail on the 31st with message "" after 30 are queued; the worker then pushes the buffers of those 30, in order |

## Left out

- `cosine_similarity` (app/identity_manager.py:51-61) is floating-point vector arithmetic. The model replaces it with an arbitrary scoring function, `Similarity`, so every lemma about matching holds for any score, cosine included. A NaN score (from a zero vector) is not modelled.
- `save_known_faces` (app/identity_manager.py:35-49) only writes a file; it does not change the store, so it is not modelled.
- Reading and parsing the JSON faces file are not modelled. `LoadKnownFaces` and the constructor take the parsed pairs, or None for a missing file or a failed load. The printed load error is not modelled.
- Identity.IdentityManager.LoadKnownFaces: a JSON object read part-way before an error is not modelled; on an error the store is left as it was before the load.
- The numpy conversion of embeddings (`np.array`) is not modelled: an embedding is a sequence of reals.
- pyds metadata traversal, `get_infer_output_tensor` and `pyds.get_string` are not modelled. The probe takes the batch as a sequence of frame metadata, and each tensor meta says whether an embedding was read.
- The UTC clock read by the probe is a parameter, `clock(i)` for the i-th frame of the batch.
- `grpc_client.send_metadata` is an opaque foreign call. Its failures are caught and printed, and never change the probe's result, so the model only records the handed-over records as `sent`.
- The gRPC client, the pipeline builder, `main.py` and `start_grpc_server` are not part of this model.
- Threads, the `threading` start and join, and the 1-second timeouts of `put` and `get` are not modelled. The model is sequential: nothing drains the queue while a stream is being read, so a put on a full queue fails, and the worker's passes are given explicitly, one appsrc answer per pass.
- GrpcServer.FrameStreamerServicer.ProcessFrames: the worker thread runs forever until stopped; the model bounds it by the number of appsrc answers given, and interleaving with `StreamFrames` is not modelled.
- Errors raised by the gRPC request iterator itself (a cancelled client) are not modelled. Only the `queue.Full` failure path of `StreamFrames` is.
- Locking: neither the source nor the model synchronises the shared track cache or the store.
- The printed text of errors is not modelled. A log entry records which error occurred, and for a rejected stream its (empty) message.
