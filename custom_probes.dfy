/**
 * The pad probe that turns each frame's detections into a metadata record
 * (`all_data_probe` in app/custom_probes.py), with the module-global track
 * cache `known_face_embeddings` it consults and fills.
 */
module Probes {
  import opened Common
  import opened OrderedDict
  import opened Identity

  /** Detections of this class are people; every other class is skipped. */
  const PersonClassId: int := 0
  const PersonClass: string := "person"

  /** One item of an object's user-metadata list. */
  datatype UserMeta =
    | TensorOutput(tensor: Option<Embedding>)  // a tensor-output meta; the embedding read from it may be absent
    | OtherUserMeta                            // any other meta type, ignored

  datatype Rect = Rect(left: real, top: real, width: real, height: real)

  /** One tracked detection of a frame. */
  datatype ObjectMeta = ObjectMeta(classId: int, objectId: int, rect: Rect, confidence: real, userMetas: seq<UserMeta>)

  /** One frame of a batch: its number, its stream and its detections in order. */
  datatype FrameMeta = FrameMeta(frameNum: int, sourceId: string, objects: seq<ObjectMeta>)

  /** An entry of `known_face_embeddings`; the source stores no identity in it. */
  datatype TrackEntry = TrackEntry(embedding: Embedding, lastSeenFrame: int)

  type TrackCache = map<int, TrackEntry>

  /** One element of a frame record's `objects` list. */
  datatype ObjectRecord = ObjectRecord(
    trackId: int,
    className: string,
    personBbox: seq<real>,
    faceIdentity: string,
    faceEmbeddingAvailable: bool,
    confidencePerson: real)

  /** The per-frame record handed to the metadata client. */
  datatype FrameRecord = FrameRecord(timestamp: string, frameId: int, sourceId: string, objects: seq<ObjectRecord>)

  datatype PadProbeReturn = ProbeDrop | ProbeOk | ProbeRemove | ProbePass | ProbeHandled

  /** The state of the loop over one object's user metas. */
  datatype FaceScan = FaceScan(embedding: Option<Embedding>, identity: string, cache: TrackCache)

  /**
   * The loop over the first metas of an object, starting from no embedding,
   * identity "unknown" and the cache `start`.  A tensor meta sets the
   * embedding; if it carries one and the track is not cached, the track is
   * cached with this frame's number and identified; otherwise, if the track
   * is cached, the identity becomes the entry's missing "identity", i.e.
   * "unknown".
   */
  function ScanUserMetas(metas: seq<UserMeta>, trackId: int, frameNum: int, start: TrackCache,
                         faces: Dict<string, Embedding>, sim: Similarity): FaceScan
    requires OrderedDict.Valid(faces)
    decreases |metas|
  {
    if metas == [] then FaceScan(None, Unknown, start)
    else
      var st := ScanUserMetas(metas[..|metas| - 1], trackId, frameNum, start, faces, sim);
      match metas[|metas| - 1]
      case OtherUserMeta => st
      case TensorOutput(t) =>
        if t.Some? && trackId !in st.cache then
          FaceScan(t, Identify(faces, t.value, sim), st.cache[trackId := TrackEntry(t.value, frameNum)])
        else if trackId in st.cache then
          FaceScan(t, Unknown, st.cache)
        else
          FaceScan(t, st.identity, st.cache)
  }

  /** The record built for a person detection after its metas were scanned. */
  function RecordOf(obj: ObjectMeta, scan: FaceScan): ObjectRecord {
    ObjectRecord(obj.objectId, PersonClass,
                 [obj.rect.left, obj.rect.top, obj.rect.width, obj.rect.height],
                 scan.identity, scan.embedding.Some?, obj.confidence)
  }

  /** The state of the loop over a frame's objects. */
  datatype FrameScan = FrameScan(objects: seq<ObjectRecord>, cache: TrackCache)

  /** The loop over the first objects of a frame: people only, in order. */
  function ScanObjects(objs: seq<ObjectMeta>, frameNum: int, start: TrackCache,
                       faces: Dict<string, Embedding>, sim: Similarity): FrameScan
    requires OrderedDict.Valid(faces)
    decreases |objs|
  {
    if objs == [] then FrameScan([], start)
    else
      var prev := ScanObjects(objs[..|objs| - 1], frameNum, start, faces, sim);
      var obj := objs[|objs| - 1];
      if obj.classId != PersonClassId then prev
      else
        var scan := ScanUserMetas(obj.userMetas, obj.objectId, frameNum, prev.cache, faces, sim);
        FrameScan(prev.objects + [RecordOf(obj, scan)], scan.cache)
  }

  /** The state of the loop over a batch's frames: the records sent so far. */
  datatype BatchScan = BatchScan(sent: seq<FrameRecord>, cache: TrackCache)

  /**
   * The loop over the first frames of a batch; `clock(i)` is the UTC time
   * read while building the record of the `i`-th frame.
   */
  function ScanBatch(frames: seq<FrameMeta>, start: TrackCache, faces: Dict<string, Embedding>,
                     sim: Similarity, clock: nat -> string): BatchScan
    requires OrderedDict.Valid(faces)
    decreases |frames|
  {
    if frames == [] then BatchScan([], start)
    else
      var prev := ScanBatch(frames[..|frames| - 1], start, faces, sim, clock);
      var frame := frames[|frames| - 1];
      var fs := ScanObjects(frame.objects, frame.frameNum, prev.cache, faces, sim);
      BatchScan(prev.sent + [FrameRecord(clock(|frames| - 1), frame.frameNum, frame.sourceId, fs.objects)], fs.cache)
  }

  /** The person detections of a frame, in order: the reference for what the probe keeps. */
  function Persons(objs: seq<ObjectMeta>): seq<ObjectMeta>
    decreases |objs|
  {
    if objs == [] then []
    else
      var last := objs[|objs| - 1];
      Persons(objs[..|objs| - 1]) + (if last.classId == PersonClassId then [last] else [])
  }

  /** `rec` carries the track id, class, box and confidence of `obj`. */
  predicate Describes(rec: ObjectRecord, obj: ObjectMeta) {
    && rec.trackId == obj.objectId
    && rec.className == PersonClass
    && rec.personBbox == [obj.rect.left, obj.rect.top, obj.rect.width, obj.rect.height]
    && rec.confidencePerson == obj.confidence
  }

  /** No tensor-output meta among `metas`. */
  predicate NoTensorOutput(metas: seq<UserMeta>) {
    forall i :: 0 <= i < |metas| ==> metas[i] == OtherUserMeta
  }

  /** `big` keeps every entry of `small` as it was. */
  predicate Extends(small: TrackCache, big: TrackCache) {
    forall t | t in small :: t in big && big[t] == small[t]
  }

  /** The first embedding carried by a tensor meta of `metas`, if any. */
  function FirstEmbedding(metas: seq<UserMeta>): Option<Embedding>
    decreases |metas|
  {
    if metas == [] then None
    else
      var first := FirstEmbedding(metas[..|metas| - 1]);
      if first.Some? then first
      else match metas[|metas| - 1]
        case TensorOutput(Some(e)) => Some(e)
        case _ => None
  }

  /**
   * An object without tensor-output meta is reported with identity "unknown"
   * and no embedding, and the cache is not touched.
   */
  lemma {:induction false} NoTensorOutputIsUnknown(metas: seq<UserMeta>, trackId: int, frameNum: int, start: TrackCache,
                                                   faces: Dict<string, Embedding>, sim: Similarity)
    requires OrderedDict.Valid(faces) && NoTensorOutput(metas)
    ensures ScanUserMetas(metas, trackId, frameNum, start, faces, sim) == FaceScan(None, Unknown, start)
    decreases |metas|
  {
    if metas != [] {
      NoTensorOutputIsUnknown(metas[..|metas| - 1], trackId, frameNum, start, faces, sim);
    }
  }

  /**
   * A track already in the cache keeps its entry, last-seen frame included,
   * and is reported as "unknown", since no entry ever holds an identity.
   */
  lemma {:induction false} CachedTrackIsUnknown(metas: seq<UserMeta>, trackId: int, frameNum: int, start: TrackCache,
                                                faces: Dict<string, Embedding>, sim: Similarity)
    requires OrderedDict.Valid(faces) && trackId in start
    ensures ScanUserMetas(metas, trackId, frameNum, start, faces, sim).cache == start
    ensures ScanUserMetas(metas, trackId, frameNum, start, faces, sim).identity == Unknown
    decreases |metas|
  {
    if metas != [] {
      CachedTrackIsUnknown(metas[..|metas| - 1], trackId, frameNum, start, faces, sim);
    }
  }

  /**
   * Scanning an object's metas keeps every cached entry and can add only its
   * own track: for an uncached track, the entry made from the first embedding
   * seen, stamped with this frame's number, or nothing when no tensor meta
   * carries an embedding.
   */
  lemma {:induction false} ScanCachesFirstEmbedding(metas: seq<UserMeta>, trackId: int, frameNum: int, start: TrackCache,
                                                    faces: Dict<string, Embedding>, sim: Similarity)
    requires OrderedDict.Valid(faces)
    ensures var r := ScanUserMetas(metas, trackId, frameNum, start, faces, sim);
      && Extends(start, r.cache)
      && (trackId !in start && FirstEmbedding(metas).None? ==> r.cache == start)
      && (trackId !in start && FirstEmbedding(metas).Some? ==>
            r.cache == start[trackId := TrackEntry(FirstEmbedding(metas).value, frameNum)])
      && (trackId in start ==> r.cache == start)
    decreases |metas|
  {
    if metas != [] {
      ScanCachesFirstEmbedding(metas[..|metas| - 1], trackId, frameNum, start, faces, sim);
    }
  }

  /**
   * First sighting: an uncached track whose only tensor meta carries the
   * embedding `e` is cached as `{e, frameNum}` and reported with the identity
   * the store gives `e`.
   */
  lemma {:induction false} FirstSightingIdentifies(metas: seq<UserMeta>, p: nat, e: Embedding, trackId: int, frameNum: int,
                                                   start: TrackCache, faces: Dict<string, Embedding>, sim: Similarity)
    requires OrderedDict.Valid(faces) && trackId !in start
    requires p < |metas| && metas[p] == TensorOutput(Some(e))
    requires forall i :: 0 <= i < |metas| && i != p ==> metas[i] == OtherUserMeta
    ensures ScanUserMetas(metas, trackId, frameNum, start, faces, sim)
         == FaceScan(Some(e), Identify(faces, e, sim), start[trackId := TrackEntry(e, frameNum)])
    decreases |metas|
  {
    var init := metas[..|metas| - 1];
    if p == |metas| - 1 {
      NoTensorOutputIsUnknown(init, trackId, frameNum, start, faces, sim);
    } else {
      FirstSightingIdentifies(init, p, e, trackId, frameNum, start, faces, sim);
    }
  }

  /**
   * A later tensor meta undoes a first sighting: once the track is cached,
   * by an earlier meta of this object or by an earlier frame, any further
   * tensor meta sets the embedding to what it carries (possibly none) and
   * the identity back to "unknown".
   */
  lemma LaterTensorMetaResetsIdentity(metas: seq<UserMeta>, t: Option<Embedding>, trackId: int, frameNum: int,
                                      start: TrackCache, faces: Dict<string, Embedding>, sim: Similarity)
    requires OrderedDict.Valid(faces)
    requires trackId in start || FirstEmbedding(metas).Some?
    ensures var r := ScanUserMetas(metas, trackId, frameNum, start, faces, sim);
      ScanUserMetas(metas + [TensorOutput(t)], trackId, frameNum, start, faces, sim)
      == FaceScan(t, Unknown, r.cache)
  {
    ScanCachesFirstEmbedding(metas, trackId, frameNum, start, faces, sim);
    assert (metas + [TensorOutput(t)])[..|metas|] == metas;
  }

  /** Every reported identity is "unknown" or a name in the store. */
  lemma {:induction false} ScanIdentityIsKnownOrUnknown(metas: seq<UserMeta>, trackId: int, frameNum: int, start: TrackCache,
                                                        faces: Dict<string, Embedding>, sim: Similarity)
    requires OrderedDict.Valid(faces)
    ensures var r := ScanUserMetas(metas, trackId, frameNum, start, faces, sim);
      r.identity == Unknown || r.identity in faces.entries
    decreases |metas|
  {
    if metas != [] {
      ScanIdentityIsKnownOrUnknown(metas[..|metas| - 1], trackId, frameNum, start, faces, sim);
      match metas[|metas| - 1]
      case OtherUserMeta =>
      case TensorOutput(t) =>
        if t.Some? {
          IdentifyIsKnownOrUnknown(faces, t.value, sim);
        }
    }
  }

  /**
   * With an empty store (as the module-global manager is built, with no
   * faces file) every object is reported as "unknown".
   */
  lemma {:induction false} EmptyStoreReportsUnknown(metas: seq<UserMeta>, trackId: int, frameNum: int, start: TrackCache,
                                                    faces: Dict<string, Embedding>, sim: Similarity)
    requires OrderedDict.Valid(faces) && faces.entries == map[]
    ensures ScanUserMetas(metas, trackId, frameNum, start, faces, sim).identity == Unknown
    decreases |metas|
  {
    if metas != [] {
      EmptyStoreReportsUnknown(metas[..|metas| - 1], trackId, frameNum, start, faces, sim);
    }
  }

  /**
   * A frame yields one record per person detection, in detection order, each
   * carrying that detection's track id, box and confidence under class
   * "person"; the cache only gains entries.
   */
  lemma {:induction false} ObjectsFollowPersons(objs: seq<ObjectMeta>, frameNum: int, start: TrackCache,
                                                faces: Dict<string, Embedding>, sim: Similarity)
    requires OrderedDict.Valid(faces)
    ensures var r := ScanObjects(objs, frameNum, start, faces, sim);
      && |r.objects| == |Persons(objs)|
      && (forall k :: 0 <= k < |r.objects| ==> Describes(r.objects[k], Persons(objs)[k]))
      && Extends(start, r.cache)
    decreases |objs|
  {
    if objs != [] {
      var init, obj := objs[..|objs| - 1], objs[|objs| - 1];
      ObjectsFollowPersons(init, frameNum, start, faces, sim);
      if obj.classId == PersonClassId {
        var prev := ScanObjects(init, frameNum, start, faces, sim);
        ScanCachesFirstEmbedding(obj.userMetas, obj.objectId, frameNum, prev.cache, faces, sim);
      }
    }
  }

  /**
   * A batch yields one record per frame, in frame order, stamped with the
   * frame's number, its stream and the time read for it, holding one object
   * per person detection of that frame, in order, each carrying the
   * detection's track id, box and confidence under class "person"; the track
   * cache only grows, no entry is changed.
   */
  lemma {:induction false} BatchRecordsFollowFrames(frames: seq<FrameMeta>, start: TrackCache,
                                                    faces: Dict<string, Embedding>, sim: Similarity, clock: nat -> string)
    requires OrderedDict.Valid(faces)
    ensures var r := ScanBatch(frames, start, faces, sim, clock);
      && |r.sent| == |frames|
      && (forall i :: 0 <= i < |frames| ==>
            && r.sent[i].frameId == frames[i].frameNum
            && r.sent[i].sourceId == frames[i].sourceId
            && r.sent[i].timestamp == clock(i)
            && |r.sent[i].objects| == |Persons(frames[i].objects)|
            && (forall k :: 0 <= k < |r.sent[i].objects| ==> Describes(r.sent[i].objects[k], Persons(frames[i].objects)[k])))
      && Extends(start, r.cache)
    decreases |frames|
  {
    if frames != [] {
      var init, frame := frames[..|frames| - 1], frames[|frames| - 1];
      BatchRecordsFollowFrames(init, start, faces, sim, clock);
      var prev := ScanBatch(init, start, faces, sim, clock);
      ObjectsFollowPersons(frame.objects, frame.frameNum, prev.cache, faces, sim);
    }
  }

  /**
   * Identity is decided once, and then lost: a person seen in two frames with
   * embeddings `e1` then `e2` is identified from `e1` in the first record and
   * reported as "unknown" in the second, while the cache keeps `{e1, first
   * frame}` for it.
   */
  lemma TrackResolvedOnce(trackId: int, box: Rect, c1: real, c2: real, e1: Embedding, e2: Embedding,
                          n1: int, n2: int, source: string, start: TrackCache,
                          faces: Dict<string, Embedding>, sim: Similarity, clock: nat -> string)
    requires OrderedDict.Valid(faces) && trackId !in start
    ensures var bbox := [box.left, box.top, box.width, box.height];
      ScanBatch([FrameMeta(n1, source, [ObjectMeta(PersonClassId, trackId, box, c1, [TensorOutput(Some(e1))])]),
                 FrameMeta(n2, source, [ObjectMeta(PersonClassId, trackId, box, c2, [TensorOutput(Some(e2))])])],
                start, faces, sim, clock)
      == BatchScan(
           [FrameRecord(clock(0), n1, source, [ObjectRecord(trackId, PersonClass, bbox, Identify(faces, e1, sim), true, c1)]),
            FrameRecord(clock(1), n2, source, [ObjectRecord(trackId, PersonClass, bbox, Unknown, true, c2)])],
           start[trackId := TrackEntry(e1, n1)])
  {
    var m1, m2 := [TensorOutput(Some(e1))], [TensorOutput(Some(e2))];
    var o1, o2 := ObjectMeta(PersonClassId, trackId, box, c1, m1), ObjectMeta(PersonClassId, trackId, box, c2, m2);
    var f1, f2 := FrameMeta(n1, source, [o1]), FrameMeta(n2, source, [o2]);
    var cache := start[trackId := TrackEntry(e1, n1)];
    FirstSightingIdentifies(m1, 0, e1, trackId, n1, start, faces, sim);
    CachedTrackIsUnknown(m2, trackId, n2, cache, faces, sim);
    var bbox := [box.left, box.top, box.width, box.height];
    var r1 := ObjectRecord(trackId, PersonClass, bbox, Identify(faces, e1, sim), true, c1);
    var r2 := ObjectRecord(trackId, PersonClass, bbox, Unknown, true, c2);
    assert ScanUserMetas(m2, trackId, n2, cache, faces, sim).embedding == Some(e2) by {
      assert m2[..0] == [];
    }
    assert ScanObjects([o1], n1, start, faces, sim) == FrameScan([r1], cache) by {
      assert [o1][..0] == [];
    }
    assert ScanObjects([o2], n2, cache, faces, sim) == FrameScan([r2], cache) by {
      assert [o2][..0] == [];
    }
    assert ScanBatch([f1], start, faces, sim, clock) == BatchScan([FrameRecord(clock(0), n1, source, [r1])], cache) by {
      assert [f1][..0] == [];
    }
    assert [f1, f2][..1] == [f1];
  }

  /** The module globals of app/custom_probes.py: the track cache and the identity manager. */
  class ProbeContext {
    /** `known_face_embeddings`: track id to its first embedding and the frame it was seen in. */
    var knownFaceEmbeddings: TrackCache
    /** `identity_manager` */
    const identityManager: IdentityManager

    /** Module load: an empty cache beside the given identity manager. */
    constructor (identityManager: IdentityManager)
      ensures knownFaceEmbeddings == map[] && this.identityManager == identityManager
    {
      knownFaceEmbeddings := map[];
      this.identityManager := identityManager;
    }

    /** The inner loop of the probe over one person detection's user metas. */
    method ScanFace(obj: ObjectMeta, frameNum: int) returns (faceEmbedding: Option<Embedding>, faceIdentity: string)
      requires identityManager.Valid()
      modifies this`knownFaceEmbeddings
      ensures FaceScan(faceEmbedding, faceIdentity, knownFaceEmbeddings)
           == ScanUserMetas(obj.userMetas, obj.objectId, frameNum, old(knownFaceEmbeddings),
                            identityManager.knownFaces, identityManager.similarity)
    {
      var trackId := obj.objectId;
      faceEmbedding, faceIdentity := None, Unknown;
      for i := 0 to |obj.userMetas|
        invariant FaceScan(faceEmbedding, faceIdentity, knownFaceEmbeddings)
               == ScanUserMetas(obj.userMetas[..i], trackId, frameNum, old(knownFaceEmbeddings),
                                identityManager.knownFaces, identityManager.similarity)
      {
        assert obj.userMetas[..i + 1][..i] == obj.userMetas[..i];
        match obj.userMetas[i]
        case OtherUserMeta =>
        case TensorOutput(t) =>
          faceEmbedding := t;
          if t.Some? && trackId !in knownFaceEmbeddings {
            knownFaceEmbeddings := knownFaceEmbeddings[trackId := TrackEntry(t.value, frameNum)];
            faceIdentity := identityManager.IdentifyFace(t.value);
          } else if trackId in knownFaceEmbeddings {
            // The entry has no "identity" key, so the lookup yields its default.
            faceIdentity := Unknown;
          }
      }
      assert obj.userMetas[..|obj.userMetas|] == obj.userMetas;
    }

    /** The loop over one frame's detections, building a record per person. */
    method CollectObjects(frame: FrameMeta) returns (frameObjects: seq<ObjectRecord>)
      requires identityManager.Valid()
      modifies this`knownFaceEmbeddings
      ensures FrameScan(frameObjects, knownFaceEmbeddings)
           == ScanObjects(frame.objects, frame.frameNum, old(knownFaceEmbeddings),
                          identityManager.knownFaces, identityManager.similarity)
    {
      frameObjects := [];
      for i := 0 to |frame.objects|
        invariant FrameScan(frameObjects, knownFaceEmbeddings)
               == ScanObjects(frame.objects[..i], frame.frameNum, old(knownFaceEmbeddings),
                              identityManager.knownFaces, identityManager.similarity)
      {
        assert frame.objects[..i + 1][..i] == frame.objects[..i];
        var obj := frame.objects[i];
        if obj.classId != PersonClassId {
          continue;
        }
        var faceEmbedding, faceIdentity := ScanFace(obj, frame.frameNum);
        frameObjects := frameObjects + [RecordOf(obj, FaceScan(faceEmbedding, faceIdentity, knownFaceEmbeddings))];
      }
      assert frame.objects[..|frame.objects|] == frame.objects;
    }

    /**
     * `all_data_probe`: for a buffer carrying batch metadata, one record per
     * frame is built and handed to the metadata client, in frame order; the
     * client's failures are caught, so the probe always answers OK.  `buffer`
     * is None when the probe sees no buffer; `sent` lists the records handed
     * over.
     */
    method AllDataProbe(buffer: Option<seq<FrameMeta>>, clock: nat -> string) returns (ret: PadProbeReturn, sent: seq<FrameRecord>)
      requires identityManager.Valid()
      modifies this`knownFaceEmbeddings
      ensures ret == ProbeOk
      ensures buffer.None? ==> sent == [] && knownFaceEmbeddings == old(knownFaceEmbeddings)
      ensures buffer.Some? ==>
                BatchScan(sent, knownFaceEmbeddings)
                == ScanBatch(buffer.value, old(knownFaceEmbeddings), identityManager.knownFaces,
                             identityManager.similarity, clock)
    {
      sent := [];
      if buffer.None? {
        return ProbeOk, sent;
      }
      var frames := buffer.value;
      for i := 0 to |frames|
        invariant BatchScan(sent, knownFaceEmbeddings)
               == ScanBatch(frames[..i], old(knownFaceEmbeddings), identityManager.knownFaces,
                            identityManager.similarity, clock)
      {
        assert frames[..i + 1][..i] == frames[..i];
        var frame := frames[i];
        var frameObjects := CollectObjects(frame);
        var frameRecord := FrameRecord(clock(i), frame.frameNum, frame.sourceId, frameObjects);
        // Handing the record to the metadata client; whatever it reports or
        // raises is caught and ignored.
        sent := sent + [frameRecord];
      }
      assert frames[..|frames|] == frames;
      ret := ProbeOk;
    }
  }
}
