/**
 * The store of named reference face embeddings and its nearest-neighbour
 * lookup (`IdentityManager` in app/identity_manager.py).
 */
module Identity {
  import opened Common
  import opened OrderedDict

  /** A face embedding vector. */
  type Embedding = seq<real>

  /**
   * The similarity score of two embeddings.  The source computes the cosine
   * similarity in floating point; the model keeps it abstract, so everything
   * proved here holds for any scoring function.
   */
  type Similarity = (Embedding, Embedding) -> real

  /** Fixed when the manager is built and never changed. */
  const SimilarityThreshold: real := 0.6

  /** The running best score before any known face is scored. */
  const InitialBestScore: real := -1.0

  /** What `identify_face` answers when no known face matches. */
  const Unknown: string := "unknown"

  /** The score of the `i`-th known face (in iteration order) against `query`. */
  function ScoreAt(faces: Dict<string, Embedding>, query: Embedding, sim: Similarity, i: nat): real
    requires Valid(faces) && i < |faces.order|
  {
    sim(query, faces.entries[faces.order[i]])
  }

  /**
   * The position of the best match after the loop of `identify_face` has
   * visited the first `n` known faces, or -1 while none has beaten the initial
   * score: the earliest position whose score is maximal and above -1.
   */
  function BestIndex(faces: Dict<string, Embedding>, query: Embedding, sim: Similarity, n: nat): (k: int)
    requires Valid(faces) && n <= |faces.order|
    ensures -1 <= k < n
    ensures k == -1 ==> forall j :: 0 <= j < n ==> ScoreAt(faces, query, sim, j) <= InitialBestScore
    ensures k >= 0 ==> InitialBestScore < ScoreAt(faces, query, sim, k)
    ensures k >= 0 ==> forall j :: 0 <= j < n ==> ScoreAt(faces, query, sim, j) <= ScoreAt(faces, query, sim, k)
    ensures k >= 0 ==> forall j :: 0 <= j < k ==> ScoreAt(faces, query, sim, j) < ScoreAt(faces, query, sim, k)
  {
    if n == 0 then -1
    else
      var k := BestIndex(faces, query, sim, n - 1);
      var best := if k < 0 then InitialBestScore else ScoreAt(faces, query, sim, k);
      if ScoreAt(faces, query, sim, n - 1) > best then n - 1 else k
  }

  /**
   * The answer of `identify_face`: the name at the best position when its
   * score reaches the threshold, and "unknown" otherwise or when the store
   * is empty.
   */
  function Identify(faces: Dict<string, Embedding>, query: Embedding, sim: Similarity): string
    requires Valid(faces)
  {
    if faces.order == [] then Unknown
    else
      var k := BestIndex(faces, query, sim, |faces.order|);
      var best := if k < 0 then InitialBestScore else ScoreAt(faces, query, sim, k);
      if best >= SimilarityThreshold then faces.order[k] else Unknown
  }

  /**
   * What `identify_face` answers, in full: either some known face scores at
   * least the threshold, and the answer is the name of the earliest face with
   * the highest score; or none does, and the answer is "unknown".
   */
  lemma IdentifySelectsEarliestBest(faces: Dict<string, Embedding>, query: Embedding, sim: Similarity)
    requires Valid(faces)
    ensures var r := Identify(faces, query, sim);
      || (&& (exists j :: 0 <= j < |faces.order| && ScoreAt(faces, query, sim, j) >= SimilarityThreshold)
          && IsEarliestBest(faces, query, sim, r))
      || (&& (forall j :: 0 <= j < |faces.order| ==> ScoreAt(faces, query, sim, j) < SimilarityThreshold)
          && r == Unknown)
  {
    var n := |faces.order|;
    if n > 0 {
      var k := BestIndex(faces, query, sim, n);
      if k >= 0 && ScoreAt(faces, query, sim, k) >= SimilarityThreshold {
        assert IsEarliestBestAt(faces, query, sim, k);
      }
    }
  }

  /** `name` is the name at a position whose score is maximal, and no earlier position ties it. */
  ghost predicate IsEarliestBest(faces: Dict<string, Embedding>, query: Embedding, sim: Similarity, name: string)
    requires Valid(faces)
  {
    exists k :: 0 <= k < |faces.order| && faces.order[k] == name && IsEarliestBestAt(faces, query, sim, k)
  }

  ghost predicate IsEarliestBestAt(faces: Dict<string, Embedding>, query: Embedding, sim: Similarity, k: nat)
    requires Valid(faces) && k < |faces.order|
  {
    && (forall j :: 0 <= j < |faces.order| ==> ScoreAt(faces, query, sim, j) <= ScoreAt(faces, query, sim, k))
    && (forall j :: 0 <= j < k ==> ScoreAt(faces, query, sim, j) < ScoreAt(faces, query, sim, k))
  }

  /** The answer is "unknown" or a name currently in the store. */
  lemma IdentifyIsKnownOrUnknown(faces: Dict<string, Embedding>, query: Embedding, sim: Similarity)
    requires Valid(faces)
    ensures Identify(faces, query, sim) == Unknown || Identify(faces, query, sim) in faces.entries
  {
  }

  /**
   * Tie-break: when the face at position `i` has the highest score and that
   * score reaches the threshold, the answer is a name at position `i` or
   * earlier, so a later face with an equal score never wins.
   */
  lemma IdentifyTieGoesToEarlier(faces: Dict<string, Embedding>, query: Embedding, sim: Similarity, i: nat)
    requires Valid(faces) && i < |faces.order|
    requires ScoreAt(faces, query, sim, i) >= SimilarityThreshold
    requires forall m :: 0 <= m < |faces.order| ==> ScoreAt(faces, query, sim, m) <= ScoreAt(faces, query, sim, i)
    ensures Identify(faces, query, sim) in faces.order[..i + 1]
  {
    var k := BestIndex(faces, query, sim, |faces.order|);
    assert faces.order[..i + 1][k] == faces.order[k];
  }

  /** The known faces and the operations of `IdentityManager`. */
  class IdentityManager {
    /** `known_faces`: name to embedding, in insertion order. */
    var knownFaces: Dict<string, Embedding>
    /** `cosine_similarity`, abstracted. */
    const similarity: Similarity

    ghost predicate Valid() reads this {
      OrderedDict.Valid(knownFaces)
    }

    /**
     * `IdentityManager(path)`: an empty store, then the contents of the faces
     * file merged in when a path is given and the file exists and parses.
     * `stored` is that file's mapping, or None when there is no path, no file
     * or the load fails.
     */
    constructor (similarity: Similarity, stored: Option<seq<(string, Embedding)>>)
      ensures Valid()
      ensures this.similarity == similarity
      ensures stored.None? ==> knownFaces == Empty()
      ensures stored.Some? ==> knownFaces == PutAll(Empty(), stored.value)
    {
      this.similarity := similarity;
      knownFaces := Empty();
      new;
      if stored.Some? {
        LoadKnownFaces(stored);
      }
    }

    /**
     * `load_known_faces`: the parsed pairs are merged into the store one by
     * one, in file order, without clearing it.  `parsed` is None when the
     * file cannot be opened or parsed; that error is caught and the store is
     * left as it was.
     */
    method LoadKnownFaces(parsed: Option<seq<(string, Embedding)>>)
      requires Valid()
      modifies this`knownFaces
      ensures Valid()
      ensures parsed.None? ==> knownFaces == old(knownFaces)
      ensures parsed.Some? ==> knownFaces == PutAll(old(knownFaces), parsed.value)
      ensures knownFaces.entries == old(knownFaces.entries) + (if parsed.Some? then PairsToMap(parsed.value) else map[])
    {
      if parsed.Some? {
        var data := parsed.value;
        for i := 0 to |data|
          invariant knownFaces == PutAll(old(knownFaces), data[..i])
          invariant Valid()
        {
          assert data[..i + 1][..i] == data[..i];
          PutUpserts(knownFaces, data[i].0, data[i].1);
          knownFaces := Put(knownFaces, data[i].0, data[i].1);
        }
        assert data[..|data|] == data;
        PutAllMerges(old(knownFaces), data);
      }
    }

    /**
     * `identify_face`: scans the known faces in order, keeping the first one
     * whose score strictly beats the running best, and answers its name when
     * that best reaches the threshold.
     */
    method IdentifyFace(embedding: Embedding) returns (identity: string)
      requires Valid()
      ensures identity == Identify(knownFaces, embedding, similarity)
      ensures identity == Unknown || identity in knownFaces.entries
      ensures knownFaces.entries == map[] ==> identity == Unknown
    {
      if |knownFaces.order| == 0 {
        return Unknown;
      }
      var bestMatch: Option<string> := None;
      var bestScore := InitialBestScore;
      for i := 0 to |knownFaces.order|
        invariant var k := BestIndex(knownFaces, embedding, similarity, i);
          && bestMatch == (if k < 0 then None else Some(knownFaces.order[k]))
          && bestScore == (if k < 0 then InitialBestScore else ScoreAt(knownFaces, embedding, similarity, k))
      {
        var name := knownFaces.order[i];
        var score := similarity(embedding, knownFaces.entries[name]);
        if score > bestScore {
          bestScore := score;
          bestMatch := Some(name);
        }
      }
      if bestScore >= SimilarityThreshold {
        identity := bestMatch.value;
      } else {
        identity := Unknown;
      }
      assert knownFaces.order[0] in knownFaces.entries;
    }

    /** `add_known_face`: upserts `identity`; every other entry is unchanged. */
    method AddKnownFace(embedding: Embedding, identity: string)
      requires Valid()
      modifies this`knownFaces
      ensures Valid()
      ensures knownFaces == Put(old(knownFaces), identity, embedding)
      ensures knownFaces.entries == old(knownFaces.entries)[identity := embedding]
    {
      PutUpserts(knownFaces, identity, embedding);
      knownFaces := Put(knownFaces, identity, embedding);
    }

    /** `remove_known_face`: deletes `identity` when present, and nothing else. */
    method RemoveKnownFace(identity: string)
      requires Valid()
      modifies this`knownFaces
      ensures Valid()
      ensures knownFaces == Remove(old(knownFaces), identity)
      ensures knownFaces.entries == old(knownFaces.entries) - {identity}
      ensures identity !in old(knownFaces.entries) ==> knownFaces == old(knownFaces)
    {
      RemoveDeletesOnly(knownFaces, identity);
      if identity in knownFaces.entries {
        knownFaces := Remove(knownFaces, identity);
      }
    }

    /** `get_all_identities`: every current name once, in iteration order. */
    function GetAllIdentities(): (names: seq<string>)
      requires Valid()
      reads this
      ensures forall n :: n in names <==> n in knownFaces.entries
      ensures NoDuplicates(names)
      ensures |names| == |knownFaces.entries|
    {
      DistinctCount(knownFaces);
      knownFaces.order
    }
  }

  /** A valid dict has as many keys as positions in its order. */
  lemma {:induction false} DistinctCount<K, V>(d: Dict<K, V>)
    requires OrderedDict.Valid(d)
    ensures |d.entries| == |d.order|
    decreases |d.order|
  {
    if d.order != [] {
      var k := d.order[|d.order| - 1];
      var rest := Dict(d.order[..|d.order| - 1], d.entries - {k});
      assert forall i | 0 <= i < |rest.order| :: rest.order[i] == d.order[i];
      DistinctCount(rest);
    }
  }
}
