/** Chunk streaming: the set of loaded chunk keys and the list of created chunks, reconciled
    against the camera position once per frame. */
module Streaming {
  import opened Terrain

  /** Radius of the load window, in chunks. */
  const RenderDistance: int := 2

  /** Width of the load window, in chunks. */
  const WindowWidth: int := 2 * RenderDistance + 1

  /** Distance from the camera, in world units, beyond which a chunk's corner is evicted. */
  const RetainLimit: int := (RenderDistance + 1) * ChunkSize

  /** A chunk key: the chunk's grid coordinates (x, z). */
  type Key = (int, int)

  /** A created chunk: the world position of its corner (the group position) and its blocks. */
  datatype Chunk = Chunk(x: int, z: int, blocks: seq<Block>)

  function Abs(r: real): real
  {
    if r < 0.0 then -r else r
  }

  /** The chunk coordinate containing world coordinate `c`: floor(c / 16). */
  function ChunkCoord(c: real): (k: int)
    ensures (k * ChunkSize) as real <= c < ((k + 1) * ChunkSize) as real
  {
    (c / 16.0).Floor
  }

  /** The key a chunk is deleted under: its position divided by the chunk size. */
  function KeyOf(c: Chunk): (k: Key)
    ensures c.x % ChunkSize == 0 ==> k.0 * ChunkSize == c.x
    ensures c.z % ChunkSize == 0 ==> k.1 * ChunkSize == c.z
  {
    (c.x / ChunkSize, c.z / ChunkSize)
  }

  /** The chunk created for key `k`, placed at the key's corner. */
  function NewChunk(k: Key, noise: Noise): (c: Chunk)
    ensures KeyOf(c) == k
  {
    Chunk(k.0 * ChunkSize, k.1 * ChunkSize, ChunkBlocks(k.0, k.1, noise))
  }

  /** The eviction test of the unload pass, measured from the chunk's corner. */
  predicate Far(c: Chunk, camX: real, camZ: real): (far: bool)
    ensures c.x % ChunkSize == 0 && c.z % ChunkSize == 0 ==> (far <==> FarKey(KeyOf(c), camX, camZ))
  {
    Abs(camX - c.x as real) > RetainLimit as real || Abs(camZ - c.z as real) > RetainLimit as real
  }

  /** The same test along one axis, for the chunk with grid coordinate `k` on that axis. */
  predicate FarCoord(k: int, cam: real)
  {
    Abs(cam - (k * ChunkSize) as real) > RetainLimit as real
  }

  predicate FarKey(k: Key, camX: real, camZ: real)
  {
    FarCoord(k.0, camX) || FarCoord(k.1, camZ)
  }

  /** Keys (x, zLo), ..., (x, zHi - 1): the inner loop's keys, in order. */
  function Column(x: int, zLo: int, zHi: int): (keys: seq<Key>)
    ensures |keys| == if zLo <= zHi then zHi - zLo else 0
    decreases zHi - zLo
  {
    if zHi <= zLo then [] else Column(x, zLo, zHi - 1) + [(x, zHi - 1)]
  }

  /** Columns xLo, ..., xHi - 1, each of window width: the outer loop's keys, in order. */
  function Rows(xLo: int, xHi: int, zLo: int): (keys: seq<Key>)
    ensures xLo <= xHi ==> |keys| == (xHi - xLo) * WindowWidth
    decreases xHi - xLo
  {
    if xHi <= xLo then [] else Rows(xLo, xHi - 1, zLo) + Column(xHi - 1, zLo, zLo + WindowWidth)
  }

  /** The keys the load pass visits around center chunk (px, pz), in visiting order. */
  function Window(px: int, pz: int): (keys: seq<Key>)
    ensures |keys| == WindowWidth * WindowWidth
  {
    Rows(px - RenderDistance, px + RenderDistance + 1, pz - RenderDistance)
  }

  function Elements(s: seq<Key>): set<Key>
  {
    set k | k in s
  }

  predicate NoDuplicates(s: seq<Key>)
  {
    forall i, j :: 0 <= i < j < |s| ==> s[i] != s[j]
  }

  /** The chunks the load pass creates while visiting `keys`, given the keys loaded
      beforehand: one for each key not loaded, in visiting order. */
  function Spawned(loaded: set<Key>, keys: seq<Key>, noise: Noise): (cs: seq<Chunk>)
    ensures |cs| <= |keys|
  {
    if keys == [] then []
    else
      var last := keys[|keys| - 1];
      Spawned(loaded, keys[..|keys| - 1], noise) + (if last in loaded then [] else [NewChunk(last, noise)])
  }

  /** The keys the unload pass deletes when it walks `chunks`. */
  function Evicted(chunks: seq<Chunk>, camX: real, camZ: real): (keys: set<Key>)
    ensures keys <= KeysOf(chunks)
  {
    set c | c in chunks && Far(c, camX, camZ) :: KeyOf(c)
  }

  function KeysOf(chunks: seq<Chunk>): set<Key>
  {
    set c | c in chunks :: KeyOf(c)
  }

  /** What the streamer keeps true: each recorded chunk is the chunk generated for its key,
      and each loaded key has a recorded chunk. */
  predicate Consistent(loaded: set<Key>, chunks: seq<Chunk>, noise: Noise)
  {
    (forall c :: c in chunks ==> c == NewChunk(KeyOf(c), noise)) && loaded <= KeysOf(chunks)
  }

  /** The chunk list after one reconciliation at camera (camX, camZ). */
  function NextChunks(loaded: set<Key>, chunks: seq<Chunk>, camX: real, camZ: real, noise: Noise): (next: seq<Chunk>)
    ensures chunks <= next
  {
    chunks + Spawned(loaded, Window(ChunkCoord(camX), ChunkCoord(camZ)), noise)
  }

  /** The loaded keys after one reconciliation at camera (camX, camZ). */
  function NextLoaded(loaded: set<Key>, chunks: seq<Chunk>, camX: real, camZ: real, noise: Noise): (next: set<Key>)
    ensures next <= loaded + Elements(Window(ChunkCoord(camX), ChunkCoord(camZ)))
  {
    (loaded + Elements(Window(ChunkCoord(camX), ChunkCoord(camZ))))
      - Evicted(NextChunks(loaded, chunks, camX, camZ, noise), camX, camZ)
  }

  // ---------------------------------------------------------------------------------------
  // The window

  lemma {:induction false} ColumnMembers(x: int, zLo: int, zHi: int, k: Key)
    ensures k in Column(x, zLo, zHi) <==> k.0 == x && zLo <= k.1 < zHi
    decreases zHi - zLo
  {
    if zLo < zHi {
      ColumnMembers(x, zLo, zHi - 1, k);
    }
  }

  lemma {:induction false} RowsMembers(xLo: int, xHi: int, zLo: int, k: Key)
    ensures k in Rows(xLo, xHi, zLo) <==> xLo <= k.0 < xHi && zLo <= k.1 < zLo + WindowWidth
    decreases xHi - xLo
  {
    if xLo < xHi {
      RowsMembers(xLo, xHi - 1, zLo, k);
      ColumnMembers(xHi - 1, zLo, zLo + WindowWidth, k);
    }
  }

  /** The window is the square of keys within Chebyshev distance RenderDistance of its center. */
  lemma WindowMembers(px: int, pz: int, k: Key)
    ensures k in Window(px, pz) <==>
      px - RenderDistance <= k.0 <= px + RenderDistance &&
      pz - RenderDistance <= k.1 <= pz + RenderDistance
  {
    RowsMembers(px - RenderDistance, px + RenderDistance + 1, pz - RenderDistance, k);
  }

  lemma {:induction false} ColumnDistinct(x: int, zLo: int, zHi: int)
    requires zLo <= zHi
    ensures |Column(x, zLo, zHi)| == zHi - zLo
    ensures NoDuplicates(Column(x, zLo, zHi))
    decreases zHi - zLo
  {
    if zLo < zHi {
      ColumnDistinct(x, zLo, zHi - 1);
      ColumnMembers(x, zLo, zHi - 1, (x, zHi - 1));
    }
  }

  lemma {:induction false} RowsDistinct(xLo: int, xHi: int, zLo: int)
    ensures NoDuplicates(Rows(xLo, xHi, zLo))
    decreases xHi - xLo
  {
    if xLo < xHi {
      RowsDistinct(xLo, xHi - 1, zLo);
      ColumnDistinct(xHi - 1, zLo, zLo + WindowWidth);
      var a, b := Rows(xLo, xHi - 1, zLo), Column(xHi - 1, zLo, zLo + WindowWidth);
      forall i, j | 0 <= i < |a| && 0 <= j < |b|
        ensures a[i] != b[j]
      {
        RowsMembers(xLo, xHi - 1, zLo, a[i]);
        ColumnMembers(xHi - 1, zLo, zLo + WindowWidth, b[j]);
      }
    }
  }

  /** Every key of the window is visited once. */
  lemma WindowDistinct(px: int, pz: int)
    ensures |Window(px, pz)| == WindowWidth * WindowWidth
    ensures NoDuplicates(Window(px, pz))
  {
    RowsDistinct(px - RenderDistance, px + RenderDistance + 1, pz - RenderDistance);
  }

  /** No window key is ever far from the camera: its corner lies within 48 on both axes. */
  lemma WindowNeverFar(camX: real, camZ: real, k: Key)
    requires k in Window(ChunkCoord(camX), ChunkCoord(camZ))
    ensures !FarKey(k, camX, camZ)
  {
    WindowMembers(ChunkCoord(camX), ChunkCoord(camZ), k);
  }

  // ---------------------------------------------------------------------------------------
  // The load pass

  lemma {:induction false} SpawnedAppend(loaded: set<Key>, keys: seq<Key>, k: Key, noise: Noise)
    ensures Spawned(loaded, keys + [k], noise)
         == Spawned(loaded, keys, noise) + (if k in loaded then [] else [NewChunk(k, noise)])
  {
    assert (keys + [k])[..|keys|] == keys;
  }

  lemma {:induction false} SpawnedKeys(loaded: set<Key>, keys: seq<Key>, noise: Noise, k: Key)
    ensures k in KeysOf(Spawned(loaded, keys, noise)) <==> k in keys && k !in loaded
  {
    if keys != [] {
      var init, last := keys[..|keys| - 1], keys[|keys| - 1];
      SpawnedKeys(loaded, init, noise, k);
      assert keys == init + [last];
      KeysOfAppend(Spawned(loaded, init, noise), if last in loaded then [] else [NewChunk(last, noise)]);
    }
  }

  lemma {:induction false} SpawnedWellFormed(loaded: set<Key>, keys: seq<Key>, noise: Noise)
    ensures forall c :: c in Spawned(loaded, keys, noise) ==> c == NewChunk(KeyOf(c), noise)
  {
    if keys != [] {
      SpawnedWellFormed(loaded, keys[..|keys| - 1], noise);
    }
  }

  /** No two chunks of `cs` share a key. */
  predicate DistinctKeys(cs: seq<Chunk>)
  {
    forall i, j :: 0 <= i < j < |cs| ==> KeyOf(cs[i]) != KeyOf(cs[j])
  }

  lemma {:induction false} SpawnedDistinct(loaded: set<Key>, keys: seq<Key>, noise: Noise)
    requires NoDuplicates(keys)
    ensures DistinctKeys(Spawned(loaded, keys, noise))
  {
    if keys != [] {
      var init, last := keys[..|keys| - 1], keys[|keys| - 1];
      var sp0 := Spawned(loaded, init, noise);
      SpawnedDistinct(loaded, init, noise);
      if last !in loaded {
        SpawnedKeys(loaded, init, noise, last);
        assert last !in init;
        forall i | 0 <= i < |sp0|
          ensures KeyOf(sp0[i]) != last
        {
          assert sp0[i] in sp0;
        }
      }
    }
  }

  lemma {:induction false} SpawnedNone(loaded: set<Key>, keys: seq<Key>, noise: Noise)
    requires forall k :: k in keys ==> k in loaded
    ensures Spawned(loaded, keys, noise) == []
  {
    if keys != [] {
      SpawnedNone(loaded, keys[..|keys| - 1], noise);
    }
  }

  /** One step of the load pass's inner loop: key (x, z) has not been visited yet, and
      visiting it appends it to the visited keys. */
  lemma VisitStep(xLo: int, x: int, zLo: int, z: int, zNext: int)
    requires xLo <= x && zLo <= z && zNext == z + 1
    ensures (x, z) !in Rows(xLo, x, zLo) + Column(x, zLo, z)
    ensures Rows(xLo, x, zLo) + Column(x, zLo, zNext) == Rows(xLo, x, zLo) + Column(x, zLo, z) + [(x, z)]
  {
    RowsMembers(xLo, x, zLo, (x, z));
    ColumnMembers(x, zLo, z, (x, z));
  }

  /** The inner loop starts a column with nothing of it visited. */
  lemma ColumnStart(xLo: int, x: int, zLo: int)
    ensures Rows(xLo, x, zLo) + Column(x, zLo, zLo) == Rows(xLo, x, zLo)
  {
    assert Column(x, zLo, zLo) == [];
    assert Rows(xLo, x, zLo) + [] == Rows(xLo, x, zLo);
  }

  /** The inner loop ends with the column complete: one more column of the window visited. */
  lemma ColumnEnd(xLo: int, x: int, xNext: int, zLo: int, zHi: int)
    requires xLo <= x && xNext == x + 1 && zHi == zLo + WindowWidth
    ensures Rows(xLo, x, zLo) + Column(x, zLo, zHi) == Rows(xLo, xNext, zLo)
  {
  }

  /** Before the load pass has visited anything, nothing has changed. */
  lemma LoadStart(loaded: set<Key>, chunks: seq<Chunk>, xLo: int, zLo: int, noise: Noise)
    ensures loaded + Elements(Rows(xLo, xLo, zLo)) == loaded
    ensures chunks + Spawned(loaded, Rows(xLo, xLo, zLo), noise) == chunks
  {
    assert Rows(xLo, xLo, zLo) == [];
    assert chunks + [] == chunks;
  }

  /** One step of the load pass, on the loaded keys: a key not visited before is loaded
      exactly when it was loaded at the start, and visiting it leaves it loaded. */
  lemma LoadStepKeys(loaded0: set<Key>, visited: seq<Key>, key: Key, loaded: set<Key>)
    requires key !in visited
    requires loaded == loaded0 + Elements(visited)
    ensures key in loaded <==> key in loaded0
    ensures loaded + {key} == loaded0 + Elements(visited + [key])
  {
    assert Elements(visited + [key]) == Elements(visited) + {key};
  }

  /** One step of the load pass, on the chunk list: visiting a key appends its chunk exactly
      when the key was not loaded at the start. */
  lemma LoadStepChunks(loaded0: set<Key>, chunks0: seq<Chunk>, visited: seq<Key>, key: Key,
                       chunks: seq<Chunk>, noise: Noise)
    requires chunks == chunks0 + Spawned(loaded0, visited, noise)
    ensures key in loaded0 ==> chunks == chunks0 + Spawned(loaded0, visited + [key], noise)
    ensures key !in loaded0 ==>
      chunks + [NewChunk(key, noise)] == chunks0 + Spawned(loaded0, visited + [key], noise)
  {
    SpawnedAppend(loaded0, visited, key, noise);
  }

  /** The load pass creates one chunk for each window key that was not loaded beforehand,
      and for no other key, each at most once; the earlier chunks stay in place. */
  lemma LoadsExactlyMissing(loaded: set<Key>, chunks: seq<Chunk>, camX: real, camZ: real, noise: Noise)
    ensures var next := NextChunks(loaded, chunks, camX, camZ, noise);
      chunks <= next &&
      (forall i :: |chunks| <= i < |next| ==> next[i] == NewChunk(KeyOf(next[i]), noise)) &&
      (forall k :: k in KeysOf(next[|chunks|..]) <==>
         k in Window(ChunkCoord(camX), ChunkCoord(camZ)) && k !in loaded) &&
      (forall i, j :: |chunks| <= i < j < |next| ==> KeyOf(next[i]) != KeyOf(next[j]))
  {
    var w := Window(ChunkCoord(camX), ChunkCoord(camZ));
    var sp := Spawned(loaded, w, noise);
    var next := NextChunks(loaded, chunks, camX, camZ, noise);
    assert next[|chunks|..] == sp;
    WindowDistinct(ChunkCoord(camX), ChunkCoord(camZ));
    SpawnedWellFormed(loaded, w, noise);
    SpawnedDistinct(loaded, w, noise);
    forall k
      ensures k in KeysOf(sp) <==> k in w && k !in loaded
    {
      SpawnedKeys(loaded, w, noise, k);
    }
    forall i | |chunks| <= i < |next|
      ensures next[i] == NewChunk(KeyOf(next[i]), noise)
    {
      assert next[i] == sp[i - |chunks|];
      assert sp[i - |chunks|] in sp;
    }
    forall i, j | |chunks| <= i < j < |next|
      ensures KeyOf(next[i]) != KeyOf(next[j])
    {
      assert next[i] == sp[i - |chunks|] && next[j] == sp[j - |chunks|];
      assert KeyOf(sp[i - |chunks|]) != KeyOf(sp[j - |chunks|]);
    }
  }

  // ---------------------------------------------------------------------------------------
  // The unload pass and the whole reconciliation

  /** For consistent chunks, the unload pass deletes exactly the recorded keys that are far. */
  lemma EvictedMembers(chunks: seq<Chunk>, camX: real, camZ: real, noise: Noise, k: Key)
    requires forall c :: c in chunks ==> c == NewChunk(KeyOf(c), noise)
    ensures k in Evicted(chunks, camX, camZ) <==> k in KeysOf(chunks) && FarKey(k, camX, camZ)
  {
    if k in KeysOf(chunks) {
      var c :| c in chunks && KeyOf(c) == k;
      assert c.x == k.0 * ChunkSize && c.z == k.1 * ChunkSize;
      if FarKey(k, camX, camZ) {
        assert Far(c, camX, camZ);
      }
    }
  }

  lemma EvictedAppend(chunks: seq<Chunk>, c: Chunk, camX: real, camZ: real)
    ensures Evicted(chunks + [c], camX, camZ)
         == Evicted(chunks, camX, camZ) + (if Far(c, camX, camZ) then {KeyOf(c)} else {})
  {
    forall k | k in Evicted(chunks + [c], camX, camZ)
      ensures k in Evicted(chunks, camX, camZ) + (if Far(c, camX, camZ) then {KeyOf(c)} else {})
    {
      var d :| d in chunks + [c] && Far(d, camX, camZ) && KeyOf(d) == k;
      if d != c {
        assert d in chunks;
      }
    }
  }

  lemma KeysOfAppend(a: seq<Chunk>, b: seq<Chunk>)
    ensures KeysOf(a + b) == KeysOf(a) + KeysOf(b)
  {
    forall k | k in KeysOf(a + b)
      ensures k in KeysOf(a) + KeysOf(b)
    {
      var c :| c in a + b && KeyOf(c) == k;
    }
  }

  /** After a reconciliation the loaded keys are exactly the keys that were loaded or lie in
      the window, less those whose corner is more than 48 from the camera on x or z. */
  lemma LoadedAfter(loaded: set<Key>, chunks: seq<Chunk>, camX: real, camZ: real, noise: Noise, k: Key)
    requires Consistent(loaded, chunks, noise)
    ensures k in NextLoaded(loaded, chunks, camX, camZ, noise) <==>
      (k in loaded || k in Window(ChunkCoord(camX), ChunkCoord(camZ))) && !FarKey(k, camX, camZ)
  {
    var w := Window(ChunkCoord(camX), ChunkCoord(camZ));
    var next := NextChunks(loaded, chunks, camX, camZ, noise);
    LoadsExactlyMissing(loaded, chunks, camX, camZ, noise);
    assert next == chunks + next[|chunks|..];
    KeysOfAppend(chunks, next[|chunks|..]);
    forall c | c in next
      ensures c == NewChunk(KeyOf(c), noise)
    {
      var i :| 0 <= i < |next| && next[i] == c;
    }
    EvictedMembers(next, camX, camZ, noise, k);
  }

  /** Every key of the window is loaded after a reconciliation. */
  lemma CoversWindow(loaded: set<Key>, chunks: seq<Chunk>, camX: real, camZ: real, noise: Noise, k: Key)
    requires Consistent(loaded, chunks, noise)
    requires k in Window(ChunkCoord(camX), ChunkCoord(camZ))
    ensures k in NextLoaded(loaded, chunks, camX, camZ, noise)
  {
    WindowNeverFar(camX, camZ, k);
    LoadedAfter(loaded, chunks, camX, camZ, noise, k);
  }

  /** A reconciliation keeps the streamer consistent. */
  lemma ConsistentPreserved(loaded: set<Key>, chunks: seq<Chunk>, camX: real, camZ: real, noise: Noise)
    requires Consistent(loaded, chunks, noise)
    ensures Consistent(NextLoaded(loaded, chunks, camX, camZ, noise),
                       NextChunks(loaded, chunks, camX, camZ, noise), noise)
  {
    var next := NextChunks(loaded, chunks, camX, camZ, noise);
    LoadsExactlyMissing(loaded, chunks, camX, camZ, noise);
    assert next == chunks + next[|chunks|..];
    KeysOfAppend(chunks, next[|chunks|..]);
    forall c | c in next
      ensures c == NewChunk(KeyOf(c), noise)
    {
      var i :| 0 <= i < |next| && next[i] == c;
    }
  }

  /** A second reconciliation at the same camera position changes nothing. */
  lemma Idempotent(loaded: set<Key>, chunks: seq<Chunk>, camX: real, camZ: real, noise: Noise)
    requires Consistent(loaded, chunks, noise)
    ensures var loaded1 := NextLoaded(loaded, chunks, camX, camZ, noise);
            var chunks1 := NextChunks(loaded, chunks, camX, camZ, noise);
            NextChunks(loaded1, chunks1, camX, camZ, noise) == chunks1 &&
            NextLoaded(loaded1, chunks1, camX, camZ, noise) == loaded1
  {
    var w := Window(ChunkCoord(camX), ChunkCoord(camZ));
    var loaded1 := NextLoaded(loaded, chunks, camX, camZ, noise);
    var chunks1 := NextChunks(loaded, chunks, camX, camZ, noise);
    forall k | k in w
      ensures k in loaded1
    {
      CoversWindow(loaded, chunks, camX, camZ, noise, k);
    }
    SpawnedNone(loaded1, w, noise);
    assert NextChunks(loaded1, chunks1, camX, camZ, noise) == chunks1;
  }

  /** The eviction test is measured from the chunk's corner, so retention is lopsided: with
      the camera in chunk column px, column px + 3 is always kept, px + 4 and px - 4 always go,
      and px - 3 is kept only when the camera stands exactly on column px's west edge. */
  lemma EvictionFromCorner(cam: real)
    ensures !FarCoord(ChunkCoord(cam) + 3, cam)
    ensures FarCoord(ChunkCoord(cam) + 4, cam)
    ensures FarCoord(ChunkCoord(cam) - 4, cam)
    ensures FarCoord(ChunkCoord(cam) - 3, cam) <==> cam != (ChunkCoord(cam) * ChunkSize) as real
  {
  }

  // In the scenario lemmas below the camera coordinates are parameters fixed by the
  // precondition rather than literal arguments: with literals the verifier unfolds the whole
  // window and the eviction walk and runs out of resources.

  /** From a consistent state holding key (0, 0), reconciling at (48, 0), in chunk (3, 0),
      loads every key with x in [1, 5] and z in [-2, 2] and keeps key (0, 0), whose corner is
      exactly 48 away. */
  lemma RetainedAtEdge(loaded: set<Key>, chunks: seq<Chunk>, noise: Noise, k: Key,
                       east: real, origin: real)
    requires Consistent(loaded, chunks, noise) && (0, 0) in loaded
    requires east == 48.0 && origin == 0.0
    requires 1 <= k.0 <= 5 && -2 <= k.1 <= 2
    ensures k in NextLoaded(loaded, chunks, east, origin, noise)
    ensures (0, 0) in NextLoaded(loaded, chunks, east, origin, noise)
  {
    assert ChunkCoord(east) == 3 && ChunkCoord(origin) == 0;
    WindowMembers(3, 0, k);
    CoversWindow(loaded, chunks, east, origin, noise, k);
    LoadedAfter(loaded, chunks, east, origin, noise, (0, 0));
  }

  /** Reconciling at (49, 0) evicts key (0, 0), from any consistent state. */
  lemma EvictedPastEdge(loaded: set<Key>, chunks: seq<Chunk>, noise: Noise, further: real, origin: real)
    requires Consistent(loaded, chunks, noise)
    requires further == 49.0 && origin == 0.0
    ensures (0, 0) !in NextLoaded(loaded, chunks, further, origin, noise)
  {
    LoadedAfter(loaded, chunks, further, origin, noise, (0, 0));
  }

  /** Reconciling at the origin and then at (48, 0), a move from chunk (0, 0) to chunk (3, 0):
      every key with x in [1, 5] and z in [-2, 2] is loaded, and so is key (0, 0), whose corner
      is exactly 48 away. Reconciling at (49, 0) instead, from the state reached at the origin,
      evicts key (0, 0). */
  lemma MoveThreeChunksEast(loaded: set<Key>, chunks: seq<Chunk>, noise: Noise, k: Key,
                            origin: real, east: real, further: real)
    requires Consistent(loaded, chunks, noise)
    requires origin == 0.0 && east == 48.0 && further == 49.0
    requires 1 <= k.0 <= 5 && -2 <= k.1 <= 2
    ensures var l1 := NextLoaded(loaded, chunks, origin, origin, noise);
            var c1 := NextChunks(loaded, chunks, origin, origin, noise);
            k in NextLoaded(l1, c1, east, origin, noise) &&
            (0, 0) in NextLoaded(l1, c1, east, origin, noise) &&
            (0, 0) !in NextLoaded(l1, c1, further, origin, noise)
  {
    var l1 := NextLoaded(loaded, chunks, origin, origin, noise);
    var c1 := NextChunks(loaded, chunks, origin, origin, noise);
    assert ChunkCoord(origin) == 0;
    WindowMembers(0, 0, (0, 0));
    CoversWindow(loaded, chunks, origin, origin, noise, (0, 0));
    ConsistentPreserved(loaded, chunks, origin, origin, noise);
    RetainedAtEdge(l1, c1, noise, k, east, origin);
    EvictedPastEdge(l1, c1, noise, further, origin);
  }

  // ---------------------------------------------------------------------------------------
  // The streamer object

  /** The game's chunk bookkeeping: the set of loaded keys and the list of every chunk ever
      created (never shrunk). */
  class ChunkStreamer {
    var loaded: set<Key>
    var chunks: seq<Chunk>
    const noise: Noise

    ghost predicate Valid()
      reads this
    {
      Consistent(loaded, chunks, noise)
    }

    constructor (noise: Noise)
      ensures Valid()
      ensures loaded == {} && chunks == [] && this.noise == noise
    {
      loaded := {};
      chunks := [];
      this.noise := noise;
    }

    /** One reconciliation: load the window around the camera's chunk, then walk every
        recorded chunk and delete the key of each one that is too far away. */
    method LoadChunks(camX: real, camZ: real)
      requires Valid()
      modifies this
      ensures Valid()
      ensures chunks == NextChunks(old(loaded), old(chunks), camX, camZ, noise)
      ensures loaded == NextLoaded(old(loaded), old(chunks), camX, camZ, noise)
    {
      ConsistentPreserved(loaded, chunks, camX, camZ, noise);
      var px := ChunkCoord(camX);
      var pz := ChunkCoord(camZ);
      LoadWindow(px, pz);
      UnloadFar(camX, camZ);
    }

    /** The load pass has visited `keys`, starting from loaded keys `loaded0` and chunk list
        `chunks0`: every visited key is loaded, and the chunks of the keys missing at the
        start are appended in visiting order. */
    ghost predicate LoadedThrough(loaded0: set<Key>, chunks0: seq<Chunk>, keys: seq<Key>)
      reads this
    {
      loaded == loaded0 + Elements(keys) && chunks == chunks0 + Spawned(loaded0, keys, noise)
    }

    /** The load pass: visit the window around chunk (px, pz), x outer and z inner, and create,
        record and mark loaded each chunk whose key is not loaded yet. */
    method LoadWindow(px: int, pz: int)
      modifies this
      ensures LoadedThrough(old(loaded), old(chunks), Window(px, pz))
    {
      ghost var loaded0, chunks0 := loaded, chunks;
      var xLo, zLo := px - RenderDistance, pz - RenderDistance;
      assert LoadedThrough(loaded0, chunks0, Rows(xLo, xLo, zLo)) by {
        LoadStart(loaded0, chunks0, xLo, zLo, noise);
      }
      var x := xLo;
      while x <= px + RenderDistance
        invariant xLo <= x <= px + RenderDistance + 1
        invariant LoadedThrough(loaded0, chunks0, Rows(xLo, x, zLo))
      {
        var xNext := x + 1;
        LoadColumn(x, xNext, zLo, loaded0, chunks0, xLo);
        x := xNext;
      }
      assert Rows(xLo, x, zLo) == Window(px, pz);
    }

    /** One column of the load pass: visit keys (x, zLo) .. (x, zLo + 4) in order, after
        columns xLo .. x - 1. */
    method LoadColumn(x: int, ghost xNext: int, zLo: int, ghost loaded0: set<Key>,
                      ghost chunks0: seq<Chunk>, ghost xLo: int)
      requires xLo <= x && xNext == x + 1 && LoadedThrough(loaded0, chunks0, Rows(xLo, x, zLo))
      modifies this
      ensures LoadedThrough(loaded0, chunks0, Rows(xLo, xNext, zLo))
    {
      assert LoadedThrough(loaded0, chunks0, Rows(xLo, x, zLo) + Column(x, zLo, zLo)) by {
        ColumnStart(xLo, x, zLo);
      }
      var z := zLo;
      while z < zLo + WindowWidth
        invariant zLo <= z <= zLo + WindowWidth
        invariant LoadedThrough(loaded0, chunks0, Rows(xLo, x, zLo) + Column(x, zLo, z))
      {
        var zNext := z + 1;
        VisitStep(xLo, x, zLo, z, zNext);
        Visit(x, z, loaded0, chunks0, Rows(xLo, x, zLo) + Column(x, zLo, z),
              Rows(xLo, x, zLo) + Column(x, zLo, zNext));
        z := zNext;
      }
      ColumnEnd(xLo, x, xNext, zLo, z);
    }

    /** The body of the inner loop for key (x, z), not visited before: create, record and
        mark loaded its chunk unless the key is loaded already. Afterwards the keys visited
        are `next`, which is `visited` followed by (x, z). */
    method Visit(x: int, z: int, ghost loaded0: set<Key>, ghost chunks0: seq<Chunk>,
                 ghost visited: seq<Key>, ghost next: seq<Key>)
      requires (x, z) !in visited && next == visited + [(x, z)]
      requires LoadedThrough(loaded0, chunks0, visited)
      modifies this
      ensures LoadedThrough(loaded0, chunks0, next)
    {
      var key := (x, z);
      LoadStepKeys(loaded0, visited, key, loaded);
      LoadStepChunks(loaded0, chunks0, visited, key, chunks, noise);
      if key !in loaded {
        var blocks := CreateChunk(x, z, noise);
        chunks := chunks + [Chunk(x * ChunkSize, z * ChunkSize, blocks)];
        loaded := loaded + {key};
      }
    }

    /** The unload pass: walk every recorded chunk, including those evicted earlier, and
        delete the key of each one whose corner is more than 48 from the camera on x or z. */
    method UnloadFar(camX: real, camZ: real)
      modifies this`loaded
      ensures loaded == old(loaded) - Evicted(chunks, camX, camZ)
    {
      ghost var loaded0 := loaded;
      var i := 0;
      while i < |chunks|
        invariant 0 <= i <= |chunks|
        invariant loaded == loaded0 - Evicted(chunks[..i], camX, camZ)
      {
        var chunk := chunks[i];
        var dx := Abs(camX - chunk.x as real);
        var dz := Abs(camZ - chunk.z as real);
        assert chunks[..i + 1] == chunks[..i] + [chunk];
        EvictedAppend(chunks[..i], chunk, camX, camZ);
        if dx > RetainLimit as real || dz > RetainLimit as real {
          loaded := loaded - {(chunk.x / ChunkSize, chunk.z / ChunkSize)};
        }
        i := i + 1;
      }
      assert chunks[..i] == chunks;
    }
  }
}
