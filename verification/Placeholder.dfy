/**
 The default image: its objects are put once, by whichever replica comes first, and read as a cache of the
 in-memory render.
 */
module Placeholder {
  import opened Wrappers
  import opened Keys
  import opened Catalogs
  import opened Rendering

  type KeyMap = map<string, map<Format, string>>

  datatype Default = Default(raw: Bytes, img: Option<Image>, contentType: string, originalKey: string, keys: KeyMap)
  {
    predicate Configured() {
      raw != [] && img.Some?
    }
  }

  /** buildPlaceholderKeyMap. */
  method BuildKeyMap(sizes: seq<string>) returns (keys: KeyMap)
    ensures forall size :: size in keys <==> size in sizes
    ensures forall size | size in keys ::
      keys[size] == map f | f in ALL_FORMATS :: KeyString(PlaceholderThumbnail(size, f))
  {
    hide KeyString;
    keys := map[];
    for i := 0 to |sizes|
      invariant forall size :: size in keys <==> size in sizes[..i]
      invariant forall size | size in keys ::
        keys[size] == map f | f in ALL_FORMATS :: KeyString(PlaceholderThumbnail(size, f))
    {
      var byFormat: map<Format, string> := map[];
      for j := 0 to |FORMATS|
        invariant byFormat == map f | f in FORMATS[..j] :: KeyString(PlaceholderThumbnail(sizes[i], f))
      {
        byFormat := byFormat[FORMATS[j] := KeyString(PlaceholderThumbnail(sizes[i], FORMATS[j]))];
      }
      EveryFormat();
      keys := keys[sizes[i] := byFormat];
    }
  }

  lemma EveryFormat()
    ensures forall f :: f in FORMATS[..3] <==> f in ALL_FORMATS
  {
    assert FORMATS[..3] == [Jpeg, Png, Webp];
    forall f
      ensures f in FORMATS[..3]
    {
      assert f == FORMATS[..3][if f.Jpeg? then 0 else if f.Png? then 1 else 2];
    }
  }

  // ---------- what has to be there ----------

  /** One object to ensure: its key and its bytes, if the encoder gives any. */
  datatype Target = Target(key: string, data: Option<Bytes>)

  function OriginalTarget(p: Default): seq<Target> {
    if p.originalKey == "" then [] else [Target(p.originalKey, Some(p.raw))]
  }

  function KeyOf(p: Default, size: string, f: Format): string {
    if size in p.keys && f in p.keys[size] then p.keys[size][f] else ""
  }

  function FormatTarget(codec: Codec, p: Default, resized: Image, size: string, f: Format): seq<Target> {
    if KeyOf(p, size, f) == "" then [] else [Target(KeyOf(p, size, f), codec.encode(resized, f))]
  }

  /** The first j formats of a size. */
  function SizeTargets(codec: Codec, p: Default, img: Image, side: int, size: string, j: nat): seq<Target>
    requires j <= |FORMATS|
  {
    if side <= 0 || j == 0 then []
    else
      SizeTargets(codec, p, img, side, size, j - 1)
        + FormatTarget(codec, p, codec.fill(img, side), size, FORMATS[j - 1])
  }

  /** The original, then the first n sizes, in the order ensureInS3 goes through them. */
  function Targets(codec: Codec, p: Default, img: Image, c: Catalog, n: nat): seq<Target>
    requires n <= |c.sizes|
  {
    if n == 0 then OriginalTarget(p)
    else
      Targets(codec, p, img, c, n - 1) + SizeTargets(codec, p, img, Side(c, c.sizes[n - 1]), c.sizes[n - 1], |FORMATS|)
  }

  /** An object that is there and not empty is never put again. */
  predicate Filled(objects: map<string, Bytes>, k: string) {
    k in objects && objects[k] != []
  }

  /** The outcome of every call, by target: a stat or a put that does not fail. */
  datatype Calls = Calls(stat: nat -> bool, put: nat -> bool)

  /** What one replica alone makes of the first n targets: the store, and how many errors it reports. */
  function Ensured(ts: seq<Target>, objects: map<string, Bytes>, calls: Calls, n: nat): (map<string, Bytes>, nat)
    requires n <= |ts|
  {
    if n == 0 then (objects, 0)
    else
      var (before, errs) := Ensured(ts, objects, calls, n - 1);
      var t := ts[n - 1];
      if !calls.stat(n - 1) || Filled(before, t.key) then (before, errs)
      else if t.data.None? || !calls.put(n - 1) then (before, errs + 1)
      else (before[t.key := t.data.value], errs)
  }

  class PlaceholderStore {
    var objects: map<string, Bytes>

    constructor (objects: map<string, Bytes>)
      ensures this.objects == objects
    {
      this.objects := objects;
    }

    /** shouldUpload: a missing or empty object is put; one whose state is unknown is left alone. */
    method ShouldUpload(k: string, ok: bool) returns (upload: bool)
      ensures upload <==> ok && !Filled(objects, k)
    {
      if !ok { return false; }
      return k !in objects || |objects[k]| == 0;
    }

    method PutObject(k: string, body: Bytes, ok: bool) returns (done: bool)
      modifies this
      ensures done == ok
      ensures objects == if ok then old(objects)[k := body] else old(objects)
    {
      if ok { objects := objects[k := body]; }
      return ok;
    }
  }

  /** ensureOriginal. */
  method EnsureOriginal(p: Default, store: PlaceholderStore, calls: Calls) returns (errs: nat)
    modifies store
    ensures (store.objects, errs) == Ensured(OriginalTarget(p), old(store.objects), calls, |OriginalTarget(p)|)
  {
    if p.originalKey == "" { return 0; }
    assert Ensured(OriginalTarget(p), old(store.objects), calls, 0) == (old(store.objects), 0);
    var upload := store.ShouldUpload(p.originalKey, calls.stat(0));
    if !upload { return 0; }
    var put := store.PutObject(p.originalKey, p.raw, calls.put(0));
    return if put then 0 else 1;
  }

  /** The first n targets have been ensured, with this store and this many errors to show for it. */
  predicate Reached(ts: seq<Target>, start: map<string, Bytes>, calls: Calls, n: nat, objects: map<string, Bytes>,
                    errs: nat)
    requires n <= |ts|
  {
    (objects, errs) == Ensured(ts, start, calls, n)
  }

  /**
   ensureThumbsForSize: goes on after every failure. `done` is what has been ensured before this size, and the
   targets of this size follow it in ts.
   */
  method EnsureThumbsForSize(codec: Codec, p: Default, store: PlaceholderStore, side: int, img: Image, size: string,
                             calls: Calls, ghost ts: seq<Target>, done: nat, ghost start: map<string, Bytes>,
                               sofar: nat)
    returns (errs: nat, now: nat)
    requires EndsWith(ts, done, SizeTargets(codec, p, img, side, size, |FORMATS|))
    requires Reached(ts, start, calls, done, store.objects, sofar)
    modifies store
    ensures now == |ts| && Reached(ts, start, calls, |ts|, store.objects, sofar + errs)
  {
    errs, now := 0, done;
    EndsAt(ts, done, SizeTargets(codec, p, img, side, size, |FORMATS|));
    if side <= 0 { return; }
    NoTargets(codec, p, img, side, size);
    var resized := codec.fill(img, side);
    assert AtFormat(codec, p, img, side, size, 0, ts, done, start, calls, now, store.objects, sofar);
    hide AtFormat, EndsWith, Reached, SizeTargets;
    for j := 0 to |FORMATS|
      invariant AtFormat(codec, p, img, side, size, j, ts, done, start, calls, now, store.objects, sofar + errs)
    {
      var err;
      err, now := EnsureFormat(codec, p, store, side, img, resized, size, j, calls, ts, done, start, now, sofar + errs);
      errs := errs + err;
    }
    LastFormat(codec, p, img, side, size, ts, done, start, calls, now, store.objects, sofar + errs);
  }

  /** j formats of the size have been ensured, on top of the `done` targets before it. */
  predicate AtFormat(codec: Codec, p: Default, img: Image, side: int, size: string, j: nat, ts: seq<Target>, done: nat,
                     start: map<string, Bytes>, calls: Calls, now: nat, objects: map<string, Bytes>, errs: nat)
    requires j <= |FORMATS|
  {
    now == done + |SizeTargets(codec, p, img, side, size, j)| && now <= |ts|
      && Reached(ts, start, calls, now, objects, errs)
  }

  lemma LastFormat(codec: Codec, p: Default, img: Image, side: int, size: string, ts: seq<Target>, done: nat,
                   start: map<string, Bytes>, calls: Calls, now: nat, objects: map<string, Bytes>, errs: nat)
    requires EndsWith(ts, done, SizeTargets(codec, p, img, side, size, |FORMATS|))
    requires AtFormat(codec, p, img, side, size, |FORMATS|, ts, done, start, calls, now, objects, errs)
    ensures now == |ts| && Reached(ts, start, calls, |ts|, objects, errs)
  {
    hide SizeTargets, Reached;
  }

  /** One turn of that loop: key, stat, encode, put. */
  method EnsureFormat(codec: Codec, p: Default, store: PlaceholderStore, side: int, img: Image, resized: Image,
                      size: string, j: nat,
                      calls: Calls, ghost ts: seq<Target>, ghost done: nat, ghost start: map<string, Bytes>, n: nat,
                        ghost sofar: nat)
    returns (err: nat, now: nat)
    requires side > 0 && j < |FORMATS| && resized == codec.fill(img, side)
    requires EndsWith(ts, done, SizeTargets(codec, p, img, side, size, |FORMATS|))
    requires AtFormat(codec, p, img, side, size, j, ts, done, start, calls, n, store.objects, sofar)
    modifies store
    ensures AtFormat(codec, p, img, side, size, j + 1, ts, done, start, calls, now, store.objects, sofar + err)
  {
    hide EndsWith, SizeTargets, KeyOf;
    TargetHere(codec, p, img, side, size, j, ts, done);
    var key := KeyOf(p, size, FORMATS[j]);
    if key == "" { return 0, n; }
    var upload := store.ShouldUpload(key, calls.stat(n));
    if !upload { return 0, n + 1; }
    var data := codec.encode(resized, FORMATS[j]);
    if data.None? { return 1, n + 1; }
    var put := store.PutObject(key, data.value, calls.put(n));
    return if put then 0 else 1, n + 1;
  }

  lemma {:induction false} SizePrefix(codec: Codec, p: Default, img: Image, side: int, size: string, j: nat)
    requires j <= |FORMATS|
    ensures SizeTargets(codec, p, img, side, size, j) <= SizeTargets(codec, p, img, side, size, |FORMATS|)
    decreases |FORMATS| - j
  {
    if j == |FORMATS| {
    } else {
      SizePrefix(codec, p, img, side, size, j + 1);
    }
  }

  predicate EndsWith(ts: seq<Target>, done: nat, last: seq<Target>) {
    done <= |ts| && ts[done..] == last
  }

  lemma EndsAt(ts: seq<Target>, done: nat, last: seq<Target>)
    requires EndsWith(ts, done, last)
    ensures |ts| == done + |last|
  {
  }

  lemma NoTargets(codec: Codec, p: Default, img: Image, side: int, size: string)
    ensures |SizeTargets(codec, p, img, side, size, 0)| == 0
  {
  }

  /** The loop over formats goes through the targets of its size one by one, skipping formats without a key. */
  lemma TargetHere(codec: Codec, p: Default, img: Image, side: int, size: string, j: nat, ts: seq<Target>, done: nat)
    requires side > 0 && j < |FORMATS|
    requires EndsWith(ts, done, SizeTargets(codec, p, img, side, size, |FORMATS|))
    ensures var here, next := |SizeTargets(codec, p, img, side, size, j)|,
      |SizeTargets(codec, p, img, side, size, j + 1)|;
      && done + next <= |ts|
      && next == here + (if KeyOf(p, size, FORMATS[j]) == "" then 0 else 1)
      && (KeyOf(p, size, FORMATS[j]) != "" ==>
            ts[done + here] == Target(KeyOf(p, size, FORMATS[j]), codec.encode(codec.fill(img, side), FORMATS[j])))
  {
    SizePrefix(codec, p, img, side, size, j + 1);
    var before := SizeTargets(codec, p, img, side, size, j);
    if KeyOf(p, size, FORMATS[j]) != "" {
      assert SizeTargets(codec, p, img, side, size, j + 1)[|before|] == ts[done..][|before|];
    }
  }

  /** What a prefix of the targets makes of the store does not depend on the targets after it. */
  lemma {:induction false} EnsuredPrefix(ts: seq<Target>, more: seq<Target>, objects: map<string, Bytes>, calls: Calls,
                                         n: nat)
    requires n <= |ts| && ts <= more
    ensures Ensured(ts, objects, calls, n) == Ensured(more, objects, calls, n)
  {
    if n == 0 {
    } else {
      EnsuredPrefix(ts, more, objects, calls, n - 1);
    }
  }

  /**
   ensureInS3: nothing without a configured image; otherwise every target is tried, whatever happens to the
   others.
   */
  method EnsureInS3(codec: Codec, p: Default, store: PlaceholderStore, c: Catalog, calls: Calls) returns (errs: nat)
    modifies store
    ensures !p.Configured() ==> errs == 0 && store.objects == old(store.objects)
    ensures p.Configured() ==>
      var ts := Targets(codec, p, p.img.value, c, |c.sizes|);
      (store.objects, errs) == Ensured(ts, old(store.objects), calls, |ts|)
  {
    if !p.Configured() { return 0; }
    var img := p.img.value;
    errs := EnsureOriginal(p, store, calls);
    var now := |OriginalTarget(p)|;
    for i := 0 to |c.sizes|
      invariant now == |Targets(codec, p, img, c, i)|
      invariant (store.objects, errs) == Ensured(Targets(codec, p, img, c, i), old(store.objects), calls, now)
    {
      ghost var ts := Targets(codec, p, img, c, i + 1);
      EnsuredPrefix(Targets(codec, p, img, c, i), ts, old(store.objects), calls, now);
      assert EndsWith(ts, now, SizeTargets(codec, p, img, Side(c, c.sizes[i]), c.sizes[i], |FORMATS|));
      var more;
      more, now := EnsureThumbsForSize(codec, p, store, Side(c, c.sizes[i]), img, c.sizes[i], calls, ts, now,
        old(store.objects), errs);
      errs := errs + more;
    }
  }
}
