/** Avatar metadata rows and the guarded statements the repository runs on them. */
module Avatars {
  import opened Wrappers
  import opened Keys
  import opened Catalogs

  datatype Status = Pending | Processing | Completed | Failed

  type ThumbMap = map<string, map<Format, ObjectKey>>

  datatype Avatar = Avatar(
    user: string,
    mime: string,
    key: ObjectKey,
    thumbs: Option<ThumbMap>,
    dimensions: Option<(nat, nat)>,
    status: Status,
    deleted: bool,
    created: int)

  /** The key map one completed job stores: every size of the catalog at every format. */
  function FullMap(sizes: seq<string>, id: string): ThumbMap {
    map size | size in sizes :: map f | f in ALL_FORMATS :: Thumbnail(id, size, f)
  }

  function ThumbKeys(thumbs: Option<ThumbMap>): set<ObjectKey> {
    match thumbs
    case None => {}
    case Some(t) => set size, f | size in t && f in t[size] :: t[size][f]
  }

  /** Every object a row refers to: what a delete event has to list. */
  function AllKeys(a: Avatar): set<ObjectKey> {
    {a.key} + ThumbKeys(a.thumbs)
  }

  /** The keys of the first n thumbnails of a plan. */
  function PlanKeys(plan: seq<Variant>, id: string, n: nat): set<ObjectKey>
    requires n <= |plan|
  {
    set i | 0 <= i < n :: Thumbnail(id, plan[i].size, plan[i].format)
  }

  /** A completed row lists exactly the keys of its plan. */
  lemma FullMapKeys(sizes: seq<string>, id: string)
    ensures ThumbKeys(Some(FullMap(sizes, id))) == PlanKeys(Plan(sizes), id, |Plan(sizes)|)
  {
    var t := FullMap(sizes, id);
    var plan := Plan(sizes);
    forall k | k in ThumbKeys(Some(t))
      ensures k in PlanKeys(plan, id, |plan|)
    {
      var size, f :| size in t && f in t[size] && k == t[size][f];
      PlanCovers(sizes, Variant(size, f));
      var i :| 0 <= i < |plan| && plan[i] == Variant(size, f);
      assert k == Thumbnail(id, plan[i].size, plan[i].format);
    }
    forall k | k in PlanKeys(plan, id, |plan|)
      ensures k in ThumbKeys(Some(t))
    {
      var i :| 0 <= i < |plan| && k == Thumbnail(id, plan[i].size, plan[i].format);
      PlanCovers(sizes, plan[i]);
      assert plan[i].format.Jpeg? || plan[i].format.Png? || plan[i].format.Webp?;
      assert plan[i].size in t && plan[i].format in t[plan[i].size];
    }
  }

  /** An entry of the map that the list takes over. */
  predicate Kept(thumbs: map<string, map<string, string>>, p: (string, string)) {
    p.0 in thumbs && p.1 in thumbs[p.0] && thumbs[p.0][p.1] != ""
  }

  /** The list is the original and then the keys of these entries, in this order, no entry twice. */
  predicate Lists(s3Key: string, thumbs: map<string, map<string, string>>, keys: seq<string>,
                  entries: seq<(string, string)>) {
    && |keys| == 1 + |entries| && keys[0] == s3Key
    && (forall i | 0 <= i < |entries| ::
      Kept(thumbs, entries[i]) && keys[i + 1] == thumbs[entries[i].0][entries[i].1])
    && (forall i, j | 0 <= i < j < |entries| :: entries[i] != entries[j])
  }

  /** Avatar.AllObjectKeys, on the strings the row stores: the original first, then every nonempty thumbnail key. */
  method AllObjectKeys(s3Key: string, thumbs: map<string, map<string, string>>)
    returns (keys: seq<string>, ghost entries: seq<(string, string)>)
    ensures Lists(s3Key, thumbs, keys, entries)
    ensures forall p :: p in entries <==> Kept(thumbs, p)
    ensures keys != [] && keys[0] == s3Key
    ensures forall k :: k in keys[1..] <==> k != "" && exists size, f | size in thumbs && f in thumbs[size] ::
      thumbs[size][f] == k
  {
    keys, entries := [s3Key], [];
    var sizes := thumbs.Keys;
    while sizes != {}
      invariant sizes <= thumbs.Keys
      invariant Lists(s3Key, thumbs, keys, entries)
      invariant forall p :: p in entries <==> Kept(thumbs, p) && p.0 !in sizes
    {
      var size :| size in sizes;
      var byFormat := thumbs[size];
      var formats := byFormat.Keys;
      while formats != {}
        invariant formats <= byFormat.Keys
        invariant Lists(s3Key, thumbs, keys, entries)
        invariant forall p ::
          p in entries <==> Kept(thumbs, p) && (p.0 !in sizes || (p.0 == size && p.1 !in formats))
      {
        var f :| f in formats;
        if byFormat[f] != "" {
          assert (size, f) !in entries;
          keys, entries := keys + [byFormat[f]], entries + [(size, f)];
        }
        formats := formats - {f};
      }
      sizes := sizes - {size};
    }
    ListedIff(s3Key, thumbs, keys, entries);
  }

  lemma ListedIff(s3Key: string, thumbs: map<string, map<string, string>>, keys: seq<string>,
                  entries: seq<(string, string)>)
    requires Lists(s3Key, thumbs, keys, entries) && forall p :: p in entries <==> Kept(thumbs, p)
    ensures forall k :: k in keys[1..] <==> k != "" && exists size, f | size in thumbs && f in thumbs[size] ::
      thumbs[size][f] == k
  {
    forall size, f | size in thumbs && f in thumbs[size] && thumbs[size][f] != ""
      ensures thumbs[size][f] in keys[1..]
    {
      assert Kept(thumbs, (size, f));
      var i :| 0 <= i < |entries| && entries[i] == (size, f);
      assert keys[1..][i] == thumbs[size][f];
    }
    forall k | k in keys[1..]
      ensures k != "" && exists size, f | size in thumbs && f in thumbs[size] :: thumbs[size][f] == k
    {
      var i :| 0 <= i < |keys[1..]| && keys[1..][i] == k;
      assert Kept(thumbs, entries[i]);
    }
  }

  /** The key map as the row stores it: format names and key strings. */
  function Spelled(thumbs: ThumbMap): map<string, map<string, string>> {
    map size | size in thumbs :: map name | name in {"jpeg", "png", "webp"} && Named(name) in thumbs[size] ::
      KeyString(thumbs[size][Named(name)])
  }

  /** The format of a name. */
  function Named(name: string): Format {
    if name == "png" then Png else if name == "webp" then Webp else Jpeg
  }

  /** A string is stored in the spelled map. */
  predicate Stores(spelled: map<string, map<string, string>>, s: string) {
    exists size, name | size in spelled && name in spelled[size] :: spelled[size][name] == s
  }

  lemma StoredIsSpelled(thumbs: ThumbMap, s: string)
    requires Stores(Spelled(thumbs), s)
    ensures exists k | k in ThumbKeys(Some(thumbs)) :: KeyString(k) == s
  {
    hide KeyString;
    var size, name :| size in Spelled(thumbs) && name in Spelled(thumbs)[size] && Spelled(thumbs)[size][name] == s;
    assert thumbs[size][Named(name)] in ThumbKeys(Some(thumbs));
  }

  lemma SpelledIsStored(thumbs: ThumbMap, k: ObjectKey)
    requires k in ThumbKeys(Some(thumbs))
    ensures Stores(Spelled(thumbs), KeyString(k))
  {
    hide KeyString;
    var size, f :| size in thumbs && f in thumbs[size] && thumbs[size][f] == k;
    assert Named(FormatName(f)) == f;
    assert Spelled(thumbs)[size][FormatName(f)] == KeyString(k);
  }

  /** The key list of a delete event spells exactly the keys the row refers to. */
  method KeyList(a: Avatar) returns (keys: seq<string>)
    requires forall k | k in AllKeys(a) :: WellFormed(k)
    ensures forall k | k in AllKeys(a) :: KeyString(k) in keys
    ensures forall s | s in keys :: exists k | k in AllKeys(a) :: KeyString(k) == s
  {
    hide KeyString, WellFormed, Spelled, ThumbKeys;
    var thumbs: ThumbMap := if a.thumbs.Some? then a.thumbs.value else map[];
    ghost var entries;
    keys, entries := AllObjectKeys(KeyString(a.key), Spelled(thumbs));
    EmptyMapHasNoKeys();
    forall s | s in keys
      ensures exists k | k in AllKeys(a) :: KeyString(k) == s
    {
      if s == keys[0] {
        assert KeyString(a.key) == s && a.key in AllKeys(a);
      } else {
        assert keys == [keys[0]] + keys[1..];
        assert Stores(Spelled(thumbs), s);
        StoredIsSpelled(thumbs, s);
        var k :| k in ThumbKeys(Some(thumbs)) && KeyString(k) == s;
        assert k in AllKeys(a);
      }
    }
    forall k | k in AllKeys(a)
      ensures KeyString(k) in keys
    {
      if k != a.key {
        SpelledIsStored(thumbs, k);
        FirstCharacter(k);
        assert KeyString(k) in keys[1..];
      }
    }
  }

  lemma EmptyMapHasNoKeys()
    ensures ThumbKeys(Some(map[])) == {} == ThumbKeys(None)
  {
  }
}
