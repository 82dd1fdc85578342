/** The thumbnail catalog: its construction from configuration, and the order in which variants are made. */
module Catalogs {
  import opened Wrappers
  import opened Keys

  datatype Preset = Preset(size: string, pixels: int)

  datatype Catalog = Catalog(sizes: seq<string>, sides: map<string, int>)

  datatype CatalogError = NoThumbnails | EmptySize | BadPixels(size: string) | DuplicateSize(size: string)

  /** What is wrong with preset i, given the presets before it. */
  function Objection(presets: seq<Preset>, i: nat): Option<CatalogError>
    requires i < |presets|
  {
    if presets[i].size == "" then Some(EmptySize)
    else if presets[i].pixels <= 0 then Some(BadPixels(presets[i].size))
    else if exists j | 0 <= j < i :: presets[j].size == presets[i].size then Some(DuplicateSize(presets[i].size))
    else None
  }

  /** A preset that is named, positive, and different from all before it. */
  predicate Fine(presets: seq<Preset>, i: nat)
    requires i < |presets|
  {
    presets[i].size != "" && presets[i].pixels > 0 && forall j | 0 <= j < i :: presets[j].size != presets[i].size
  }

  lemma FineIff(presets: seq<Preset>, i: nat)
    requires i < |presets|
    ensures Objection(presets, i) == None <==> Fine(presets, i)
    ensures Objection(presets, i) == Some(EmptySize) <==> presets[i].size == ""
    ensures (exists x :: Objection(presets, i) == Some(BadPixels(x)))
      <==> presets[i].size != "" && presets[i].pixels <= 0
    ensures !Fine(presets, i) && presets[i].size != "" ==>
      Objection(presets, i)
      == Some(if presets[i].pixels <= 0 then BadPixels(presets[i].size) else DuplicateSize(presets[i].size))
  {
  }

  ghost predicate Acceptable(presets: seq<Preset>) {
    && presets != []
    && (forall i | 0 <= i < |presets| :: presets[i].size != "" && presets[i].pixels > 0)
    && (forall i, j | 0 <= i < j < |presets| :: presets[i].size != presets[j].size)
  }

  ghost predicate ValidCatalog(c: Catalog) {
    && c.sizes != []
    && "" !in c.sizes
    && (forall i, j | 0 <= i < j < |c.sizes| :: c.sizes[i] != c.sizes[j])
    && (forall size :: size in c.sides <==> size in c.sizes)
    && (forall size | size in c.sides :: c.sides[size] > 0)
  }

  /** Avatars.Catalog: accepts exactly the acceptable presets, else reports the first objection. */
  method BuildCatalog(presets: seq<Preset>) returns (r: Result<Catalog, CatalogError>)
    ensures r.Success? <==> Acceptable(presets)
    ensures r.Success? ==>
      && ValidCatalog(r.value)
      && |r.value.sizes| == |presets|
      && forall i | 0 <= i < |presets| ::
        r.value.sizes[i] == presets[i].size && r.value.sides[presets[i].size] == presets[i].pixels
    ensures r.Failure? ==>
      || (presets == [] && r.error == NoThumbnails)
      || exists i | 0 <= i < |presets| ::
        && Objection(presets, i) == Some(r.error)
        && forall j | 0 <= j < i :: Objection(presets, j) == None
    ensures r == Failure(NoThumbnails) <==> presets == []
    ensures r.Failure? && presets != [] ==>
      exists i | 0 <= i < |presets| ::
        && !Fine(presets, i) && (forall j | 0 <= j < i :: Fine(presets, j))
        && r.error == if presets[i].size == "" then EmptySize
          else if presets[i].pixels <= 0 then BadPixels(presets[i].size)
          else DuplicateSize(presets[i].size)
  {
    forall i | 0 <= i < |presets|
      ensures Objection(presets, i) == None <==> Fine(presets, i)
    {
      FineIff(presets, i);
    }
    if presets == [] {
      return Failure(NoThumbnails);
    }
    var sizes: seq<string> := [];
    var sides: map<string, int> := map[];
    var seen: set<string> := {};
    hide Objection;
    for i := 0 to |presets|
      invariant SoFar(presets, i, sizes, sides, seen)
    {
      ObjectionOf(presets, i, sizes, sides, seen);
      var t := presets[i];
      if t.size == "" { return Failure(EmptySize); }
      if t.pixels <= 0 { return Failure(BadPixels(t.size)); }
      if t.size in seen { return Failure(DuplicateSize(t.size)); }
      OneMore(presets, i, sizes, sides, seen);
      seen := seen + {t.size};
      sizes := sizes + [t.size];
      sides := sides[t.size := t.pixels];
    }
    return Success(Catalog(sizes, sides));
  }

  /** The first i presets have been taken in without an objection. */
  ghost predicate SoFar(presets: seq<Preset>, i: nat, sizes: seq<string>, sides: map<string, int>, seen: set<string>)
    requires i <= |presets|
  {
    && |sizes| == i
    && (forall j | 0 <= j < i :: sizes[j] == presets[j].size && sizes[j] != "" && Objection(presets, j) == None)
    && (forall j, k | 0 <= j < k < i :: sizes[j] != sizes[k])
    && seen == sides.Keys
    && (forall size :: size in sides <==> size in sizes)
    && (forall j | 0 <= j < i :: sizes[j] in sides && sides[sizes[j]] == presets[j].pixels > 0)
  }

  /** The next preset's objection, told from what has been seen. */
  lemma ObjectionOf(presets: seq<Preset>, i: nat, sizes: seq<string>, sides: map<string, int>, seen: set<string>)
    requires i < |presets| && SoFar(presets, i, sizes, sides, seen)
    ensures Objection(presets, i)
         == if presets[i].size == "" then Some(EmptySize)
            else if presets[i].pixels <= 0 then Some(BadPixels(presets[i].size))
            else if presets[i].size in seen then Some(DuplicateSize(presets[i].size))
            else None
    ensures Objection(presets, i).Some? ==> !Acceptable(presets)
  {
    if j :| 0 <= j < i && presets[j].size == presets[i].size {
      assert sizes[j] in sizes;
    }
    if presets[i].size in seen {
      var j :| 0 <= j < i && sizes[j] == presets[i].size;
      assert presets[j].size == presets[i].size;
    }
  }

  lemma OneMore(presets: seq<Preset>, i: nat, sizes: seq<string>, sides: map<string, int>, seen: set<string>)
    requires i < |presets| && SoFar(presets, i, sizes, sides, seen) && Objection(presets, i) == None
    ensures var t := presets[i];
      SoFar(presets, i + 1, sizes + [t.size], sides[t.size := t.pixels], seen + {t.size})
  {
    var t := presets[i];
    ObjectionOf(presets, i, sizes, sides, seen);
    assert forall j | 0 <= j < i :: sizes[j] in sizes && sizes[j] != t.size;
    hide Objection;
  }

  /** The side of a size: a Go map lookup, zero for a size the map does not hold. */
  function Side(c: Catalog, size: string): int {
    if size in c.sides then c.sides[size] else 0
  }

  /** One thumbnail: a size at a format. */
  datatype Variant = Variant(size: string, format: Format)

  /** models.ThumbnailFormats, in its order. */
  const FORMATS: seq<Format> := [Jpeg, Png, Webp]

  /** The order of the nested loops over labels and formats. */
  function Plan(sizes: seq<string>): (plan: seq<Variant>)
    ensures |plan| == 3 * |sizes|
  {
    if sizes == [] then []
    else Plan(sizes[..|sizes| - 1]) + Row(sizes[|sizes| - 1])
  }

  function Row(size: string): seq<Variant> {
    [Variant(size, Jpeg), Variant(size, Png), Variant(size, Webp)]
  }

  /** The plan covers sizes x formats and nothing else. */
  lemma {:induction false} PlanCovers(sizes: seq<string>, v: Variant)
    ensures v in Plan(sizes) <==> v.size in sizes
  {
    if sizes == [] {
    } else {
      var front, last := sizes[..|sizes| - 1], sizes[|sizes| - 1];
      assert sizes == front + [last];
      PlanCovers(front, v);
      assert v in Row(last) <==> v.size == last by {
        assert Row(last)[0] == Variant(last, Jpeg) && Row(last)[1] == Variant(last, Png)
          && Row(last)[2] == Variant(last, Webp);
        assert v.format.Jpeg? || v.format.Png? || v.format.Webp?;
      }
    }
  }

  /** A catalog's plan makes each variant once. */
  lemma {:induction false} PlanDistinct(sizes: seq<string>, i: nat, j: nat)
    requires forall a, b | 0 <= a < b < |sizes| :: sizes[a] != sizes[b]
    requires i < j < |Plan(sizes)|
    ensures Plan(sizes)[i] != Plan(sizes)[j]
  {
    var front, last := sizes[..|sizes| - 1], sizes[|sizes| - 1];
    assert sizes == front + [last];
    if j < |Plan(front)| {
      PlanDistinct(front, i, j);
    } else if i < |Plan(front)| {
      assert Plan(front)[i] in Plan(front);
      PlanCovers(front, Plan(front)[i]);
      assert last !in front;
    }
  }

  /** The plan is the nested loop: size by size, and within a size format by format. */
  lemma {:induction false} PlanAt(sizes: seq<string>, i: nat, j: nat)
    requires i < |sizes| && j < 3
    ensures Plan(sizes)[3 * i + j] == Variant(sizes[i], FORMATS[j])
  {
    var front, last := sizes[..|sizes| - 1], sizes[|sizes| - 1];
    assert sizes == front + [last];
    if i < |front| {
      PlanAt(front, i, j);
    } else {
      assert Plan(sizes)[3 * i + j] == Row(last)[j];
    }
  }
}
