/**
  The object index: a metadata table `id -> (stateId, name, categories)`
  rebuilt by `Refresh`, and a lazily filled cache of loaded object models.
  Reading the metadata file and the object files is left out: `Refresh`
  receives the decoded metadata entries, and a constant oracle
  `deserialize` stands for "read the file named by this state id and
  deserialise it" (`None` is a failed deserialisation, which throws).
*/
module ObjectsProvider {
  import opened Wrappers
  import opened ObjectModels

  /** One decoded entry of the metadata file: `ObjectMeta` (Id, State, Name, Categories). */
  datatype MetaEntry = MetaEntry(id: int, state: int, name: string, categories: seq<int>)

  /** `ObjectMetadata`: the value the table stores per id. */
  datatype Metadata = Metadata(stateId: int, name: string, categories: seq<int>)

  type Table = map<int, Metadata>

  /** The exception `objectSerializer.TryDeserialize` hands back. */
  datatype LoadError = DeserializationFailed(stateId: int)

  /** The state id of the synthetic free-shape entry. */
  const FreeShapeStateId := -1

  function MetadataOf(e: MetaEntry): Metadata
  {
    Metadata(e.state, e.name, e.categories)
  }

  /** No id occurs twice, so every `Dictionary.Add` of the entries succeeds. */
  predicate DistinctIds(metas: seq<MetaEntry>)
  {
    forall i, j | 0 <= i < j < |metas| :: metas[i].id != metas[j].id
  }

  /** The table obtained by adding `metas` in order, later entries written over earlier ones. */
  function TableOf(metas: seq<MetaEntry>): Table
  {
    if metas == [] then map[]
    else TableOf(metas[..|metas| - 1])[metas[|metas| - 1].id := MetadataOf(metas[|metas| - 1])]
  }

  lemma {:induction false} TableOfKeys(metas: seq<MetaEntry>)
    ensures TableOf(metas).Keys == set e | e in metas :: e.id
  {
    if metas != [] {
      var init := metas[..|metas| - 1];
      TableOfKeys(init);
      assert metas == init + [metas[|metas| - 1]];
    }
  }

  /** With distinct ids every entry is found under its own id with its own metadata. */
  lemma {:induction false} TableOfAt(metas: seq<MetaEntry>, i: int)
    requires DistinctIds(metas) && 0 <= i < |metas|
    ensures metas[i].id in TableOf(metas)
    ensures TableOf(metas)[metas[i].id] == MetadataOf(metas[i])
  {
    if i < |metas| - 1 {
      var init := metas[..|metas| - 1];
      assert DistinctIds(init);
      assert init[i] == metas[i];
      TableOfAt(init, i);
    }
  }

  /** With distinct ids the table has exactly one entry per metadata entry. */
  lemma {:induction false} TableOfSize(metas: seq<MetaEntry>)
    requires DistinctIds(metas)
    ensures |TableOf(metas)| == |metas|
  {
    if metas != [] {
      var init := metas[..|metas| - 1];
      var last := metas[|metas| - 1];
      assert DistinctIds(init);
      TableOfSize(init);
      TableOfKeys(init);
      assert last.id !in TableOf(init) by {
        forall e | e in init
          ensures e.id != last.id
        {
          var j :| 0 <= j < |init| && init[j] == e;
          assert metas[j] == e;
        }
      }
    }
  }

  /** The table a successful `Refresh` leaves: the entries plus the free-shape entry. */
  function RefreshedTable(metas: seq<MetaEntry>, freeShape: ObjectData): Table
  {
    TableOf(metas)[freeShape.id := Metadata(FreeShapeStateId, "", freeShape.categories)]
  }

  /** The key `GetObjectNameById` looks up: every negative id means the free-shape entry. */
  function NameKey(id: int): (k: int)
    ensures k < 0 <==> id < 0
    ensures k < 0 ==> k == -1
    ensures id >= 0 ==> k == id
  {
    if id < 0 then -1 else id
  }

  /** Ids whose category array contains `c` (the `Where` of `GetObjectsFromCategory`). */
  function CategoryMatches(t: Table, c: int): set<int>
  {
    set k | k in t && c in t[k].categories
  }

  /** Ids whose category array meets `cs` (the `Where` of `GetObjectsFromCategories`). */
  function CategoriesMatches(t: Table, cs: seq<int>): set<int>
  {
    set k | k in t && exists y :: y in t[k].categories && y in cs
  }

  /** Ids whose name `accepts` takes and whose categories avoid `excluded`; a null `excluded` excludes nothing. */
  function NameMatches(t: Table, accepts: string -> bool, excluded: Option<seq<int>>): set<int>
  {
    set k | k in t && accepts(t[k].name) &&
            (excluded.None? || !exists y :: y in t[k].categories && y in excluded.value)
  }

  /** `IsInOnlyOneCategory`: the object's entry lists exactly one category, and it is `c`. */
  function IsInOnlyOneCategory(t: Table, objectId: int, c: int): (r: bool)
    ensures r <==> objectId in t && t[objectId].categories == [c]
  {
    objectId in t && |t[objectId].categories| == 1 && c in t[objectId].categories
  }

  /** `IsValidApertureObject`: a hole provider with an SVG thumbnail that is not only in the unpublished category. */
  predicate IsValidAperture(t: Table, d: ObjectData, unpublished: int)
  {
    HoleProvider in d.flags && !IsInOnlyOneCategory(t, d.id, unpublished) && d.hasSvg
  }

  /** The union of the single-category queries of the members of `cs`. */
  function UnionOfCategories(t: Table, cs: seq<int>): set<int>
  {
    if cs == [] then {} else UnionOfCategories(t, cs[..|cs| - 1]) + CategoryMatches(t, cs[|cs| - 1])
  }

  /** The sum of the single-category counts of the members of `cs`. */
  function SumOfCounts(t: Table, cs: seq<int>): nat
  {
    if cs == [] then 0 else SumOfCounts(t, cs[..|cs| - 1]) + |CategoryMatches(t, cs[|cs| - 1])|
  }

  /**
    The multi-category query is the union of the single-category queries of
    its members, so its count never exceeds the sum of theirs.
  */
  lemma {:induction false} CategoriesIsUnion(t: Table, cs: seq<int>)
    ensures CategoriesMatches(t, cs) == UnionOfCategories(t, cs)
    ensures |CategoriesMatches(t, cs)| <= SumOfCounts(t, cs)
  {
    if cs != [] {
      var init := cs[..|cs| - 1];
      var last := cs[|cs| - 1];
      CategoriesIsUnion(t, init);
      forall k | k in CategoriesMatches(t, cs)
        ensures k in CategoriesMatches(t, init) + CategoryMatches(t, last)
      {
        var y :| y in t[k].categories && y in cs;
        assert y in init || y == last by { assert cs == init + [last]; }
      }
      assert CategoriesMatches(t, cs) == CategoriesMatches(t, init) + CategoryMatches(t, last);
    }
  }

  /** A name query never returns an object from an excluded category, and with no exclusion it keeps every accepted name. */
  lemma NameMatchesExcludes(t: Table, accepts: string -> bool, excluded: Option<seq<int>>, k: int)
    ensures k in NameMatches(t, accepts, excluded) && excluded.Some? ==>
              forall y :: y in t[k].categories ==> y !in excluded.value
    ensures excluded.None? ==> (k in NameMatches(t, accepts, excluded) <==> k in t && accepts(t[k].name))
  {
  }

  /** When the free-shape id is -1, a refreshed table names every negative id "", the free-shape name. */
  lemma NegativeIdsNameFreeShape(metas: seq<MetaEntry>, freeShape: ObjectData, id: int)
    requires freeShape.id == -1 && id < 0
    ensures NameKey(id) in RefreshedTable(metas, freeShape)
    ensures RefreshedTable(metas, freeShape)[NameKey(id)].name == ""
  {
  }

  /** A selection from the table is no larger than the table. */
  lemma CountsBounded(t: Table, s: set<int>)
    requires s <= t.Keys
    ensures |s| <= |t|
  {
    assert |t.Keys| == |t|;
    SubsetSmaller(s, t.Keys);
  }

  lemma {:induction false} SubsetSmaller(a: set<int>, b: set<int>)
    requires a <= b
    ensures |a| <= |b|
    decreases |b|
  {
    if b != {} {
      NonEmptyHasMember(b);
      var x :| x in b;
      SubsetSmaller(a - {x}, b - {x});
    }
  }

  lemma NonEmptyHasMember(s: set<int>)
    requires s != {}
    ensures exists x :: x in s
  {
    if forall x :: x !in s {
      assert false;
    }
  }

  /** `keys` lists, once each, the members of `ids` not in `todo`; moving `k` from `todo` to `keys` keeps that. */
  lemma EnumerationStep(ids: set<int>, todo: set<int>, keys: seq<int>, k: int)
    requires todo <= ids && |todo| + |keys| == |ids| && k in todo
    requires forall x :: x in keys <==> x in ids && x !in todo
    ensures todo - {k} <= ids && |todo - {k}| + |keys + [k]| == |ids|
    ensures forall x :: x in keys + [k] <==> x in ids && x !in todo - {k}
  {
  }

  /**
    What `GetObjectById` hands out for the cached model `c`: a new clone of
    the free-shape template when `c` carries the free-shape id, `c` itself otherwise.
  */
  ghost predicate Serves(template: ObjectModel, c: ObjectModel, r: ObjectModel)
    reads template, r
  {
    if c.data.id == template.data.id then r != template && r.SameContent(template) else r == c
  }

  /** `c` is `c0` with the ids of `done` added and every entry of `c0` kept. */
  ghost predicate Grows(c0: map<int, ObjectModel>, c: map<int, ObjectModel>, done: set<int>)
  {
    (forall x :: x in c0 ==> x in c && c[x] == c0[x]) &&
    (forall x :: x in c <==> x in c0 || x in done)
  }

  /** Fetching `k` into the cache adds at most `k` and keeps what was there. */
  lemma GrowsStep(c0: map<int, ObjectModel>, c: map<int, ObjectModel>, c': map<int, ObjectModel>, done: set<int>, k: int)
    requires Grows(c0, c, done)
    requires k in c' && c' == c[k := c'[k]] && (k in c ==> c'[k] == c[k])
    ensures Grows(c0, c', done + {k})
  {
  }

  /** Position by position, `models` are what `GetObjectById` served for `keys` out of the cache `c`. */
  ghost predicate Delivered(template: ObjectModel, c: map<int, ObjectModel>, keys: seq<int>, models: seq<ObjectModel>)
    reads template, models
  {
    |keys| == |models| &&
    forall i :: 0 <= i < |keys| ==> keys[i] in c && Serves(template, c[keys[i]], models[i])
  }

  lemma DeliveredAppend(template: ObjectModel, c: map<int, ObjectModel>, c': map<int, ObjectModel>,
                        keys: seq<int>, models: seq<ObjectModel>, k: int, m: ObjectModel)
    requires Delivered(template, c, keys, models)
    requires forall x :: x in c ==> x in c' && c'[x] == c[x]
    requires k in c' && Serves(template, c'[k], m)
    ensures Delivered(template, c', keys + [k], models + [m])
  {
    assert forall i :: 0 <= i < |keys| ==> (keys + [k])[i] == keys[i] && (models + [m])[i] == models[i];
  }

  class FilesystemObjectsProvider {
    /** Read `Objects/<stateId>` and deserialise it; `None` when deserialisation fails. */
    const deserialize: int -> Option<ObjectData>
    /** What `freeShapeObjectModelFactory.Create(true)` builds. */
    const freeShapeTemplate: ObjectData
    /** `ObjectModel.ObjectUnpublishCategoryId`, defined outside the catalogue. */
    const unpublishedCategoryId: int

    var freeShape: ObjectModel?
    var metadata: Table
    var cache: map<int, ObjectModel>

    ghost predicate Valid()
      reads this
    {
      && cache.Keys <= metadata.Keys
      && (freeShape == null ==> metadata == map[] && cache == map[])
    }

    constructor (deserialize: int -> Option<ObjectData>, freeShapeTemplate: ObjectData, unpublishedCategoryId: int)
      ensures Valid() && freeShape == null && metadata == map[] && cache == map[]
      ensures this.deserialize == deserialize && this.freeShapeTemplate == freeShapeTemplate
      ensures this.unpublishedCategoryId == unpublishedCategoryId
    {
      this.deserialize := deserialize;
      this.freeShapeTemplate := freeShapeTemplate;
      this.unpublishedCategoryId := unpublishedCategoryId;
      freeShape := null;
      metadata := map[];
      cache := map[];
    }

    /**
      `Refresh`: clear table and cache, add every entry, then add the free-shape
      entry (creating the free-shape template on first use). A repeated id, or
      an entry using the free-shape id, makes `Dictionary.Add` throw: `ok` is
      false and the table holds the entries added before the clash.
    */
    method Refresh(metas: seq<MetaEntry>) returns (ok: bool)
      modifies this
      ensures cache == map[]
      ensures ok <==> DistinctIds(metas) && freeShape != null && freeShape.data.id !in TableOf(metas)
      ensures ok ==> metadata == RefreshedTable(metas, freeShape.data)
      ensures !ok ==> exists k :: 0 <= k <= |metas| && DistinctIds(metas[..k]) && metadata == TableOf(metas[..k]) &&
                        (k < |metas| ==> metas[k].id in metadata && freeShape == old(freeShape)) &&
                        (k == |metas| ==> freeShape != null && freeShape.data.id in metadata)
      ensures old(freeShape) != null ==> freeShape == old(freeShape)
      ensures old(freeShape) == null && freeShape != null ==> fresh(freeShape) && freeShape.data == freeShapeTemplate
      ensures ok || old(freeShape) != null ==> Valid()
    {
      metadata := map[];
      cache := map[];
      var i := 0;
      while i < |metas|
        invariant 0 <= i <= |metas|
        invariant DistinctIds(metas[..i]) && metadata == TableOf(metas[..i])
        invariant cache == map[] && freeShape == old(freeShape)
      {
        var e := metas[i];
        if e.id in metadata {
          TableOfKeys(metas[..i]);
          var x :| x in metas[..i] && x.id == e.id;
          var j :| 0 <= j < i && metas[..i][j] == x;
          assert metas[j].id == metas[i].id;
          ok := false;
          return;
        }
        assert metas[..i + 1][..i] == metas[..i];
        TableOfKeys(metas[..i]);
        metadata := metadata[e.id := MetadataOf(e)];
        i := i + 1;
      }
      assert metas[..i] == metas;
      if freeShape == null {
        freeShape := new ObjectModel(freeShapeTemplate, 0);
      }
      if freeShape.data.id in metadata {
        ok := false;
        return;
      }
      metadata := metadata[freeShape.data.id := Metadata(FreeShapeStateId, "", freeShape.data.categories)];
      ok := true;
    }

    /** `GetObjectNameById`: the name under `NameKey(id)`, which must be present. */
    function GetObjectNameById(id: int): (name: string)
      reads this
      requires NameKey(id) in metadata
      ensures name == metadata[NameKey(id)].name
    {
      metadata[NameKey(id)].name
    }

    /** `ObjectExists`: `id` is a key of the metadata table. */
    predicate ObjectExists(id: int): (b: bool)
      reads this
      ensures b <==> id in metadata.Keys
    {
      id in metadata
    }

    /**
      `Load`: the free-shape template for its own id; `null` (C#'s `default`)
      for an id missing from the table; otherwise a freshly deserialised model
      stamped with the entry's state id.
    */
    method Load(id: int) returns (r: Result<ObjectModel?, LoadError>)
      requires freeShape != null
      ensures id == freeShape.data.id ==> r == Success(freeShape)
      ensures id != freeShape.data.id && id !in metadata ==> r == Success(null)
      ensures id != freeShape.data.id && id in metadata && deserialize(metadata[id].stateId).None? ==>
                r == Failure(DeserializationFailed(metadata[id].stateId))
      ensures id != freeShape.data.id && id in metadata && deserialize(metadata[id].stateId).Some? ==>
                r.Success? && r.value != null && fresh(r.value) &&
                r.value.data == deserialize(metadata[id].stateId).value &&
                r.value.stateId == metadata[id].stateId
    {
      if freeShape.data.id == id {
        return Success(freeShape);
      }
      if id !in metadata {
        return Success(null);
      }
      var stateId := metadata[id].stateId;
      var loaded := deserialize(stateId);
      if loaded.None? {
        return Failure(DeserializationFailed(stateId));
      }
      var m := new ObjectModel(loaded.value, 0);
      m.stateId := stateId;
      r := Success(m);
    }

    /**
      `GetObjectById`: on a miss, load and cache exactly that id; on a hit the
      cache is unchanged. A failed deserialisation throws before anything is cached.
    */
    method GetObjectById(id: int) returns (r: Result<ObjectModel, LoadError>)
      requires Valid() && ObjectExists(id)
      modifies this
      ensures Valid() && metadata == old(metadata) && freeShape == old(freeShape) && freeShape != null
      ensures id in old(cache) ==> cache == old(cache)
      ensures r.Success? ==> id in cache && cache == old(cache)[id := cache[id]]
      ensures id !in old(cache) && r.Success? && id == freeShape.data.id ==> cache[id] == freeShape
      ensures id !in old(cache) && r.Success? && id != freeShape.data.id ==>
                fresh(cache[id]) && cache[id].stateId == metadata[id].stateId &&
                Some(cache[id].data) == deserialize(metadata[id].stateId)
      ensures r.Failure? ==> cache == old(cache)
      ensures r.Failure? <==> id !in old(cache) && id != freeShape.data.id && deserialize(metadata[id].stateId).None?
      ensures r.Success? ==> id in cache && Serves(freeShape, cache[id], r.value)
      ensures r.Success? && cache[id].data.id == freeShape.data.id ==> fresh(r.value)
    {
      var m: ObjectModel;
      if id in cache {
        m := cache[id];
      } else {
        var loaded := Load(id);
        if loaded.Failure? {
          return Failure(loaded.error);
        }
        m := loaded.value;
        cache := cache[id := m];
      }
      if m.data.id == freeShape.data.id {
        var c := freeShape.Clone();
        return Success(c);
      }
      r := Success(m);
    }

    /**
      Fetching `k` against the cache `c` throws: `k` is in the table, not in
      `c`, not the free-shape entry, and its state file does not deserialise.
    */
    ghost predicate Unloadable(c: map<int, ObjectModel>, k: int)
      reads this
    {
      k in metadata && k !in c && freeShape != null && k != freeShape.data.id &&
      deserialize(metadata[k].stateId).None?
    }

    /** One step of `Materialize`: `GetObjectById(k)`, stated against the cache `c0` the query started from. */
    method Fetch(k: int, ghost c0: map<int, ObjectModel>, ghost done: set<int>) returns (r: Result<ObjectModel, LoadError>)
      requires Valid() && k in metadata && k !in done && Grows(c0, cache, done)
      modifies this
      ensures Valid() && metadata == old(metadata) && freeShape == old(freeShape)
      ensures r.Failure? <==> Unloadable(c0, k)
      ensures r.Success? ==> freeShape != null && Grows(c0, cache, done + {k})
      ensures forall x :: x in old(cache) ==> x in cache && cache[x] == old(cache)[x]
      ensures r.Success? ==> k in cache && Serves(freeShape, cache[k], r.value)
    {
      r := GetObjectById(k);
      if r.Success? {
        GrowsStep(c0, old(cache), cache, done, k);
      }
    }

    /**
      `.Select(GetObjectById).ToArray()` over `ids`, in the table's enumeration
      order (any order); the first failed load propagates.
    */
    method Materialize(ids: set<int>) returns (r: Result<seq<ObjectModel>, LoadError>, ghost keys: seq<int>)
      requires Valid() && ids <= metadata.Keys
      modifies this
      ensures Valid() && metadata == old(metadata) && freeShape == old(freeShape)
      ensures r.Failure? <==> exists k :: k in ids && Unloadable(old(cache), k)
      ensures forall k :: k in old(cache) ==> k in cache && cache[k] == old(cache)[k]
      ensures r.Success? ==> forall k :: k in cache <==> k in old(cache) || k in ids
      ensures r.Success? ==> |keys| == |r.value| == |ids| && (forall k :: k in keys <==> k in ids)
      ensures r.Success? ==> |keys| == |r.value| && forall i :: 0 <= i < |keys| ==> keys[i] in cache && Serves(freeShape, cache[keys[i]], r.value[i])
    {
      ghost var c0 := cache;
      var todo := ids;
      var models: seq<ObjectModel> := [];
      keys := [];
      while todo != {}
        invariant Valid() && metadata == old(metadata) && freeShape == old(freeShape)
        invariant todo <= ids && |todo| + |keys| == |ids| && |models| == |keys|
        invariant forall k :: k in keys <==> k in ids && k !in todo
        invariant Grows(c0, cache, ids - todo)
        invariant ids == {} || (freeShape != null && Delivered(freeShape, cache, keys, models))
        invariant forall x :: x in ids && x !in todo ==> !Unloadable(c0, x)
        decreases |todo|
      {
        NonEmptyHasMember(todo);
        var k :| k in todo;
        ghost var before := cache;
        var one := Fetch(k, c0, ids - todo);
        if one.Failure? {
          return Failure(one.error), keys;
        }
        EnumerationStep(ids, todo, keys, k);
        DeliveredAppend(freeShape, before, cache, keys, models, k, one.value);
        assert ids - (todo - {k}) == (ids - todo) + {k};
        models := models + [one.value];
        keys := keys + [k];
        todo := todo - {k};
      }
      r := Success(models);
    }

    /** `GetObjectsFromCategory`: loads every entry listing `c`; as many models as its count. */
    method GetObjectsFromCategory(c: int) returns (r: Result<seq<ObjectModel>, LoadError>, ghost keys: seq<int>)
      requires Valid()
      modifies this
      ensures Valid() && metadata == old(metadata) && freeShape == old(freeShape)
      ensures r.Failure? <==> exists k :: k in CategoryMatches(metadata, c) && Unloadable(old(cache), k)
      ensures forall k :: k in old(cache) ==> k in cache && cache[k] == old(cache)[k]
      ensures r.Success? ==> forall k :: k in cache <==> k in old(cache) || k in CategoryMatches(metadata, c)
      ensures r.Success? ==> |r.value| == GetObjectsFromCategoryCount(c)
      ensures r.Success? ==> (forall k :: k in keys <==> k in metadata && c in metadata[k].categories)
      ensures r.Success? ==> |keys| == |r.value| && forall i :: 0 <= i < |keys| ==> keys[i] in cache && Serves(freeShape, cache[keys[i]], r.value[i])
    {
      r, keys := Materialize(CategoryMatches(metadata, c));
    }

    /** `GetObjectsFromCategories`: loads every entry whose categories meet `cs`. */
    method GetObjectsFromCategories(cs: seq<int>) returns (r: Result<seq<ObjectModel>, LoadError>, ghost keys: seq<int>)
      requires Valid()
      modifies this
      ensures Valid() && metadata == old(metadata) && freeShape == old(freeShape)
      ensures r.Failure? <==> exists k :: k in CategoriesMatches(metadata, cs) && Unloadable(old(cache), k)
      ensures forall k :: k in old(cache) ==> k in cache && cache[k] == old(cache)[k]
      ensures r.Success? ==> forall k :: k in cache <==> k in old(cache) || k in CategoriesMatches(metadata, cs)
      ensures r.Success? ==> |r.value| == GetObjectsFromCategoriesCount(cs)
      ensures r.Success? ==> (forall k :: k in keys <==> k in metadata && exists y :: y in metadata[k].categories && y in cs)
      ensures r.Success? ==> |keys| == |r.value| && forall i :: 0 <= i < |keys| ==> keys[i] in cache && Serves(freeShape, cache[keys[i]], r.value[i])
    {
      r, keys := Materialize(CategoriesMatches(metadata, cs));
    }

    /** `GetObjectsByName`: loads every entry whose name `accepts` takes and whose categories avoid `excluded`. */
    method GetObjectsByName(accepts: string -> bool, excluded: Option<seq<int>>)
      returns (r: Result<seq<ObjectModel>, LoadError>, ghost keys: seq<int>)
      requires Valid()
      modifies this
      ensures Valid() && metadata == old(metadata) && freeShape == old(freeShape)
      ensures r.Failure? <==> exists k :: k in NameMatches(metadata, accepts, excluded) && Unloadable(old(cache), k)
      ensures forall k :: k in old(cache) ==> k in cache && cache[k] == old(cache)[k]
      ensures r.Success? ==> forall k :: k in cache <==> k in old(cache) || k in NameMatches(metadata, accepts, excluded)
      ensures r.Success? ==> |r.value| == |NameMatches(metadata, accepts, excluded)|
      ensures r.Success? ==> forall k :: k in keys <==>
                k in metadata && accepts(metadata[k].name) &&
                (excluded.None? || forall y :: y in metadata[k].categories ==> y !in excluded.value)
      ensures r.Success? ==> |keys| == |r.value| && forall i :: 0 <= i < |keys| ==> keys[i] in cache && Serves(freeShape, cache[keys[i]], r.value[i])
    {
      r, keys := Materialize(NameMatches(metadata, accepts, excluded));
    }

    /** `GetObjectsFromCategoryCount`: how many entries list `c`. */
    function GetObjectsFromCategoryCount(c: int): (n: nat)
      reads this
      ensures n == GetObjectsFromCategoriesCount([c])
      ensures n <= |metadata|
    {
      assert CategoryMatches(metadata, c) == CategoriesMatches(metadata, [c]);
      CountsBounded(metadata, CategoryMatches(metadata, c));
      |CategoryMatches(metadata, c)|
    }

    /** `GetObjectsFromCategoriesCount`: how many entries list a member of `cs`. */
    function GetObjectsFromCategoriesCount(cs: seq<int>): (n: nat)
      reads this
      ensures n <= SumOfCounts(metadata, cs)
      ensures n <= |metadata|
    {
      CategoriesIsUnion(metadata, cs);
      CountsBounded(metadata, CategoriesMatches(metadata, cs));
      |CategoriesMatches(metadata, cs)|
    }

    /** The definition `GetApertureObjects` would inspect under key `k`: cached, the template, or freshly deserialised. */
    ghost function Candidate(k: int): Option<ObjectData>
      reads this
      requires Valid() && k in metadata
    {
      if k in cache then Some(cache[k].data)
      else if k == freeShape.data.id then Some(freeShape.data)
      else deserialize(metadata[k].stateId)
    }

    /** `models[i]` is what `GetApertureObjects` inspects under `keys[i]`, the cached instance when there is one. */
    ghost predicate ListsCandidates(keys: seq<int>, models: seq<ObjectModel>)
      reads this
      requires Valid()
    {
      |keys| == |models| &&
      forall i :: 0 <= i < |keys| ==>
        keys[i] in metadata && Candidate(keys[i]) == Some(models[i].data) &&
        (keys[i] in cache ==> models[i] == cache[keys[i]])
    }

    lemma ListsCandidatesAppend(keys: seq<int>, models: seq<ObjectModel>, k: int, m: ObjectModel)
      requires Valid() && ListsCandidates(keys, models) && k in metadata && Candidate(k).Some?
      requires Candidate(k) == Some(m.data) && (k in cache ==> m == cache[k])
      ensures ListsCandidates(keys + [k], models + [m])
    {
      assert forall i :: 0 <= i < |keys| ==> (keys + [k])[i] == keys[i] && (models + [m])[i] == models[i];
    }

    /** The cached model under `k`, or `k` loaded without being cached. */
    method Peek(k: int) returns (r: Result<ObjectModel, LoadError>)
      requires Valid() && k in metadata
      ensures r.Success? <==> Candidate(k).Some?
      ensures r.Success? ==> r.value.data == Candidate(k).value && (k in cache ==> r.value == cache[k])
    {
      if k in cache {
        return Success(cache[k]);
      }
      var loaded := Load(k);
      if loaded.Failure? {
        return Failure(loaded.error);
      }
      r := Success(loaded.value);
    }

    /**
      `GetApertureObjects`: every valid aperture among the table's entries,
      reading the cache where it can and loading without caching where it
      cannot. A failed load propagates.
    */
    method GetApertureObjects() returns (r: Result<seq<ObjectModel>, LoadError>, ghost keys: seq<int>)
      requires Valid()
      ensures r.Success? <==> forall k :: k in metadata ==> Candidate(k).Some?
      ensures r.Success? ==> |keys| == |r.value| && (forall i, j :: 0 <= i < j < |keys| ==> keys[i] != keys[j])
      ensures r.Success? ==> forall k :: k in keys <==>
                k in metadata && IsValidAperture(metadata, Candidate(k).value, unpublishedCategoryId)
      ensures r.Success? ==> forall i :: 0 <= i < |keys| ==>
                r.value[i].data == Candidate(keys[i]).value && (keys[i] in cache ==> r.value[i] == cache[keys[i]])
    {
      var todo := metadata.Keys;
      var result: seq<ObjectModel> := [];
      keys := [];
      ghost var seen: set<int> := {};
      while todo != {}
        invariant todo <= metadata.Keys && seen == metadata.Keys - todo
        invariant forall k :: k in seen ==> Candidate(k).Some?
        invariant |keys| == |result| && (forall i, j :: 0 <= i < j < |keys| ==> keys[i] != keys[j])
        invariant forall k :: k in keys <==> k in seen && IsValidAperture(metadata, Candidate(k).value, unpublishedCategoryId)
        invariant ListsCandidates(keys, result)
        decreases |todo|
      {
        NonEmptyHasMember(todo);
        var k :| k in todo;
        var fetched := Peek(k);
        if fetched.Failure? {
          return Failure(fetched.error), keys;
        }
        var obj := fetched.value;
        if IsValidApertureObject(obj) {
          ListsCandidatesAppend(keys, result, k, obj);
          result := result + [obj];
          keys := keys + [k];
        }
        todo := todo - {k};
        seen := seen + {k};
      }
      r := Success(result);
    }

    /** `IsValidApertureObject` for this provider's table and unpublished category. */
    predicate IsValidApertureObject(obj: ObjectModel)
      reads this
      ensures IsValidApertureObject(obj) <==>
                HoleProvider in obj.data.flags && obj.data.hasSvg &&
                !(obj.data.id in metadata && metadata[obj.data.id].categories == [unpublishedCategoryId])
    {
      IsValidAperture(metadata, obj.data, unpublishedCategoryId)
    }
  }
}
