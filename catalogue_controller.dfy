/**
  The object catalogue: a screen of category groups and a screen of objects,
  only one of them active after any transition. Initialisation gives every
  category group a synthetic "All" category; clicking a category or typing a
  search shows the matching objects; dragging an object from the object
  screen starts the processor the current factory chooses for it.
*/
module CatalogueControllers {
  import opened Wrappers
  import opened Geometry
  import opened ObjectModels
  import opened ObjectsProvider
  import opened SearchCatalog
  import opened DragProcessorFactories
  import StandardDragProcessors
  import HoleProviderDragProcessors

  /** The title of the objects screen a search shows. */
  const BackButtonName := "Назад"
  /** The group hidden from the category screen and the category searches leave out. */
  const UnpublishedCategoryId := 1
  /** The name of the synthetic category standing for a whole group. */
  const AllCategoryName := "Все"

  /** `ObjectCategory`: one category of a group. */
  datatype Category = Category(id: int, name: string)
  /** One group of the object categories provider. */
  datatype CategoryGroup = CategoryGroup(id: int, name: string, categories: seq<Category>)

  /** `CategoryView.Model`: a category with the number of its objects. */
  datatype CategoryItem = CategoryItem(id: int, name: string, objectsCount: nat)
  /** `CategoryGroupView.Model`. */
  datatype GroupItem = GroupItem(id: int, name: string, categories: seq<CategoryItem>)
  /** `ObjectView.Model`, without its thumbnail. */
  datatype ObjectItem = ObjectItem(id: int, name: string)
  /** `ObjectsView.Model`: a title and the objects listed under it. */
  datatype ObjectsScreen = ObjectsScreen(title: string, objects: seq<ObjectItem>)

  /** Why showing objects failed: a model did not load, or an object has no name entry. */
  datatype ShowError = LoadFailed(error: LoadError) | NameMissing(id: int)

  /** The provider query a category's id stands for. */
  datatype Query = FromCategory(category: int) | FromCategories(categories: seq<int>)

  /** `categories.Exists(x => x.Id == id)`. */
  predicate HasCategoryId(cs: seq<Category>, id: int)
  {
    exists j :: 0 <= j < |cs| && cs[j].id == id
  }

  /** `categories.Select(x => x.Id)`. */
  function Ids(cs: seq<Category>): (r: seq<int>)
    ensures |r| == |cs| && forall j :: 0 <= j < |cs| ==> r[j] == cs[j].id
  {
    seq(|cs|, j requires 0 <= j < |cs| => cs[j].id)
  }

  /** The group as `Initialize` leaves it: with an "All" category of id `id` added unless one has that id. */
  function WithAll(g: CategoryGroup, id: int): (r: CategoryGroup)
    ensures r.id == g.id && r.name == g.name
    ensures HasCategoryId(r.categories, id)
    ensures |g.categories| <= |r.categories| <= |g.categories| + 1 && r.categories[..|g.categories|] == g.categories
  {
    if HasCategoryId(g.categories, id) then g
    else
      var r := g.(categories := g.categories + [Category(id, AllCategoryName)]);
      assert r.categories[|g.categories|].id == id;
      r
  }

  /** The "All" category is added only when missing, and afterwards the group's ids include `id`. */
  lemma WithAllAddsOnlyWhenMissing(g: CategoryGroup, id: int)
    ensures WithAll(g, id).id == g.id && WithAll(g, id).name == g.name
    ensures HasCategoryId(WithAll(g, id).categories, id) && id in Ids(WithAll(g, id).categories)
    ensures HasCategoryId(g.categories, id) ==> WithAll(g, id) == g
    ensures !HasCategoryId(g.categories, id) ==> WithAll(g, id).categories == g.categories + [Category(id, AllCategoryName)]
  {
    var r := WithAll(g, id);
    if HasCategoryId(g.categories, id) {
      var j :| 0 <= j < |g.categories| && g.categories[j].id == id;
      assert Ids(g.categories)[j] == id;
    } else {
      assert r.categories[|g.categories|].id == id;
      assert Ids(r.categories)[|g.categories|] == id;
    }
  }

  /** The id `Initialize` gives the `i`-th group (counting from 0): `0, -1, -2, …`. */
  function SyntheticId(i: nat): int
  {
    -(i as int)
  }

  /** The synthetic ids of the first `n` groups. */
  function SyntheticIds(n: nat): (s: set<int>)
    ensures forall k :: k in s ==> -(n as int) < k <= 0
    ensures forall i :: 0 <= i < n ==> SyntheticId(i) in s
  {
    if n == 0 then {} else SyntheticIds(n - 1) + {SyntheticId(n - 1)}
  }

  /** The groups after `Initialize`: the `i`-th with its "All" category of id `SyntheticId(i)`. */
  function WithAllGroups(gs: seq<CategoryGroup>): (r: seq<CategoryGroup>)
    ensures |r| == |gs|
  {
    if gs == [] then []
    else WithAllGroups(gs[..|gs| - 1]) + [WithAll(gs[|gs| - 1], SyntheticId(|gs| - 1))]
  }

  /** `categoriesAll` after `Initialize` over the (already extended) groups `gs`. */
  function AllMap(gs: seq<CategoryGroup>): (r: map<int, seq<int>>)
    ensures r.Keys == SyntheticIds(|gs|)
  {
    if gs == [] then map[]
    else AllMap(gs[..|gs| - 1])[SyntheticId(|gs| - 1) := Ids(gs[|gs| - 1].categories)]
  }

  /** Group `i` is the original one with its "All" category; the other groups keep their place. */
  lemma {:induction false} WithAllGroupsAt(gs: seq<CategoryGroup>, i: int)
    requires 0 <= i < |gs|
    ensures WithAllGroups(gs)[i] == WithAll(gs[i], SyntheticId(i))
    decreases |gs|
  {
    if i < |gs| - 1 {
      WithAllGroupsAt(gs[..|gs| - 1], i);
    }
  }

  /** `categoriesAll` has one entry per group, under its synthetic id, listing the group's category ids. */
  lemma {:induction false} AllMapEntries(gs: seq<CategoryGroup>)
    ensures AllMap(gs).Keys == SyntheticIds(|gs|)
    ensures forall i :: 0 <= i < |gs| ==> AllMap(gs)[SyntheticId(i)] == Ids(gs[i].categories)
    decreases |gs|
  {
    if gs != [] {
      var init := gs[..|gs| - 1];
      AllMapEntries(init);
      forall i | 0 <= i < |gs| ensures AllMap(gs)[SyntheticId(i)] == Ids(gs[i].categories) {
        if i < |gs| - 1 {
          assert init[i] == gs[i];
        }
      }
    }
  }

  /**
    After `Initialize`, `categoriesAll` lists, under the synthetic id of each
    group, the ids of all that group's categories, the synthetic id itself among them.
  */
  lemma InitializedCatalogue(gs: seq<CategoryGroup>)
    ensures AllMap(WithAllGroups(gs)).Keys == SyntheticIds(|gs|)
    ensures forall i :: 0 <= i < |gs| ==>
              AllMap(WithAllGroups(gs))[SyntheticId(i)] == Ids(WithAll(gs[i], SyntheticId(i)).categories) &&
              SyntheticId(i) in AllMap(WithAllGroups(gs))[SyntheticId(i)]
  {
    AllMapEntries(WithAllGroups(gs));
    forall i | 0 <= i < |gs|
      ensures AllMap(WithAllGroups(gs))[SyntheticId(i)] == Ids(WithAll(gs[i], SyntheticId(i)).categories)
      ensures SyntheticId(i) in AllMap(WithAllGroups(gs))[SyntheticId(i)]
    {
      WithAllGroupsAt(gs, i);
      WithAllAddsOnlyWhenMissing(gs[i], SyntheticId(i));
    }
  }

  /** One turn of `Initialize`'s loop keeps the groups before `i` extended and the rest original. */
  lemma InitializeStep(original: seq<CategoryGroup>, groups: seq<CategoryGroup>, i: nat)
    requires i < |groups| == |original|
    requires groups[..i] == WithAllGroups(original[..i]) && groups[i..] == original[i..]
    ensures var next := groups[i := WithAll(groups[i], SyntheticId(i))];
            && next[..i + 1] == WithAllGroups(original[..i + 1])
            && next[i + 1..] == original[i + 1..]
            && AllMap(next[..i + 1]) == AllMap(groups[..i])[SyntheticId(i) := Ids(next[i].categories)]
  {
    var next := groups[i := WithAll(groups[i], SyntheticId(i))];
    assert groups[i] == original[i] by {
      assert groups[i..][0] == original[i..][0];
    }
    assert original[..i + 1][..i] == original[..i];
    assert next[..i + 1][..i] == groups[..i];
    assert next[i + 1..] == original[i + 1..] by {
      assert groups[i + 1..] == groups[i..][1..];
      assert original[i + 1..] == original[i..][1..];
    }
  }

  /**
    The `Do` loop of `Initialize`: the i-th group (counting from 0) gets the
    id `-i`, its "All" category and its `categoriesAll` entry.
  */
  method ExtendGroups(original: seq<CategoryGroup>) returns (gs: seq<CategoryGroup>, all: map<int, seq<int>>)
    ensures gs == WithAllGroups(original)
    ensures all == AllMap(gs)
  {
    gs := original;
    all := map[];
    var id := 0;
    var i := 0;
    while i < |gs|
      invariant 0 <= i <= |gs| == |original|
      invariant id == SyntheticId(i)
      invariant gs[..i] == WithAllGroups(original[..i]) && gs[i..] == original[i..]
      invariant all == AllMap(gs[..i])
    {
      var g := WithAll(gs[i], id);
      InitializeStep(original, gs, i);
      gs := gs[i := g];
      all := all[id := Ids(g.categories)];
      id := id - 1;
      i := i + 1;
    }
    assert original[..i] == original;
    assert gs[..i] == gs;
  }

  /** The dispatch shared by counting and clicking: an "All" id queries its whole group. */
  function QueryFor(categoriesAll: map<int, seq<int>>, id: int): (q: Query)
    ensures q.FromCategories? <==> id in categoriesAll
    ensures q.FromCategories? ==> q.categories == categoriesAll[id]
    ensures q.FromCategory? ==> q.category == id
  {
    if id in categoriesAll then FromCategories(categoriesAll[id]) else FromCategory(id)
  }

  /** The ids a query selects from the table. */
  function Selected(t: Table, q: Query): (r: set<int>)
    ensures r <= t.Keys
    ensures q.FromCategory? ==> forall k :: k in r <==> k in t && q.category in t[k].categories
    ensures q.FromCategories? ==> r == UnionOfCategories(t, q.categories)
  {
    match q
    case FromCategory(c) => CategoryMatches(t, c)
    case FromCategories(cs) =>
      CategoriesIsUnion(t, cs);
      CategoriesMatches(t, cs)
  }

  /** `GetObjectViewModel` over `models`: `None` where `GetObjectNameById` finds no entry. */
  function ObjectItems(t: Table, models: seq<ObjectModel>): (r: Option<seq<ObjectItem>>)
    ensures r.Some? <==> forall j :: 0 <= j < |models| ==> NameKey(models[j].data.id) in t
    ensures r.Some? ==> (|r.value| == |models| &&
              forall j :: 0 <= j < |models| ==>
                r.value[j] == ObjectItem(models[j].data.id, t[NameKey(models[j].data.id)].name))
  {
    if models == [] then Some([])
    else
      var init := ObjectItems(t, models[..|models| - 1]);
      var m := models[|models| - 1];
      assert forall j :: 0 <= j < |models| - 1 ==> models[..|models| - 1][j] == models[j];
      if init.None? || NameKey(m.data.id) !in t then None
      else Some(init.value + [ObjectItem(m.data.id, t[NameKey(m.data.id)].name)])
  }

  /** The groups the category screen lists: every group except the unpublished one, in order. */
  function VisibleGroups(gs: seq<CategoryGroup>): (r: seq<CategoryGroup>)
    ensures |r| <= |gs|
    ensures forall k :: 0 <= k < |r| ==> r[k].id != UnpublishedCategoryId && r[k] in gs
    ensures forall j :: 0 <= j < |gs| && gs[j].id != UnpublishedCategoryId ==> gs[j] in r
  {
    if gs == [] then []
    else
      var init := VisibleGroups(gs[..|gs| - 1]);
      var g := gs[|gs| - 1];
      assert forall j :: 0 <= j < |gs| - 1 ==> gs[j] == gs[..|gs| - 1][j];
      if g.id == UnpublishedCategoryId then init else init + [g]
  }

  /** Filtering works group by group: the visible groups of `a + b` are those of `a`, then those of `b`, in order. */
  lemma {:induction false} VisibleGroupsAppend(a: seq<CategoryGroup>, b: seq<CategoryGroup>)
    ensures VisibleGroups(a + b) == VisibleGroups(a) + VisibleGroups(b)
    decreases |b|
  {
    if b == [] {
      assert a + b == a;
    } else {
      var init := b[..|b| - 1];
      assert (a + b)[..|a + b| - 1] == a + init;
      assert (a + b)[|a + b| - 1] == b[|b| - 1];
      VisibleGroupsAppend(a, init);
    }
  }

  /** A single group is shown exactly when it is not the unpublished group. */
  lemma VisibleGroupsOne(g: CategoryGroup)
    ensures VisibleGroups([g]) == if g.id == UnpublishedCategoryId then [] else [g]
  {
    assert [g][..0] == [];
  }

  /** The count a category shows: the size of the query its id stands for. */
  function CountOf(t: Table, categoriesAll: map<int, seq<int>>, id: int): (n: nat)
    ensures n == |Selected(t, QueryFor(categoriesAll, id))|
  {
    match QueryFor(categoriesAll, id)
    case FromCategories(cs) => |CategoriesMatches(t, cs)|
    case FromCategory(c) => |CategoryMatches(t, c)|
  }

  /** `CategoryView.Model` for each of `cs`, with its count. */
  function CategoryItems(t: Table, categoriesAll: map<int, seq<int>>, cs: seq<Category>): (r: seq<CategoryItem>)
    ensures |r| == |cs|
  {
    if cs == [] then []
    else
      var c := cs[|cs| - 1];
      CategoryItems(t, categoriesAll, cs[..|cs| - 1]) + [CategoryItem(c.id, c.name, CountOf(t, categoriesAll, c.id))]
  }

  /** `CategoriesView.Model`: `CategoryGroupView.Model` for each of `gs`. */
  function GroupItems(t: Table, categoriesAll: map<int, seq<int>>, gs: seq<CategoryGroup>): (r: seq<GroupItem>)
    ensures |r| == |gs|
  {
    if gs == [] then []
    else
      var g := gs[|gs| - 1];
      GroupItems(t, categoriesAll, gs[..|gs| - 1]) + [GroupItem(g.id, g.name, CategoryItems(t, categoriesAll, g.categories))]
  }

  /** Each category is listed with its name and the size of the query its id stands for. */
  lemma {:induction false} CategoryItemsAt(t: Table, categoriesAll: map<int, seq<int>>, cs: seq<Category>, j: int)
    requires 0 <= j < |cs|
    ensures |CategoryItems(t, categoriesAll, cs)| == |cs|
    ensures CategoryItems(t, categoriesAll, cs)[j] ==
              CategoryItem(cs[j].id, cs[j].name, |Selected(t, QueryFor(categoriesAll, cs[j].id))|)
    decreases |cs|
  {
    if j < |cs| - 1 {
      CategoryItemsAt(t, categoriesAll, cs[..|cs| - 1], j);
    }
  }

  /** The category screen lists the groups in order, each with its categories' items. */
  lemma {:induction false} GroupItemsAt(t: Table, categoriesAll: map<int, seq<int>>, gs: seq<CategoryGroup>, j: int)
    requires 0 <= j < |gs|
    ensures |GroupItems(t, categoriesAll, gs)| == |gs|
    ensures GroupItems(t, categoriesAll, gs)[j] ==
              GroupItem(gs[j].id, gs[j].name, CategoryItems(t, categoriesAll, gs[j].categories))
    decreases |gs|
  {
    if j < |gs| - 1 {
      GroupItemsAt(t, categoriesAll, gs[..|gs| - 1], j);
    }
  }

  class CatalogueController {
    const provider: FilesystemObjectsProvider
    const search: SearchCatalogModel
    const factory: FactoryProxy
    const holeProcessor: HoleProviderDragProcessors.HoleProviderDragProcessor
    const freeShapeProcessor: StandardDragProcessors.StandardDragProcessor
    const processor2D: StandardDragProcessors.StandardDragProcessor
    const processor3D: StandardDragProcessors.StandardDragProcessor

    /** The category groups of the categories provider, which `Initialize` extends in place. */
    var groups: seq<CategoryGroup>
    /** `categoriesAll`: synthetic "All" id to the ids of its group's categories. */
    var categoriesAll: map<int, seq<int>>
    /** The model last given to the category view. */
    var categoriesScreen: seq<GroupItem>
    /** The model last given to the objects view. */
    var objectsScreen: ObjectsScreen
    var categoriesActive: bool
    var objectsActive: bool
    /** How many subscriptions to the objects view's drag events `objectsViewDisposables` holds. */
    var dragSubscriptions: nat
    /** Whether the subscriptions `Initialize` makes are alive (`compositeDisposable`). */
    var subscribed: bool
    /** Whether `compositeDisposable` has been disposed; it then drops whatever is added to it. */
    var disposed: bool

    ghost predicate Valid()
      reads this, provider
    {
      && provider.Valid()
      && freeShapeProcessor.mode == StandardDragProcessors.Plan2D
      && processor2D.mode == StandardDragProcessors.Plan2D
      && processor3D.mode == StandardDragProcessors.Scene3D
    }

    constructor (provider: FilesystemObjectsProvider, search: SearchCatalogModel, factory: FactoryProxy,
                 holeProcessor: HoleProviderDragProcessors.HoleProviderDragProcessor,
                 freeShapeProcessor: StandardDragProcessors.StandardDragProcessor,
                 processor2D: StandardDragProcessors.StandardDragProcessor,
                 processor3D: StandardDragProcessors.StandardDragProcessor,
                 groups: seq<CategoryGroup>, categoriesActive: bool, objectsActive: bool)
      ensures this.provider == provider && this.search == search && this.factory == factory
      ensures this.holeProcessor == holeProcessor && this.freeShapeProcessor == freeShapeProcessor
      ensures this.processor2D == processor2D && this.processor3D == processor3D
      ensures this.groups == groups && categoriesAll == map[] && categoriesScreen == []
      ensures objectsScreen == ObjectsScreen("", [])
      ensures this.categoriesActive == categoriesActive && this.objectsActive == objectsActive
      ensures dragSubscriptions == 0 && !subscribed && !disposed
    {
      this.provider := provider;
      this.search := search;
      this.factory := factory;
      this.holeProcessor := holeProcessor;
      this.freeShapeProcessor := freeShapeProcessor;
      this.processor2D := processor2D;
      this.processor3D := processor3D;
      this.groups := groups;
      categoriesAll := map[];
      categoriesScreen := [];
      objectsScreen := ObjectsScreen("", []);
      this.categoriesActive := categoriesActive;
      this.objectsActive := objectsActive;
      dragSubscriptions := 0;
      subscribed := false;
      disposed := false;
    }

    /** `GetObjectsFromCategoryCount`: the size of the query the category's id stands for. */
    function GetObjectsFromCategoryCount(id: int): (n: nat)
      reads this, provider
      ensures id in categoriesAll ==> n == provider.GetObjectsFromCategoriesCount(categoriesAll[id])
      ensures id !in categoriesAll ==> n == provider.GetObjectsFromCategoryCount(id)
    {
      CountOf(provider.metadata, categoriesAll, id)
    }

    /**
      `Initialize`: the i-th group (counting from 0) gets the synthetic id
      `-i`, an "All" category with that id unless it has one, and the entry
      `categoriesAll[-i]` listing its category ids (`InitializedCatalogue`);
      then the category screen is built and the three subscriptions are made.
      The search subscription hands the current search string to `SearchEdited`
      at once; when that throws, `Initialize` throws too and the objects screen
      is left as it was; otherwise the objects screen is deactivated.
    */
    method Initialize() returns (r: Result<seq<ObjectModel>, ShowError>, ghost keys: seq<int>)
      requires Valid() && categoriesAll == map[]
      modifies this, provider, search
      ensures Valid() && provider.metadata == old(provider.metadata) && disposed == old(disposed)
      ensures groups == WithAllGroups(old(groups))
      ensures categoriesAll == AllMap(groups)
      ensures categoriesScreen == GroupItems(provider.metadata, categoriesAll, VisibleGroups(groups))
      ensures subscribed == !disposed
      ensures r.Failure? ==>
                old(search.NeedSearch()) &&
                categoriesActive == old(categoriesActive) && objectsActive == old(objectsActive) &&
                objectsScreen == old(objectsScreen) && dragSubscriptions == old(dragSubscriptions)
      ensures old(search.NeedSearch()) ==> search.searchString == old(search.searchString)
      ensures old(search.NeedSearch()) ==>
                ((r.Failure? && r.error.LoadFailed?) <==>
                 exists k :: k in NameMatches(provider.metadata, old(Filter()), Some([UnpublishedCategoryId])) &&
                   provider.Unloadable(old(provider.cache), k))
      ensures old(search.NeedSearch()) && r.Success? ==>
                |keys| == |r.value| &&
                (forall k :: k in keys <==> k in NameMatches(provider.metadata, old(Filter()), Some([UnpublishedCategoryId]))) &&
                ObjectItems(provider.metadata, r.value).Some? &&
                objectsScreen == ObjectsScreen(BackButtonName, ObjectItems(provider.metadata, r.value).value) &&
                !categoriesActive && !objectsActive && dragSubscriptions == old(dragSubscriptions) + 1
      ensures !old(search.NeedSearch()) ==>
                r == Success([]) && keys == [] && categoriesActive && !objectsActive &&
                objectsScreen == old(objectsScreen) && unchanged(provider)
      ensures !old(search.NeedSearch()) && old(categoriesActive) ==>
                dragSubscriptions == old(dragSubscriptions) && search.searchString == old(search.searchString)
      ensures !old(search.NeedSearch()) && !old(categoriesActive) ==>
                dragSubscriptions == 0 && search.searchString == ""
    {
      BuildCategories();
      subscribed := !disposed;
      r, keys := SearchEdited();
      if r.Failure? {
        return;
      }
      objectsActive := false;
    }

    /** The first half of `Initialize`: the "All" categories, `categoriesAll` and the category screen. */
    method BuildCategories()
      requires Valid()
      modifies this
      ensures Valid() && disposed == old(disposed) && subscribed == old(subscribed)
      ensures groups == WithAllGroups(old(groups))
      ensures categoriesAll == AllMap(groups)
      ensures categoriesScreen == GroupItems(provider.metadata, categoriesAll, VisibleGroups(groups))
      ensures categoriesActive == old(categoriesActive) && objectsActive == old(objectsActive)
      ensures objectsScreen == old(objectsScreen) && dragSubscriptions == old(dragSubscriptions)
    {
      var gs, all := ExtendGroups(groups);
      groups := gs;
      categoriesAll := all;
      categoriesScreen := GroupItems(provider.metadata, categoriesAll, VisibleGroups(groups));
    }

    /** `Dispose`: the subscriptions end and `categoriesAll` is emptied. */
    method Dispose()
      modifies this
      ensures categoriesAll == map[] && !subscribed && disposed
      ensures groups == old(groups) && categoriesScreen == old(categoriesScreen) && objectsScreen == old(objectsScreen)
      ensures categoriesActive == old(categoriesActive) && objectsActive == old(objectsActive)
      ensures dragSubscriptions == old(dragSubscriptions)
    {
      subscribed := false;
      disposed := true;
      categoriesAll := map[];
    }

    /** `ShowObjectsView`: only the objects screen is active, it shows `screen`, one more drag subscription. */
    method ShowObjectsView(screen: ObjectsScreen)
      modifies this
      ensures !categoriesActive && objectsActive && objectsScreen == screen
      ensures dragSubscriptions == old(dragSubscriptions) + 1
      ensures groups == old(groups) && categoriesAll == old(categoriesAll) && categoriesScreen == old(categoriesScreen)
      ensures subscribed == old(subscribed) && disposed == old(disposed)
    {
      categoriesActive := false;
      objectsActive := true;
      objectsScreen := screen;
      dragSubscriptions := dragSubscriptions + 1;
    }

    /**
      `ObjectsBackClicked`: back to the category screen, every drag
      subscription dropped, the search field cleared. Clearing the field sets
      the search string to "" and calls `SearchEdited` again, which finds the
      category screen active and does nothing.
    */
    method ObjectsBackClicked()
      modifies this, search
      ensures categoriesActive && !objectsActive && dragSubscriptions == 0
      ensures search.searchString == ""
      ensures groups == old(groups) && categoriesAll == old(categoriesAll) && categoriesScreen == old(categoriesScreen)
      ensures objectsScreen == old(objectsScreen) && subscribed == old(subscribed) && disposed == old(disposed)
    {
      categoriesActive := true;
      objectsActive := false;
      dragSubscriptions := 0;
      search.SetSearchString("");
    }

    /** `q` on the provider: `GetObjectsFromCategory` or `GetObjectsFromCategories`. */
    method RunQuery(q: Query) returns (r: Result<seq<ObjectModel>, LoadError>, ghost keys: seq<int>)
      requires Valid()
      modifies provider
      ensures Valid() && provider.metadata == old(provider.metadata) && provider.freeShape == old(provider.freeShape)
      ensures r.Failure? <==> exists k :: k in Selected(provider.metadata, q) && provider.Unloadable(old(provider.cache), k)
      ensures r.Success? ==>
                |keys| == |r.value| == |Selected(provider.metadata, q)| &&
                (forall k :: k in keys <==> k in Selected(provider.metadata, q)) &&
                forall i :: 0 <= i < |keys| ==>
                  keys[i] in provider.cache && Serves(provider.freeShape, provider.cache[keys[i]], r.value[i])
    {
      match q {
        case FromCategory(c) => r, keys := provider.GetObjectsFromCategory(c);
        case FromCategories(cs) => r, keys := provider.GetObjectsFromCategories(cs);
      }
    }

    /**
      Runs `q` on the provider and builds the objects screen titled `title`
      from its models. The source returns nothing and lets exceptions escape;
      `LoadFailed` and `NameMissing` are this model's wrappers for the two it
      can meet (a load that throws, a model whose name is missing) and have no
      counterpart there.
    */
    method ShowQuery(title: string, q: Query) returns (r: Result<seq<ObjectModel>, ShowError>, ghost keys: seq<int>)
      requires Valid()
      modifies this, provider
      ensures Valid() && provider.metadata == old(provider.metadata) && provider.freeShape == old(provider.freeShape)
      ensures groups == old(groups) && categoriesAll == old(categoriesAll) && categoriesScreen == old(categoriesScreen)
      ensures subscribed == old(subscribed) && disposed == old(disposed)
      ensures (r.Failure? && r.error.LoadFailed?) <==>
                exists k :: k in Selected(provider.metadata, q) && provider.Unloadable(old(provider.cache), k)
      ensures r.Failure? ==> (categoriesActive == old(categoriesActive) && objectsActive == old(objectsActive) &&
                objectsScreen == old(objectsScreen) && dragSubscriptions == old(dragSubscriptions))
      ensures r.Success? ==>
                |r.value| == |Selected(provider.metadata, q)| &&
                ObjectItems(provider.metadata, r.value).Some? &&
                objectsScreen == ObjectsScreen(title, ObjectItems(provider.metadata, r.value).value) &&
                !categoriesActive && objectsActive && dragSubscriptions == old(dragSubscriptions) + 1
      ensures r.Success? ==>
                |keys| == |r.value| && (forall k :: k in keys <==> k in Selected(provider.metadata, q)) &&
                forall i :: 0 <= i < |keys| ==>
                  keys[i] in provider.cache && Serves(provider.freeShape, provider.cache[keys[i]], r.value[i])
    {
      var loaded;
      loaded, keys := RunQuery(q);
      if loaded.Failure? {
        return Failure(LoadFailed(loaded.error)), keys;
      }
      var items := ObjectItems(provider.metadata, loaded.value);
      if items.None? {
        var j :| 0 <= j < |loaded.value| && NameKey(loaded.value[j].data.id) !in provider.metadata;
        return Failure(NameMissing(loaded.value[j].data.id)), keys;
      }
      ShowObjectsView(ObjectsScreen(title, items.value));
      r := Success(loaded.value);
    }

    /**
      `CategoryClicked`: the objects of the category's query, under the
      category's name; as many as the category's count.
    */
    method CategoryClicked(category: CategoryItem) returns (r: Result<seq<ObjectModel>, ShowError>, ghost keys: seq<int>)
      requires Valid()
      modifies this, provider
      ensures Valid() && provider.metadata == old(provider.metadata)
      ensures groups == old(groups) && categoriesAll == old(categoriesAll) && categoriesScreen == old(categoriesScreen)
      ensures subscribed == old(subscribed) && disposed == old(disposed)
      ensures (r.Failure? && r.error.LoadFailed?) <==>
                exists k :: k in Selected(provider.metadata, QueryFor(categoriesAll, category.id)) &&
                  provider.Unloadable(old(provider.cache), k)
      ensures r.Failure? ==> (categoriesActive == old(categoriesActive) && objectsActive == old(objectsActive) &&
                objectsScreen == old(objectsScreen) && dragSubscriptions == old(dragSubscriptions))
      ensures r.Success? ==>
                ObjectItems(provider.metadata, r.value).Some? &&
                objectsScreen == ObjectsScreen(category.name, ObjectItems(provider.metadata, r.value).value) &&
                |objectsScreen.objects| == GetObjectsFromCategoryCount(category.id) &&
                !categoriesActive && objectsActive && dragSubscriptions == old(dragSubscriptions) + 1
      ensures r.Success? ==>
                |keys| == |r.value| &&
                (forall k :: k in keys <==> k in Selected(provider.metadata, QueryFor(categoriesAll, category.id))) &&
                forall i :: 0 <= i < |keys| ==>
                  keys[i] in provider.cache && Serves(provider.freeShape, provider.cache[keys[i]], r.value[i])
    {
      r, keys := ShowQuery(category.name, QueryFor(categoriesAll, category.id));
    }

    /** The filter `GetObjectsByName` receives: the search model's `Check` at the current search string. */
    function Filter(): (f: string -> bool)
      reads search
      ensures forall v :: f(v) == search.Check(v)
    {
      var lower := search.lower;
      var s := search.searchString;
      (v: string) => Matches(lower, s, v)
    }

    /**
      `SearchEdited`: a non-empty search shows the objects whose names match,
      leaving out the unpublished category, under the title "Назад"; an empty
      search goes back when the category screen is not active and does
      nothing otherwise.
    */
    method SearchEdited() returns (r: Result<seq<ObjectModel>, ShowError>, ghost keys: seq<int>)
      requires Valid()
      modifies this, provider, search
      ensures Valid() && provider.metadata == old(provider.metadata)
      ensures categoriesAll == old(categoriesAll) && groups == old(groups) && categoriesScreen == old(categoriesScreen)
      ensures subscribed == old(subscribed) && disposed == old(disposed)
      ensures old(search.NeedSearch()) ==> search.searchString == old(search.searchString)
      ensures old(search.NeedSearch()) ==>
                ((r.Failure? && r.error.LoadFailed?) <==>
                 exists k :: k in NameMatches(provider.metadata, old(Filter()), Some([UnpublishedCategoryId])) &&
                   provider.Unloadable(old(provider.cache), k))
      ensures old(search.NeedSearch()) && r.Success? ==>
                |r.value| == |NameMatches(provider.metadata, old(Filter()), Some([UnpublishedCategoryId]))| &&
                ObjectItems(provider.metadata, r.value).Some? &&
                objectsScreen == ObjectsScreen(BackButtonName, ObjectItems(provider.metadata, r.value).value) &&
                !categoriesActive && objectsActive && dragSubscriptions == old(dragSubscriptions) + 1
      ensures old(search.NeedSearch()) && r.Success? ==>
                |keys| == |r.value| &&
                (forall k :: k in keys <==> k in NameMatches(provider.metadata, old(Filter()), Some([UnpublishedCategoryId]))) &&
                forall i :: 0 <= i < |keys| ==>
                  keys[i] in provider.cache && Serves(provider.freeShape, provider.cache[keys[i]], r.value[i])
      ensures (old(search.NeedSearch()) && r.Failure?) || (!old(search.NeedSearch()) && old(categoriesActive)) ==>
                categoriesActive == old(categoriesActive) && objectsActive == old(objectsActive) &&
                objectsScreen == old(objectsScreen) && dragSubscriptions == old(dragSubscriptions) &&
                search.searchString == old(search.searchString)
      ensures !old(search.NeedSearch()) && old(categoriesActive) ==> unchanged(provider)
      ensures !old(search.NeedSearch()) ==> r == Success([]) && keys == []
      ensures !old(search.NeedSearch()) && !old(categoriesActive) ==>
                categoriesActive && !objectsActive && dragSubscriptions == 0 && search.searchString == "" &&
                objectsScreen == old(objectsScreen) && unchanged(provider)
    {
      if search.NeedSearch() {
        var loaded;
        loaded, keys := provider.GetObjectsByName(Filter(), Some([UnpublishedCategoryId]));
        if loaded.Failure? {
          return Failure(LoadFailed(loaded.error)), keys;
        }
        var items := ObjectItems(provider.metadata, loaded.value);
        if items.None? {
          var j :| 0 <= j < |loaded.value| && NameKey(loaded.value[j].data.id) !in provider.metadata;
          return Failure(NameMissing(loaded.value[j].data.id)), keys;
        }
        ShowObjectsView(ObjectsScreen(BackButtonName, items.value));
        r := Success(loaded.value);
      } else {
        if !categoriesActive {
          ObjectsBackClicked();
        }
        r, keys := Success([]), [];
      }
    }

    /**
      `ObjectDragBegan` for the object with `id`, the drag starting at `at`:
      the object is fetched, the factory chooses a processor, and that
      processor begins the drag. When the factory chooses none, no processor
      is touched.
    */
    method ObjectDragBegan(id: int, at: Vec2)
      returns (r: Result<ObjectModel, LoadError>, kind: Option<ProcessorKind>)
      requires Valid() && provider.ObjectExists(id)
      modifies provider, Notifiers(factory.subject), holeProcessor, freeShapeProcessor, processor2D, processor3D
      ensures Valid() && provider.metadata == old(provider.metadata)
      ensures r.Failure? ==> kind.None?
      ensures r.Failure? <==> provider.Unloadable(old(provider.cache), id)
      ensures r.Success? ==> id in provider.cache && Serves(provider.freeShape, provider.cache[id], r.value)
      ensures r.Success? && factory.subject.Some? && factory.subject.value.Scene3DFactory? ==>
                factory.subject.value.factory.notices ==
                  old(factory.subject.value.factory.notices) + (if kind.None? then [CannotAddIn3D] else [])
      ensures r.Success? ==>
                (factory.subject.None? ==> kind.None?) &&
                (factory.subject == Some(Plan2DFactory) ==> kind == Some(Create2D(r.value.data))) &&
                (factory.subject.Some? && factory.subject.value.Scene3DFactory? ==> kind == Select3D(r.value.data))
      ensures kind.None? ==>
                unchanged(holeProcessor) && unchanged(freeShapeProcessor) && unchanged(processor2D) && unchanged(processor3D)
      ensures kind == Some(HoleProviderProcessor) ==>
                holeProcessor.Current() == HoleProviderDragProcessors.BeginStep(old(holeProcessor.Current()), r.value, at)
      ensures kind == Some(FreeShapeProcessor2D) ==>
                freeShapeProcessor.Current() == StandardDragProcessors.BeginStep(old(freeShapeProcessor.Current()), r.value, at)
      ensures kind == Some(StandardProcessor2D) ==>
                processor2D.Current() == StandardDragProcessors.BeginStep(old(processor2D.Current()), r.value, at)
      ensures kind == Some(StandardProcessor3D) ==>
                processor3D.Current() == StandardDragProcessors.BeginStep(old(processor3D.Current()), r.value, at) &&
                processor3D.objectModel == r.value
    {
      r := provider.GetObjectById(id);
      if r.Failure? {
        return r, None;
      }
      var m := r.value;
      kind := factory.Create(m);
      match kind {
        case None =>
        case Some(HoleProviderProcessor) => holeProcessor.ObjectDragBegan(m, at);
        case Some(FreeShapeProcessor2D) => freeShapeProcessor.ObjectDragBegan(m, at);
        case Some(StandardProcessor2D) => processor2D.ObjectDragBegan(m, at);
        case Some(StandardProcessor3D) => processor3D.ObjectDragBegan(m, at);
      }
    }
  }

}
