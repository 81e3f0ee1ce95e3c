# Object catalogue of the interior editor

This project models the object catalogue of the interior editor in Dafny, together with the parts of sign-in that the catalogue's actions depend on. The model is proved correct against its own contracts.

- **Object index.** `FilesystemObjectsProvider` keeps two things:
  - a metadata table from object id to state id, name and categories;
  - a lazily filled cache of loaded object models.

  It answers the catalogue's queries (by category, by several categories, by name) and the plan's query for apertures.
- **Catalogue screens.** `CatalogueController` drives the category screen and the objects screen:
  - it gives every category group a synthetic "Все" (All) category;
  - it counts and lists a category's objects;
  - it runs the name search of `SearchCatalogModel`;
  - it starts dragging an object out of the catalogue.
- **Processor choice.** The drag-processor factories choose the processor for an object. The proxy forwards to the factory of the current editor mode.
- **Drag processors.** The standard 2D and 3D processors add an object with one undoable command per gesture. The hole-provider processor adds a door or window and binds it to the nearest wall.
- **User rights.** `User` holds a user's rights and their memento. `UserRightActionProcessor` runs the action behind a right, which is only `Render`. `AuthenticationData` collects the sign-in form.

How the source's forms are modelled:

- **Stateful classes stay classes.** Classes whose fields the source updates in place keep those fields and have methods with `modifies` clauses.
  - The catalogue's view models only compute values, so they become datatypes and functions.
  - Each method is specified by a pure step function. Lemmas about whole sequences of steps are proved over those functions.
- **Outside calls become a log.** Calls into the editor outside the catalogue are recorded in order as a ghost log of `Effect`s. These are the undo/redo stack, the object preview, the tools manager and the notification controller.
- **Oracles.** Calls whose behaviour lies outside the catalogue become constant function parameters:
  - file reading plus deserialisation is `deserialize`;
  - `Plane.Raycast` is `plane`;
  - `Vector3.FlipYZ` is `flipYZ`;
  - `Floor.GetNearestWall` is `nearestWall`;
  - `ToLowerInvariant` is `lower`;
  - `EnumConverter.TryParse<UserRight>` is `converts`.
- **Exceptions and nulls.** A thrown exception becomes a `Result` failure. A `null` becomes `Option.None` or a `null` reference.

## Model

| member | source | states |
|---|---|---|
| `ObjectsProvider.TableOfKeys` | ObjectsCatalogue/FilesystemObjectsProvider.cs:104-111 | After the entries are added in order, the table's ids are exactly the ids of the metadata entries. |
| `ObjectsProvider.TableOfAt` | ObjectsCatalogue/FilesystemObjectsProvider.cs:104-111 | When no id repeats, each entry is found under its own id, with its own state id, name and categories. |
| `ObjectsProvider.TableOfSize` | ObjectsCatalogue/FilesystemObjectsProvider.cs:104-111 | When no id repeats, the table holds exactly one entry per metadata entry. |
| `ObjectsProvider.NameKey` | ObjectsCatalogue/FilesystemObjectsProvider.cs:124-128 | The name lookup maps every negative id to -1, the free-shape key, and leaves every other id unchanged. |
| `ObjectsProvider.IsInOnlyOneCategory` | ObjectsCatalogue/FilesystemObjectsProvider.cs:251-258 | True exactly when the object has a table entry whose category list is the single category asked for. |
| `ObjectsProvider.CategoriesIsUnion` | ObjectsCatalogue/FilesystemObjectsProvider.cs:176-182 | The multi-category query selects exactly the union of the single-category queries of its members. Its count is at most the sum of theirs. |
| `ObjectsProvider.NameMatchesExcludes` | ObjectsCatalogue/FilesystemObjectsProvider.cs:190-198 | A name query never selects an object from an excluded category. With a null exclusion list it selects exactly the ids whose name the filter accepts. |
| `ObjectsProvider.NegativeIdsNameFreeShape` | ObjectsCatalogue/FilesystemObjectsProvider.cs:113-128 | After a refresh whose free-shape id is -1, every negative id has a name, and that name is the free-shape entry's empty name. |
| `ObjectsProvider.FilesystemObjectsProvider.Refresh` | ObjectsCatalogue/FilesystemObjectsProvider.cs:98-117 | Table and cache are cleared. On success the table is the entries plus the free-shape entry (state -1, empty name). Success happens exactly when no id repeats and no entry takes the free-shape id. On a clash the table is the clash-free prefix. The free-shape template is created once and then kept. |
| `ObjectsProvider.FilesystemObjectsProvider.GetObjectNameById` | ObjectsCatalogue/FilesystemObjectsProvider.cs:124-128 | The name stored under the free-shape key for a negative id, and under the id itself otherwise. |
| `ObjectsProvider.FilesystemObjectsProvider.Load` | ObjectsCatalogue/FilesystemObjectsProvider.cs:77-93 | Returns the template itself for the free-shape id and `null` for an id missing from the table. For any other id it returns a new model stamped with the entry's state id, or the deserialisation failure. |
| `ObjectsProvider.FilesystemObjectsProvider.GetObjectById` | ObjectsCatalogue/FilesystemObjectsProvider.cs:145-156 | On a cache miss exactly that id is loaded and cached. On a hit the cache is unchanged. A failure happens exactly when a miss fails to deserialise, and leaves the cache unchanged. The free-shape object is handed out as a new clone each time, any other object as the cached instance. |
| `ObjectsProvider.FilesystemObjectsProvider.ObjectExists` | ObjectsCatalogue/FilesystemObjectsProvider.cs:135-138 | True exactly when the id is a key of the metadata table. |
| `ObjectsProvider.FilesystemObjectsProvider.GetObjectsFromCategoryCount` | ObjectsCatalogue/FilesystemObjectsProvider.cs:265-268 | The single-category count equals the multi-category count of the one-element list, and never exceeds the table's size. |
| `ObjectsProvider.FilesystemObjectsProvider.GetObjectsFromCategoriesCount` | ObjectsCatalogue/FilesystemObjectsProvider.cs:275-278 | The multi-category count is at most the sum of its members' single-category counts, and at most the table's size. |
| `ObjectsProvider.FilesystemObjectsProvider.Materialize` | ObjectsCatalogue/FilesystemObjectsProvider.cs:165-168 | Selecting the matched ids and loading each one fails exactly when some matched id is not cached, is not the free-shape id and its state does not deserialise. Every object cached before stays cached as the same instance. On success the cache gains exactly the matched ids, and the result holds one model per matched id, each served from the cache. |
| `ObjectsProvider.FilesystemObjectsProvider.GetObjectsFromCategory` | ObjectsCatalogue/FilesystemObjectsProvider.cs:163-169 | Loads the objects whose categories contain the category, exactly as many as `GetObjectsFromCategoryCount` counts. It fails exactly when one of them cannot be loaded; earlier cache entries are kept and the loaded ids are added. |
| `ObjectsProvider.FilesystemObjectsProvider.GetObjectsFromCategories` | ObjectsCatalogue/FilesystemObjectsProvider.cs:176-182 | Loads the objects having some category from the list, exactly as many as `GetObjectsFromCategoriesCount` counts. It fails exactly when one of them cannot be loaded; earlier cache entries are kept and the loaded ids are added. |
| `ObjectsProvider.FilesystemObjectsProvider.GetObjectsByName` | ObjectsCatalogue/FilesystemObjectsProvider.cs:190-198 | Loads exactly the objects whose name the filter accepts and none of whose categories is excluded. A null exclusion list excludes nothing. It fails exactly when one of them cannot be loaded; earlier cache entries are kept and the loaded ids are added. |
| `ObjectsProvider.FilesystemObjectsProvider.Peek` | ObjectsCatalogue/FilesystemObjectsProvider.cs:209-212 | Returns the cached instance when there is one. Otherwise it returns the object `Load` gives, without caching it. It fails exactly when that load fails. |
| `ObjectsProvider.FilesystemObjectsProvider.GetApertureObjects` | ObjectsCatalogue/FilesystemObjectsProvider.cs:204-221 | Succeeds exactly when every table entry can be had from the cache, the template or deserialisation. It then lists each valid aperture once: cached objects as the cached instance, the rest loaded without being cached. |
| `ObjectsProvider.FilesystemObjectsProvider.IsValidApertureObject` | ObjectsCatalogue/FilesystemObjectsProvider.cs:228-233 | True exactly for a hole provider with an SVG thumbnail whose table entry is not the unpublished category alone. |
| `SearchCatalog.Contains` | ObjectsCatalogue/Search/SearchCatalogModel.cs:15 | True exactly when the second string occurs at some index of the first. |
| `SearchCatalog.Matches` | ObjectsCatalogue/Search/SearchCatalogModel.cs:12-16 | True exactly when the value is non-empty and the lower-cased search string occurs in the lower-cased value. |
| `SearchCatalog.MatchesIgnoresCase` | ObjectsCatalogue/Search/SearchCatalogModel.cs:12-16 | Strings that lower-case alike on either side give the same answer. |
| `SearchCatalog.EmptySearchAcceptsAll` | ObjectsCatalogue/Search/SearchCatalogModel.cs:12-16 | An empty search string accepts exactly the non-empty names. |
| `SearchCatalog.SearchCatalogModel.constructor` | ObjectsCatalogue/Search/SearchCatalogModel.cs:8-10 | The search string starts empty, so no search is needed. |
| `SearchCatalog.SearchCatalogModel.SetSearchString` | ObjectsCatalogue/Search/SearchCatalogModel.cs:8 | The observable's value becomes the new text. |
| `SearchCatalog.SearchCatalogModel.NeedSearch` | ObjectsCatalogue/Search/SearchCatalogModel.cs:10 | True exactly when the search string is not empty. When it is empty (and lower-casing keeps "" empty), `Check` accepts exactly the non-empty values. |
| `SearchCatalog.SearchCatalogModel.Check` | ObjectsCatalogue/Search/SearchCatalogModel.cs:12-16 | For the current search string, a value passes exactly when it is non-empty and contains the search string, both lower-cased. |
| `DragProcessorFactories.Create2D` | ObjectsCatalogue/ObjectDragProcessorFactory.cs:69-78 | The hole-provider processor exactly for hole providers. Otherwise the free-shape processor exactly for free-shape models and the standard 2D processor for the rest. Never null. |
| `DragProcessorFactories.Select3D` | ObjectsCatalogue/ObjectDragProcessorFactory.cs:101-111 | No processor exactly when the object has the hole-provider or free-shape flag. Otherwise the standard 3D processor. |
| `DragProcessorFactories.Factory3D.Create` | ObjectsCatalogue/ObjectDragProcessorFactory.cs:101-111 | Returns the 3D choice. Exactly one "cannot add in 3D" notification is shown when the object is refused, and none otherwise. |
| `DragProcessorFactories.FactoryProxy.SetSubject` | ObjectsCatalogue/ObjectDragProcessorFactory.cs:36-39 | The proxy forwards to the given factory from now on. |
| `DragProcessorFactories.FactoryProxy.Create` | ObjectsCatalogue/ObjectDragProcessorFactory.cs:46-49 | Null without a subject. Otherwise exactly what the subject factory returns, including its notification. |
| `Geometry.OnFloor` | ObjectsCatalogue/StandardObjectDragProcessor2D.cs:46-48 | The point flattened onto the floor (`WithY(0)`). |
| `StandardDragProcessors.TargetPosition` | ObjectsCatalogue/StandardObjectDragProcessor2D.cs:45-48 | In 2D the object sits on the floor at the flipped plane point. In 3D it sits at the raycast point. |
| `StandardDragProcessors.BeginStep` | ObjectsCatalogue/AbstractStandardObjectDragProcessor.cs:69-75 | The preview is displayed at the gesture's start, then the drag is subscribed. The command is untouched. |
| `StandardDragProcessors.DragStep` | ObjectsCatalogue/StandardObjectDragProcessor3D.cs:42-66 | The preview moves first. Over the UI, or on a 3D raycast miss, nothing else happens. The first handled move creates the add command at the target, executes it and hides the preview. Later handled moves only reposition the command. |
| `StandardDragProcessors.CompletionEffects` | ObjectsCatalogue/StandardObjectDragProcessor2D.cs:70-76 | The selection tool is added exactly in 2D. A recorded final state comes last exactly when a command exists. Nothing is executed. |
| `StandardDragProcessors.CompleteStep` | ObjectsCatalogue/AbstractStandardObjectDragProcessor.cs:57-62 | The preview is hidden, then the mode's completion runs. The command is dropped and no command is executed. |
| `StandardDragProcessors.DragStepExecutes` | ObjectsCatalogue/StandardObjectDragProcessor3D.cs:47-57 | One move executes a command exactly when it is handled and no command exists yet. |
| `StandardDragProcessors.MovesExecuteOnce` | ObjectsCatalogue/AbstractStandardObjectDragProcessor.cs:44-52 | After a sequence of moves the command exists exactly when it existed before or some move was handled. Exactly one command is executed when none existed and some move was handled, and none otherwise. |
| `StandardDragProcessors.GestureExecutesAtMostOnce` | ObjectsCatalogue/StandardObjectDragProcessor3D.cs:42-76 | A whole gesture that starts without a command executes one command when some move is handled, and none otherwise. It leaves no command behind. |
| `StandardDragProcessors.Plan2DStaysOnFloor` | ObjectsCatalogue/StandardObjectDragProcessor2D.cs:43-65 | In 2D every position a command is given lies on the floor. |
| `StandardDragProcessors.StandardDragProcessor.ObjectDragBegan` | ObjectsCatalogue/StandardObjectDragProcessor3D.cs:32-35 | The processor takes the begin step. In 3D it also stores the model. |
| `StandardDragProcessors.StandardDragProcessor.ProcessObjectDrag` | ObjectsCatalogue/StandardObjectDragProcessor3D.cs:42-66 | The processor takes the drag step. A handled 3D move that repositions an existing command also puts the model on the dragged-object layer. |
| `StandardDragProcessors.StandardDragProcessor.ObjectDragCompleted` | ObjectsCatalogue/StandardObjectDragProcessor3D.cs:71-76 | The processor takes the completion step. In 3D the stored model goes back to the object-view layer. |
| `HoleProviderDragProcessors.DropEffects` | ObjectsCatalogue/HoleProviderObjectDragProcessor.cs:74-101 | With no wall near the drop point, the result is the "no walls available" notification. Otherwise one composite command: add the object at the origin, then bind it to the wall at the flipped plane point on the floor. |
| `HoleProviderDragProcessors.BeginStep` | ObjectsCatalogue/HoleProviderObjectDragProcessor.cs:109-115 | The highlight-nearest-wall tool is added, then the preview is displayed, then the drag is subscribed. |
| `HoleProviderDragProcessors.DragStep` | ObjectsCatalogue/HoleProviderObjectDragProcessor.cs:59-62 | The pointer position is remembered and the preview moves there. Nothing is executed. |
| `HoleProviderDragProcessors.CompleteStep` | ObjectsCatalogue/HoleProviderObjectDragProcessor.cs:68-102 | The preview is hidden and the selection tool added, then the drop effect follows. One command is executed exactly when a wall is near the stored pointer's plane point. |
| `HoleProviderDragProcessors.MovesTrackPointer` | ObjectsCatalogue/HoleProviderObjectDragProcessor.cs:53-62 | The pointer ends at the last move's position, or where it was before when there is no move. Moves never execute anything. |
| `HoleProviderDragProcessors.GestureExecutesOnlyAtAWall` | ObjectsCatalogue/HoleProviderObjectDragProcessor.cs:59-102 | A whole gesture executes one command exactly when a wall is near the plane point of the final pointer position. |
| `HoleProviderDragProcessors.HoleProviderDragProcessor.constructor` | ObjectsCatalogue/HoleProviderObjectDragProcessor.cs:53 | The stored pointer position starts at the zero vector. |
| `HoleProviderDragProcessors.HoleProviderDragProcessor.ObjectDragBegan` | ObjectsCatalogue/HoleProviderObjectDragProcessor.cs:109-115 | The processor takes the begin step. |
| `HoleProviderDragProcessors.HoleProviderDragProcessor.ProcessObjectDrag` | ObjectsCatalogue/HoleProviderObjectDragProcessor.cs:59-62 | The processor takes the drag step. |
| `HoleProviderDragProcessors.HoleProviderDragProcessor.ObjectDragCompleted` | ObjectsCatalogue/HoleProviderObjectDragProcessor.cs:68-102 | The processor takes the completion step. |
| `CatalogueControllers.Ids` | ObjectsCatalogue/CatalogueController.cs:72 | The category ids, in order. |
| `CatalogueControllers.WithAll` | ObjectsCatalogue/CatalogueController.cs:68-71 | The group keeps its id, its name and its categories as a prefix, gains at most one category, and afterwards has a category with the given id. |
| `CatalogueControllers.WithAllAddsOnlyWhenMissing` | ObjectsCatalogue/CatalogueController.cs:68-72 | An "All" category with the synthetic id is appended only when no category has that id. Afterwards the group's ids include it, and the group's id and name are unchanged. |
| `CatalogueControllers.SyntheticIds` | ObjectsCatalogue/CatalogueController.cs:63-72 | The synthetic ids of n groups are 0, -1, …, -(n-1). |
| `CatalogueControllers.WithAllGroups` | ObjectsCatalogue/CatalogueController.cs:63-73 | Extending the groups keeps their number. |
| `CatalogueControllers.AllMap` | ObjectsCatalogue/CatalogueController.cs:72 | `categoriesAll` has exactly the synthetic ids of the groups as keys. |
| `CatalogueControllers.WithAllGroupsAt` | ObjectsCatalogue/CatalogueController.cs:63-73 | After initialisation, group i is the original group i with its "All" category of id -i. |
| `CatalogueControllers.AllMapEntries` | ObjectsCatalogue/CatalogueController.cs:63-73 | `categoriesAll` has one key per group, its synthetic id, mapped to that group's category ids. |
| `CatalogueControllers.ExtendGroups` | ObjectsCatalogue/CatalogueController.cs:63-73 | The loop over the groups leaves each group with its "All" category, as `WithAllGroupsAt` describes. It builds `categoriesAll` with the entries `AllMapEntries` describes.
| `CatalogueControllers.InitializedCatalogue` | ObjectsCatalogue/CatalogueController.cs:61-73 | After initialisation each synthetic id maps to its group's category ids, which include the synthetic id itself. |
| `CatalogueControllers.QueryFor` | ObjectsCatalogue/CatalogueController.cs:111-121 | An id that is an "All" key queries its group's categories. Any other id queries itself. |
| `CatalogueControllers.Selected` | ObjectsCatalogue/CatalogueController.cs:178-195 | The ids a query selects are table keys. A single-category query selects exactly the entries listing the category; a multi-category query selects the union of its members' single-category selections. |
| `CatalogueControllers.ObjectItems` | ObjectsCatalogue/CatalogueController.cs:134-145 | One item per model, with the model's id and the name found for it, in order. No result exactly when some model has no name entry. |
| `CatalogueControllers.VisibleGroups` | ObjectsCatalogue/CatalogueController.cs:76-77 | Every group except the unpublished one, and nothing else. |
| `CatalogueControllers.VisibleGroupsAppend` | ObjectsCatalogue/CatalogueController.cs:76-77 | The filter works group by group: the visible groups of two lists joined are those of the first, then those of the second, so order and multiplicity are kept. |
| `CatalogueControllers.VisibleGroupsOne` | ObjectsCatalogue/CatalogueController.cs:76-77 | A single group is kept exactly when it is not the unpublished group. |
| `CatalogueControllers.CountOf` | ObjectsCatalogue/CatalogueController.cs:111-121 | A category's count is the size of the query its id stands for. |
| `CatalogueControllers.CategoryItems` | ObjectsCatalogue/CatalogueController.cs:82-87 | One item per category. |
| `CatalogueControllers.GroupItems` | ObjectsCatalogue/CatalogueController.cs:75-89 | One item per group. |
| `CatalogueControllers.CategoryItemsAt` | ObjectsCatalogue/CatalogueController.cs:82-87 | Each category is listed with its id, its name and the size of its query. |
| `CatalogueControllers.GroupItemsAt` | ObjectsCatalogue/CatalogueController.cs:75-89 | The category screen lists the groups in order, each with its categories' items. |
| `CatalogueControllers.CatalogueController.GetObjectsFromCategoryCount` | ObjectsCatalogue/CatalogueController.cs:111-121 | The provider's multi-category count for an "All" id, and its single-category count otherwise. |
| `CatalogueControllers.CatalogueController.BuildCategories` | ObjectsCatalogue/CatalogueController.cs:63-91 | The groups get their "All" categories and `categoriesAll` its entries (the facts above). The category screen lists the visible groups with counts. Nothing else changes. |
| `CatalogueControllers.CatalogueController.Initialize` | ObjectsCatalogue/CatalogueController.cs:61-109 | The catalogue is built as `BuildCategories` states, and the subscriptions are alive unless the controller was disposed. Subscribing replays the current search string into `SearchEdited`. A non-empty search runs the name query: on failure `Initialize` fails with the screens untouched, and on success the objects screen shows the matches and is then deactivated, so neither screen is active. An empty search activates the category screen (going back first if it was inactive) and deactivates the objects screen. |
| `CatalogueControllers.CatalogueController.Dispose` | ObjectsCatalogue/CatalogueController.cs:123-127 | The subscriptions end, the composite is marked disposed and `categoriesAll` is emptied. Nothing else changes. |
| `CatalogueControllers.CatalogueController.ShowObjectsView` | ObjectsCatalogue/CatalogueController.cs:230-241 | Only the objects screen is active, it shows the given model, and one more drag subscription is held. |
| `CatalogueControllers.CatalogueController.ObjectsBackClicked` | ObjectsCatalogue/CatalogueController.cs:203-209 | Only the category screen is active, the drag subscriptions are dropped and the search string is cleared. |
| `CatalogueControllers.CatalogueController.RunQuery` | ObjectsCatalogue/CatalogueController.cs:178-195 | The provider query for the query value: exactly the selected ids are loaded, one model each, served from the cache. It fails exactly when one of them cannot be loaded. |
| `CatalogueControllers.CatalogueController.ShowQuery` | ObjectsCatalogue/CatalogueController.cs:178-197 | On success the objects screen shows, under the given title, one item per model, and the models are exactly those of the selected ids, each served from the cache. The load fails exactly when a selected object cannot be loaded. On failure no screen changes. The catalogue state and the subscriptions are untouched. |
| `CatalogueControllers.CatalogueController.CategoryClicked` | ObjectsCatalogue/CatalogueController.cs:174-198 | The objects screen shows, under the category's name, the items of exactly the objects the category's id selects (its group's categories for an "All" id), as many as the category's count. The load fails exactly when one of them cannot be loaded. The catalogue state and the subscriptions are untouched. |
| `CatalogueControllers.CatalogueController.Filter` | ObjectsCatalogue/CatalogueController.cs:213-218 | The filter passed to the name query is the search model's `Check`. |
| `CatalogueControllers.CatalogueController.SearchEdited` | ObjectsCatalogue/CatalogueController.cs:211-224 | A non-empty search shows, under "Назад", exactly the objects whose names match, leaving out the unpublished category, each served from the cache. It fails exactly when one of them cannot be loaded. An empty search goes back when the category screen is not active and otherwise changes nothing. The category screen and the subscriptions are untouched. |
| `CatalogueControllers.CatalogueController.ObjectDragBegan` | ObjectsCatalogue/CatalogueController.cs:161-168 | The dragged id is fetched through `GetObjectById`: the fetch fails exactly when that id cannot be loaded, and on success the object is the one the cache serves for the id. That object goes to the factory, and in 3D a refusal adds exactly one "cannot add in 3D" notification. The chosen processor takes its begin step, and when none is chosen no processor changes. |
| `UserRights.Converted` | Authentication/Models/User.cs:43-49 | Keeps, in order, the numbers the converter accepts: each kept right was accepted and is among the numbers, and every accepted number is kept. |
| `UserRights.ConvertedAppend` | Authentication/Models/User.cs:43-49 | Conversion works number by number: the rights of two lists joined are those of the first, then those of the second, so order and multiplicity are kept. |
| `UserRights.ConvertedOne` | Authentication/Models/User.cs:43-49 | A single number becomes its right exactly when the converter accepts it, and is dropped otherwise. |
| `UserRights.Numbers` | Authentication/Models/User.cs:72 | The rights' numeric values, in order. |
| `UserRights.ConvertedNumbers` | Authentication/Models/User.cs:66-88 | Converting back the numbers of rights that all convert gives the same rights. |
| `Users.AllHeld` | Authentication/Models/User.cs:61-64 | True exactly when every right asked for is held. Asking for none is always true. |
| `Users.User.constructor` | Authentication/Models/User.cs:37-54 | The user keeps the convertible right numbers, in order, along with name, surname, token, email and id. |
| `Users.User.GetFullName` | Authentication/Models/User.cs:56-59 | The name, one space, the surname. |
| `Users.User.HasRights` | Authentication/Models/User.cs:61-64 | True exactly when the rights asked for are a subset of the rights held. |
| `Users.User.GetMemento` | Authentication/Models/User.cs:66-74 | Name, surname and the rights' numbers in order. No email is set. |
| `Users.User.SetMemento` | Authentication/Models/User.cs:76-88 | The name and surname come from the memento and the rights from its convertible numbers. Restoring the user's own memento changes nothing when every held right converts; a held right that does not convert is dropped. |
| `UserRightActions.UserRightActionProcessor.constructor` | Authentication/UserRights/UserRightActionProcessor.cs:12-13 | No action is cached yet. |
| `UserRightActions.UserRightActionProcessor.MakeAction` | Authentication/UserRights/UserRightActionProcessor.cs:15-36 | Without the right, nothing happens. With a cached action, that action runs. A first `Render` creates, caches and runs a new action. Any other right does nothing. |
| `AuthenticationModels.AuthenticationData.GetMemento` | Authentication/Models/AuthenticationData.cs:27-35 | A snapshot of the login, the password and the "forget me" flag. |
| `AuthenticationModels.AuthenticationData.constructor` | Authentication/Models/AuthenticationData.cs:5-8 | Login and password start unset and "forget me" starts false. |
| `AuthenticationModels.AuthenticationData.SetLogIn` | Authentication/Models/AuthenticationData.cs:17-20 | Only the login part of the memento changes. |
| `AuthenticationModels.AuthenticationData.SetPassword` | Authentication/Models/AuthenticationData.cs:22-25 | Only the password part of the memento changes. |
| `AuthenticationModels.AuthenticationData.SetForgotMe` | Authentication/Models/AuthenticationData.cs:8 | Only the "forget me" part of the memento changes. |

## Left out

- Reading files is not modelled:
  - The metadata file and the object files are not read. Their FlatBuffers decoding and the object serializer are outside the model.
  - `Refresh` receives the decoded entries.
  - `deserialize` stands for reading and deserialising one object's state file.
- Exceptions from `File.ReadAllBytes` are not modelled.
- The object models' contents are reduced to the fields the catalogue reads: id, flags, whether it has an SVG thumbnail, whether it is a free-shape model, and categories. Thumbnails, instance pools and view models' sprites are left out.
- `ObjectsProvider.FilesystemObjectsProvider.Materialize`: the order of the collections returned is unspecified. The model promises one model per matched id in some order, not the dictionary's enumeration order.
- `ObjectsProvider.FilesystemObjectsProvider.GetApertureObjects`: the order of the returned list is unspecified. The model promises each valid aperture object once, not the dictionary's enumeration order in which the source appends them.
- `CatalogueControllers.CatalogueController.RunQuery`: the models come in the unspecified order of `Materialize`.
- `CatalogueControllers.CatalogueController.ShowQuery`: the objects screen lists its items in the unspecified order of `Materialize`.
- `ObjectsProvider.FilesystemObjectsProvider.GetObjectById`: requires the id to be in the table. For a missing id the source caches `null` and then fails on a null dereference; that path is not modelled.
- `ObjectsProvider.FilesystemObjectsProvider.GetObjectNameById`: requires the lookup key to be present. In the source a failed `Assert` only logs, after which the null name of the default entry is returned; that path is not modelled.
  - `CatalogueController` turns a missing name into the `NameMissing` failure instead.
- `CatalogueControllers.CatalogueController.Initialize`: requires `categoriesAll` to be empty, meaning after construction or `Dispose`. A second `Initialize` without `Dispose` throws on the duplicate key in the source; that is not modelled.
- `CatalogueControllers.CatalogueController.Initialize`: the three subscriptions are one flag, set before the replayed `SearchEdited` runs. When that call throws, the source has kept the category and back subscriptions but not the search one; the model does not tell them apart.
- `CatalogueControllers.CatalogueController.ObjectDragBegan`: requires the object's id to be in the table, for the same reason as `GetObjectById`.
- `StandardDragProcessors.StandardDragProcessor.ObjectDragCompleted`: requires a stored model in 3D. That holds after `ObjectDragBegan`; a completion without a begin dereferences `null` in the source.
- The third argument of `new ObjectCategory(id, "Все", false)` is not modelled. Neither are the `false` flags of the view models.
- Scene-level effects are not modelled:
  - The views' activation and drag-event plumbing (UniRx subscriptions, `CompositeDisposable`) is reduced to flags and a subscription count. The flags say which view is active, whether the subscriptions are alive and whether the composite has been disposed.
  - Each processor's effects on the undo stack, preview, tools manager and notification controller are a log of calls. The commands' own behaviour (undo, redo, `RecordFinalState`'s contents) is outside the catalogue.
- `EventSystem.current.IsPointerOverGameObject()` is a global query. It is modelled as a flag carried by each pointer event.
- The apartment's floor index is passed as a parameter.
- `FreeShapeObjectDragProcessor2D` only inherits `StandardObjectDragProcessor2D`, so it is modelled as one more 2D standard processor.
- Which instance `DiContainer.Resolve` hands out is not modelled. The catalogue owns one processor of each kind.
- `null` strings are not modelled: names, logins, passwords and search strings are always strings. `IsNullOrEmpty` is therefore the empty test.
- The free-shape template's own state id (0 on creation) is not read by the catalogue.
- The initial activation of the two views comes from the scene. It is a constructor parameter.
- `searchView.Clear()` pushes the empty string into the search model, and the search model calls `SearchEdited` again. That nested call finds the category screen active and does nothing, so it is not modelled separately.
- `RenderAction.Make` is recorded in the processor's log; rendering is outside the catalogue.
- `User.Rights` and `User.Name` are reactive properties; their change notifications are not modelled.
- Outside the model: the network-backed sign-in and password-restore requests, their controllers and views, the dependency-injection installers, the category, object and search views, and `DragHandler`.
