# inpe-stac search core in Dafny

This project models the core of inpe-stac. inpe-stac is a STAC (SpatioTemporal Asset Catalog) API that serves INPE's satellite scene catalogue out of a MySQL database. The model covers what `inpe_stac/data.py` and `inpe_stac/util.py` do between an HTTP request and the JSON documents it returns:

- **The filter builder** (`get_collection_items`). It turns a search into an ordered list of WHERE clauses and the dict of parameters bound to them. It covers:
  - `item_id` / `ids`, which take precedence over everything else
  - the `bbox` check and its corner predicate
  - `time` as `start/end`, a single start, or a list
  - the query extension's nine operators
  - `collection_id` / `collections`
- **The soft-delete flag** (`insert_deleted_flag_to_where`, in both files). It prepends `deleted = 0` or `deleted = 1`, or nothing, depending on the `INPE_STAC_DELETED` setting. The setting is a parameter `flag`.
- **The post-processing of the two store answers** (`__search_stac_item_view`):
  - a `None` answer becomes the empty list
  - requested collections without a count get a `matched: 0` entry
  - the count list is sorted by collection name
  - the choice between the `LIMIT :page, :limit` window and the per-collection `row_number()` window
- **The aggregation in `get_collection_items`**: the summed `matched`, and the per-collection `context` metadata with its `returned` counts.
- **The documents**:
  - `make_json_items`, the feature collection: ring, `bbox`, properties, `eo:bands`, assets with `.xml` sidecars and thumbnail, and links
  - `make_json_item_collection`, which appends the `context` extension in place
  - `make_json_collection`
  - `bbox`
- **The helpers of `util.py`**: `calc_offset`, `get_query_string` and `len_result`.

The database is not modelled. The model records the query that `__search_stac_item_view` sends: its clauses, its paging window and its parameters. The two answers of `do_query` are inputs of the model (`rowAnswer`, `countAnswer`), with `None` standing for an empty result set. The environment values (`API_VERSION`, `BASE_URI`, `TIF_ROOT`, `PNG_ROOT`) are the fields of a `Config` parameter.

**Modules and files**

| module (file) | what it holds |
|---|---|
| `Wrappers` (wrappers.dfy) | the `Option` and `Result` types |
| `Text` (text.dfy) | Python's `str.split`, `str.join` and `str.replace`; the string order `sorted` uses; a recogniser for the strings `float()` accepts |
| `OrderedDict` (ordered_dict.dfy) | a Python dict as an insertion-ordered list of pairs |
| `Records` (records.dfy) | the row shapes of `stac_item` and `stac_collection`, and `Config` |
| `Util` (util.dfy) | the helpers of util.py |
| `FilterBuilder` (filter.dfy) | the filter builder |
| `Search` (search.dfy) | the view and the aggregation |
| `Items` (items.dfy) | the item documents and `bbox` |
| `CollectionDoc` (collection_doc.dfy) | `make_json_collection` |

**Form of the model**

- Pure computations are functions.
- Seven methods model the source's loops and step-by-step code. Each is proved equal to a specification function:
  - `FilterBuilder.ApplyBbox`: the loop over the bbox parts
  - `FilterBuilder.ApplyQuery`: the loop over the query fields
  - `FilterBuilder.BuildFilter`: the body of `get_collection_items` up to the search
  - `Search.FillZeroCounts`: the loop over the requested collections
  - `Search.GetCollectionItems`: the whole search, with the `reduce` as a loop
  - `Items.MakeFeature` and `Items.MakeFeatures`: the body of the loop over the rows, and the loop itself
  - `CollectionDoc.MakeJsonCollection`: the loop over the assets
- `Search.SearchItemView` is a method too. It changes the caller's clause list in place.
- The loop of `bbox` over its two axes, with its `sorted` calls (data.py:522-524), is the function pair `Items.LeastOn` / `Items.GreatestOn`.
- The lists and documents the source changes in place are three classes:
  - `Util.WhereList`: the list that util.py's `insert_deleted_flag_to_where` inserts into
  - `FilterBuilder.Where`: the `default_where` list that data.py's copy inserts into
  - `Items.ItemCollection`: the document `make_json_item_collection` completes

**A time value with an unexpected number of parts**

A string `time` always splits on '/' into at least one part, so only an empty list has no parts. For an empty list, or a string or list with more than two parts, the code raises no error (data.py:220-227). It still appends `date >= :time_start`, but binds no `time_start`. `FilterBuilder.WellBoundUnlessOddTime` shows that exactly these requests leave a placeholder unbound.

**Paging kept as written**

Two paging details are kept as the code writes them:

- The SQL offset is `page - 1`, not `calc_offset(page, limit)` (data.py:166, 107).
- The per-collection window is `rn >= page - 1 AND rn <= limit` (data.py:98).

The lemmas in `Search` state what this does:

- Without collections and with a limit of two or more, consecutive pages overlap.
- Pages 1 and 2 of a collections search are the same.
- No later page shows a row that page 1 did not.

## Model

| member | source | states |
|---|---|---|
| Util.CalcOffset | inpe_stac/util.py:5-17 | the first page (and any page below it) starts at offset 0; with a non-negative limit the offset is never negative |
| Util.ContiguousPages | inpe_stac/util.py:5-17 | from page 1 on, page `p + 1` starts exactly `limit` rows after page `p` |
| Util.RowOnExactlyOnePage | inpe_stac/util.py:5-17 | with a positive limit, every row position `n >= 0` lies on the page `n / limit + 1` and on no other page |
| Util.RenderedPairs | inpe_stac/util.py:20-23 | at most one `key=value` pair per parameter |
| Util.RenderedPairsEmpty | inpe_stac/util.py:20-23 | no pair is rendered exactly when every value is None |
| Util.QueryStringEmpty | inpe_stac/util.py:20-23 | the query string is empty exactly when every value is None |
| Util.RenderedPairsNoAmpersand | inpe_stac/util.py:20-23 | when no key or value contains '&', no rendered pair does |
| Util.QueryStringSplits | inpe_stac/util.py:20-23 | when no key or value contains '&' and some value is present, splitting the query string on '&' gives back the rendered pairs (the join is inverted) |
| Util.WithDeletedFlag | inpe_stac/util.py:26-35 | flag "0" or "1" puts `deleted = <flag>` in front of the unchanged clauses; any other flag leaves the clauses as they are |
| Util.WhereList.InsertDeletedFlag | inpe_stac/util.py:26-35 | the list, changed in place, is the old list with the flag's clause inserted at index 0 (flag "0"/"1") or unchanged |
| Util.LenResult | inpe_stac/util.py:38-39 | None has length 0, a list has its own length |
| Text.JoinSplit | inpe_stac/data.py:191-194 | joining with the separator the parts `split` returns gives back the string |
| Text.SplitJoin | inpe_stac/data.py:265 | splitting a non-empty comma-free list joined with ',' gives back the list |
| Text.ReplaceTifSuffix | inpe_stac/data.py:443 | replacing ".tif" in a path that ends with ".tif" keeps the path's front as `replace` leaves it and turns the ending into ".xml" |
| Text.LexLeTotal | inpe_stac/data.py:146 | the string order used by `sorted` relates every two names |
| Text.LexLeTransitive | inpe_stac/data.py:146 | the string order is transitive |
| Text.LexLeAntisymmetric | inpe_stac/data.py:146 | two names each not above the other are equal |
| OrderedDict.Get | inpe_stac/data.py:436-450 | a lookup finds a value exactly when the key is present |
| OrderedDict.Put | inpe_stac/data.py:436-450 | assigning `d[k] = v` makes `k` map to `v` and leaves every other key's value, and each key's place, unchanged; a new key goes to the end |
| FilterBuilder.ClausesByTable | inpe_stac/data.py:233-254 | each clause built for a field is one of the given operators applied to that field with the value the request gave for it; every operator the request names yields its clause |
| FilterBuilder.ClausesByTableConcat | inpe_stac/data.py:236-254 | running the operator checks in two batches gives the two batches' clauses in turn |
| FilterBuilder.FieldClausesFollowOperatorOrder | inpe_stac/data.py:236-254 | a field's clauses come in the fixed order eq, neq, lt, lte, gt, gte, startsWith, endsWith, contains |
| FilterBuilder.FieldClausesShape | inpe_stac/data.py:236-254 | every clause of a field is a known operator with the value given for it, and every known operator given yields its clause |
| FilterBuilder.UnknownOperatorIgnored | inpe_stac/data.py:236-254 | adding a key that is not one of the nine operators leaves the field's clauses unchanged |
| FilterBuilder.QueryClauses | inpe_stac/data.py:233-254 | the query extension yields only operator clauses |
| FilterBuilder.FieldClausesNonEmpty | inpe_stac/data.py:236-254 | a field yields clauses exactly when its dict names one of the nine operators |
| FilterBuilder.QueryClausesNonEmpty | inpe_stac/data.py:233-254 | a query yields clauses exactly when some field's dict names one of the nine operators; fields with only unknown keys add nothing |
| FilterBuilder.ApplyBbox | inpe_stac/data.py:189-209 | the loop over the bbox parts and the unpacking give the bbox step: success with the corner clause and the four corners bound, or `InvalidBoundingBoxError` |
| FilterBuilder.ApplyQuery | inpe_stac/data.py:233-254 | the loop over `query.items()` appends each field's operator clauses, field after field |
| FilterBuilder.BuildFilter | inpe_stac/data.py:161-265 | the whole builder: identifier search, or bbox, time, query and collections in the source's order, with the first error raised |
| FilterBuilder.WithDeletedFlag | inpe_stac/data.py:28-37 | flag "0" or "1" prepends `deleted = <flag>` to the unchanged clauses; any other flag leaves them as they are |
| FilterBuilder.Where.InsertDeletedFlag | inpe_stac/data.py:28-37 | the `where` list, changed in place, is the old list with the flag's clause at index 0 (flag "0"/"1") or unchanged |
| FilterBuilder.IdSearchTakesPrecedence | inpe_stac/data.py:172-186 | `item_id` gives the single clause `id = :item_id`, otherwise `ids` gives `FIND_IN_SET(id, :ids)`; only that identifier is bound besides page and limit, and no collection is |
| FilterBuilder.IdSearchIgnoresOtherFilters | inpe_stac/data.py:172-188 | an identifier search gives the same filter whatever bbox, time, query and collections say |
| FilterBuilder.BboxRejectedIff | inpe_stac/data.py:189-209 | the bbox error is raised exactly when there is no identifier search and the bbox is not four comma-separated numbers |
| FilterBuilder.BboxStepCorners | inpe_stac/data.py:191-194 | an accepted bbox binds four numeric corners which, joined with ',', give back the bbox string |
| FilterBuilder.BboxCornersAreTheParts | inpe_stac/data.py:189-209 | in a successful search with a bbox, `min_x, min_y, max_x, max_y` are the bbox's parts in order, each a number |
| FilterBuilder.TimeOtherRejected | inpe_stac/data.py:212-213 | a time that is neither a string nor a list raises BadRequest with the source's message (once the bbox has passed) |
| FilterBuilder.TimeBindings | inpe_stac/data.py:215-227 | two parts bind start and end, one part binds only the start, any other count binds neither |
| FilterBuilder.UnscopedClauses | inpe_stac/data.py:189-265 | without an identifier, the clauses are the collections clause, the bbox clause, the time clauses and the query clauses, in that order |
| FilterBuilder.UnscopedParams | inpe_stac/data.py:189-265 | without an identifier, the corners are bound exactly when a bbox is given, the collections exactly when requested, the start for one or two time parts and the end for two |
| FilterBuilder.ClauseLayout | inpe_stac/data.py:189-265 | a successful search without an identifier has the four sections in the source's order |
| FilterBuilder.SectionKinds | inpe_stac/data.py:189-265 | each section holds only its own kind of clause; the collections, bbox and time clauses are present exactly when the request asks for them, and query clauses only when a query is given |
| FilterBuilder.SectionsMembership | inpe_stac/data.py:189-265 | the collections, bbox and time clauses appear in the built list exactly when the request contains their filter, and operator clauses only when it contains a query |
| FilterBuilder.ClauseMembership | inpe_stac/data.py:161-265 | for every successful request, the identifier, collections, bbox and time clauses appear exactly when the request asks for them, operator clauses only when a query is given without an identifier, and no `deleted` clause is built before the flag is inserted |
| FilterBuilder.OrderedConcat | inpe_stac/data.py:189-265 | appending a list whose clauses rank no lower keeps the clause order |
| FilterBuilder.FourSectionsInOrder | inpe_stac/data.py:189-265 | four sections whose clause kinds rank in turn concatenate in clause order |
| FilterBuilder.SectionsInOrder | inpe_stac/data.py:189-265 | the sections of a search are in the order collections, bbox, time, query |
| FilterBuilder.BuiltClausesInOrder | inpe_stac/data.py:161-265 | every built list is in clause order |
| FilterBuilder.CountDeletedNone | inpe_stac/data.py:28-37 | a list without a `deleted` clause counts none |
| FilterBuilder.FlagKeepsOrder | inpe_stac/data.py:28-37 | inserting the flag into an ordered list without one leaves one `deleted` clause at index 0 (flag "0"/"1") or none, and keeps the order |
| FilterBuilder.FinalClauses | inpe_stac/data.py:80-86 | what reaches the store has one `deleted` clause, the first, for flag "0"/"1" and none otherwise, and is ordered deleted, collections, bbox, time, query |
| FilterBuilder.KindsWellBound | inpe_stac/data.py:165-265 | for clauses whose placeholders are bound except perhaps `time_start`, every placeholder is bound exactly when `date >= :time_start` has its start |
| FilterBuilder.SectionsWellBound | inpe_stac/data.py:189-265 | a filter with the sections and bindings of a request binds every placeholder exactly when the time value has one or two parts (or is absent) |
| FilterBuilder.WellBoundUnlessOddTime | inpe_stac/data.py:161-265 | every placeholder a built clause names is bound, except exactly when the time value is an empty list or has more than two parts |
| FilterBuilder.CollectionsParam | inpe_stac/data.py:256-265 | the requested collections (`collection_id` as a one-element list) are bound comma-joined; splitting the binding on ',' gives back a non-empty comma-free list |
| FilterBuilder.EmptyCollectionListBindsEmptyName | inpe_stac/data.py:260-265 | an empty collection list still adds the clause, bound to "", which the view splits into the one name "" |
| FilterBuilder.SceneInsideBoxHits | inpe_stac/data.py:197-207 | a scene with all four corners inside the box satisfies the corner predicate |
| FilterBuilder.SceneOutsideBoxMissed | inpe_stac/data.py:197-207 | a scene lying wholly outside the box, beyond any one of its four sides, fails the corner predicate |
| Search.WindowOfRequest | inpe_stac/data.py:89-108 | a collections search pages by `rn` from `page - 1` to `limit`, any other search with `LIMIT page - 1, limit` |
| Search.OffsetAgreesWithCalcOffsetIff | inpe_stac/data.py:107 | the SQL offset `page - 1` equals `calc_offset(page, limit)` exactly on the first page or with a limit of one |
| Search.ConsecutiveGlobalPagesOverlap | inpe_stac/data.py:107 | with a limit of two or more, pages `p` and `p + 1` both return row `p` |
| Search.CalcOffsetPagesDisjoint | inpe_stac/util.py:5-17 | with `calc_offset`'s offsets no row would be on two consecutive pages |
| Search.PartitionFirstPagesAgree | inpe_stac/data.py:98 | in a collections search pages 1 and 2 keep the same rows |
| Search.PartitionLaterPagesRepeat | inpe_stac/data.py:98 | each later page keeps a subset of the previous page's rows, all among each collection's first `limit` |
| Search.FillZeroCounts | inpe_stac/data.py:139-144 | the loop over the requested names appends a zero entry for each name not yet counted |
| Search.SumMatchedConcat | inpe_stac/data.py:186 | the summed `matched` of two lists is the sum of their sums |
| Search.ZeroCountsAppend | inpe_stac/data.py:139-144 | the filled list starts with the store's counts; each added entry is a requested name not counted before, with `matched` 0; the total is unchanged |
| Search.ZeroCountsCover | inpe_stac/data.py:139-144 | after the fill a name is counted exactly when the store counted it or it was requested |
| Search.ZeroCountsDistinct | inpe_stac/data.py:139-144 | a count list with distinct names keeps them distinct after the fill |
| Search.InsertByCollectionPermutes | inpe_stac/data.py:146 | inserting an entry adds exactly that entry |
| Search.InsertByCollectionMembers | inpe_stac/data.py:146 | inserting an entry brings in no other entry |
| Search.InsertByCollectionSorted | inpe_stac/data.py:146 | inserting into a sorted list keeps it sorted by collection name |
| Search.SortByCollectionCorrect | inpe_stac/data.py:146 | the sort gives a list ordered by collection name that is a permutation of its input |
| Search.SumMatchedPermutation | inpe_stac/data.py:146 | reordering a count list does not change its summed `matched` |
| Search.ReportedPermutation | inpe_stac/data.py:146 | reordering a count list does not change which names it counts |
| Search.InsertByCollectionDistinct | inpe_stac/data.py:146 | inserting a name not yet counted into a list of distinct names keeps them distinct |
| Search.SortByCollectionDistinct | inpe_stac/data.py:146 | sorting keeps distinct names distinct |
| Search.CountRows | inpe_stac/data.py:282-285 | a collection has no more rows than the result has |
| Search.MetaOf | inpe_stac/data.py:274-289 | one metadata entry per count entry, in the same order, naming its collection and carrying its `matched`, the request's page and limit, and the rows of that collection returned |
| Search.CountRowsInAdd | inpe_stac/data.py:282-285 | counting the rows of one more collection adds that collection's rows |
| Search.CountRowsInAll | inpe_stac/data.py:282-285 | when every row belongs to a named collection, the rows of the named collections are all the rows |
| Search.ReturnedSumsToNamedRows | inpe_stac/data.py:274-289 | with distinct names, the `returned` values add up to the rows whose collection has an entry |
| Search.MetaMatchedSum | inpe_stac/data.py:272-289 | the entries' `matched` values add up to the summed `matched` of the count list |
| Search.SearchItemView | inpe_stac/data.py:80-152 | inserts the flag into the caller's list in place; sends that list with the window its parameters call for; returns the rows and, in a collections search, the count list filled with zeros and sorted (None read as []) |
| Search.GetCollectionItems | inpe_stac/data.py:155-302 | builds the filter or raises its error; otherwise returns the view's rows, the `reduce` sum of `matched`, and the metadata of a collections search |
| Search.MatchedIsStoreSum | inpe_stac/data.py:183-296 | `matched` is the sum of what the store counted, whatever zeros were added and however they were sorted |
| Search.CollectionsMeta | inpe_stac/data.py:270-289 | in a collections search the entries are sorted by name, their `matched` values add up to the total, and each carries the request's page and limit and its own returned rows |
| Search.NamedIffReported | inpe_stac/data.py:274-289 | a collection has a metadata entry exactly when the count list names it |
| Search.UncountedAreZero | inpe_stac/data.py:139-146 | an entry of the sorted, filled list for a name the store did not count reports 0 |
| Search.CountedKept | inpe_stac/data.py:139-146 | every entry the store counted is still in the sorted, filled list |
| Search.CollectionsReported | inpe_stac/data.py:139-289 | a collection has an entry exactly when the store counted it or it was requested; uncounted ones report `matched` 0; every counted one is reported with its own count and returned rows |
| Search.ReturnedSumsToRows | inpe_stac/data.py:274-289 | with distinct store groups and every row in some reported collection, the `returned` values add up to the rows returned |
| Search.NoMetaWithoutCollections | inpe_stac/data.py:289-296 | a search without collections has empty metadata and pages with `LIMIT` |
| Search.IdSearchResult | inpe_stac/data.py:172-186 | an identifier search never fails; it has no metadata, pages with `LIMIT page - 1, limit`, and sums the store's counts |
| Search.RowsAreTheStoreRows | inpe_stac/data.py:129-134 | the rows returned are the store's rows, `None` counting as none, so their number is `len_result` of the answer |
| Items.LeastOn | inpe_stac/data.py:522-524 | the smallest coordinate on an axis is at most every point's and is some point's |
| Items.GreatestOn | inpe_stac/data.py:522-524 | the largest coordinate on an axis is at least every point's and is some point's |
| Items.Bbox | inpe_stac/data.py:519-526 | the box has four numbers |
| Items.BboxBounds | inpe_stac/data.py:519-526 | `[min lon, min lat, max lon, max lat]`: the bounds are ordered, every point lies within them, and each bound is attained by some point |
| Items.RingShape | inpe_stac/data.py:389-398 | the polygon has five points visiting TL, BL, BR, TR and closing at TL |
| Items.SceneBbox | inpe_stac/data.py:391-399 | a scene's bbox contains its four corners, its bounds are corner coordinates, and used as a search box it selects the scene |
| Items.EoBandsOf | inpe_stac/data.py:428-434 | one `eo:bands` element per asset, in order, with name and common name the asset's band |
| Items.SidecarKeyInjective | inpe_stac/data.py:442 | distinct bands have distinct `_xml` keys |
| Items.BandKeysSnoc | inpe_stac/data.py:436-445 | one more asset adds its band key and its `_xml` key |
| Items.BandAssetsKeys | inpe_stac/data.py:428-445 | the assets loop defines exactly each band's key and its `_xml` key, each once |
| Items.AssetsKeys | inpe_stac/data.py:422-451 | a feature's assets are the band keys, their `_xml` keys and `thumbnail`, each once |
| Items.ThumbnailPresent | inpe_stac/data.py:447-450 | the thumbnail entry is the PNG root plus the row's thumbnail path, typed `image/png` |
| Items.BandAssetsEntries | inpe_stac/data.py:428-445 | without key collisions, the i-th band's entry is its TIFF below `TIF_ROOT` with `eo:bands == [i]`, and its `_xml` entry is the same path with ".tif" replaced by ".xml" |
| Items.AssetEntries | inpe_stac/data.py:422-453 | without key collisions, each asset's band entry, its `eo:bands` element and its sidecar entry are as the loop writes them |
| Items.SidecarOfTif | inpe_stac/data.py:443 | a path ending in ".tif", with no other ".tif", gets the sidecar path ending in ".xml" |
| Items.FeatureLinks | inpe_stac/data.py:459-462 | the copied links keep their number and relations; the first gains `<collection>/items/<id>`, the next two `<collection>`, the rest are unchanged |
| Items.MakeFeature | inpe_stac/data.py:381-464 | the body of the loop builds the feature document of one row |
| Items.Each | inpe_stac/data.py:375-470 | mapping over the rows gives one value per row |
| Items.EachAt | inpe_stac/data.py:375-470 | the k-th mapped value is the function applied to the k-th row |
| Items.EachSnoc | inpe_stac/data.py:375-470 | mapping a list with one more row appends that row's value |
| Items.FeaturesSnoc | inpe_stac/data.py:464 | each loop step appends the feature of the next row |
| Items.MakeFeatures | inpe_stac/data.py:375-470 | the loop over the rows gives the features of all rows, in order |
| Items.FeaturesPerItem | inpe_stac/data.py:375-470 | one feature per row, the i-th built from the i-th row |
| Items.FeatureContents | inpe_stac/data.py:381-462 | a feature carries its row's id and collection, the API version, the ring and its bbox, one band per asset, a thumbnail, and the item's self link |
| Items.ItemCollection.AddContext | inpe_stac/data.py:477-492 | on a document with `stac_extensions`, appends "context" and sets the context to page, limit, matched, the number of features and the metadata (None when empty); otherwise, where the source raises, changes nothing; the features never change |
| Items.MakeJsonItems | inpe_stac/data.py:354-474 | None gives a bare FeatureCollection with no features; otherwise a fresh document with the API version, empty extensions and the features of all rows, in order |
| CollectionDoc.CollectionLinks | inpe_stac/data.py:342-348 | the five links: the collection itself, its items, and the catalogue as parent and twice as root |
| CollectionDoc.MakeJsonCollection | inpe_stac/data.py:305-351 | the loop over the assets and the document built from the row, or the error `loads(None)` raises |
| CollectionDoc.RejectedIffNoAssets | inpe_stac/data.py:314 | the document fails exactly when the row has no assets |
| CollectionDoc.CollectionContents | inpe_stac/data.py:305-351 | the row's id (as id and title), description, extent and dates come back unchanged; license is None, extensions `["eo"]`, one band per asset in order, and the five links |
| CollectionDoc.DocumentDeterminesRecord | inpe_stac/data.py:305-351 | two rows with the same document agree on every column and on their assets' band names, in order: only the asset paths are dropped |

## Left out

- The database: the SQL text, the MySQL connection, `do_query` and its timing. The store's two answers are inputs, and the model records the query sent (clauses, window, parameters), not what MySQL would answer for it.
- `get_collections`, the Flask views of `app.py`, the decorators and the logging: they are not part of this model.
- `getenv` and `INPE_STAC_DELETED`: the environment values are the `Config` fields and the `flag` parameter.
- `intersects` is accepted by `get_collection_items` and never used. It is not a field of `Request`.
- `datetime.fromisoformat(...).isoformat()`: the dates of a row and of a collection are already the ISO strings.
- `json.loads`: the `assets` column of a row is already the decoded list of band/href pairs. A malformed JSON column is not modelled; for a collection, only `loads(None)` (no assets) is.
- FilterBuilder.ValidBbox: `float()` is modelled by a recogniser of decimal and exponent literals, `inf`, `infinity` and `nan`, with the ASCII white space Python strips, U+001C to U+001F included. It leaves out Python's digit-group underscores and non-ASCII digits and spaces.
- FilterBuilder.Request: `query` is None unless it is a dict, and each of its values is taken as an operator dict. A non-dict value, on which the source raises `TypeError` or tests membership of a substring, is not modelled. `collections` is a list of names; a string, on which `','.join` would join its characters, is not modelled.
- Util.RenderedPairs: the parameter values are already strings; the source's `str()` of other values is not modelled.
- FilterBuilder.FieldOp: an operator value is kept as the text the source writes into the SQL, without the quoting, and the field name is not checked. SQL injection through them is not modelled.
- Items.MakeJsonItems: requires at least three links, where the source fails with `IndexError` on fewer.
- Items.MakeFeature: the source overwrites `i['assets']` in the row with its decoded value, and deep-copies `links` before appending to hrefs. The model works on values, so the caller's rows and links stay unchanged and no aliasing arises.
- Items.ItemCollection.AddContext: the source raises `KeyError` when the document has no `stac_extensions`, as after `make_json_items(None, …)`. The model returns `ok == false` and leaves the document unchanged.
- `Text.LexLe` orders strings by character code, as Python compares `str`; no locale ordering.
