# Search NEU: query compiler, index builder and watch lists in Dafny

This project models three pieces of Search NEU, a class search service for a
university catalog, and proves properties of each:

- **The query compiler of the search service** (`backend/searcher.js`),
  modules `Filters` and `Searcher`.
  - The filter registry: per filter a validator, a clause builder and an
    optional facet field.
  - The filter sanitiser. It keeps the valid entries and logs the others.
  - The class filter list built from the sanitised filters.
  - The course-code heuristic that narrows the text search to subject and
    class number.
  - The compound search request.
  - The facet fan-out: one primary query plus one size-0 query per
    facetable filter.
  - The shaping of the store's responses into hits, counts and facet
    buckets.
  - `class Searcher` holds the lazily filled subject cache.
- **The index builder** (`backend/scrapers/classes/searchIndex.js`), module
  `SearchIndex`.
  - A two-pass keyed join of the scraped classes and sections into
    documents grouped by term. Orphaned sections are logged and skipped.
  - A CRN sort of each document's sections.
  - One bulk body per term group, alternating action lines and documents.
  - The delete/create/bulk protocol against the store, as a sequence of
    requests.
  - The guard of `main`.
- **The frontend user's watch lists** (`frontend/components/user.js`),
  module `UserState`. `class User` holds the watched section hashes, the
  watched classes and the callback list, with the methods that change them
  in place.

Shared modules:

- `Json` is the JavaScript value type.
- `JsObject` is an insertion-ordered object: `Object.keys` order, where
  reassigning a key keeps its place. JavaScript lists integer-like keys
  first, in ascending numeric order, and only then the other keys in
  insertion order. The model covers only the second kind, which is what the
  term and class hashes used as keys here are.
- `Collections` holds lodash's `_.without` / `_.pull` and
  `String.prototype.includes`.
- `Keys` holds the key derivers of `common/Keys`. That file is not part of
  this model, so the derivers are function-valued parameters. That a hash
  depends only on the class or section attributes listed in `Keys` is an
  assumption; see "## Left out".

Imperative code stays imperative, and each method is proved against a
function of its inputs. This covers:

- `validateFilters`;
- the three passes of `createSearchIndex` and the bulk loop;
- the fan-out loop of `getSearchResults`;
- the `acc` loop of `removeSection`;
- the list updates of `User`.

Lemmas then state what the source promises about those functions.

The code has three defects, listed under Findings. Each is modelled twice:
once as written and once as evidently intended. The end-to-end members use
the following behaviour:

- Sanitiser. `Searcher.ValidateFilters`, which `GetSearchQueries` and
  `GetSearchQueriesExcludingSelf` call, looks filter names up among the
  registry's own keys. The `in` test at backend/searcher.js:97, which also
  sees names inherited from `Object.prototype`, is modelled only by
  `Searcher.ValidateFiltersAsWritten` and the lemmas about it.
- Facet fan-out. `Searcher.Searcher.GetSearchQueries` is the loop as
  written, whose facet queries carry the term clause alone.
  `Searcher.Searcher.GetSearchQueriesExcludingSelf` is the intended
  variant, where each facet query keeps every other sanitised filter. This
  is standard faceted-search semantics and what the name `everyOtherFilter`
  is for.
- Section order. The rebuild (`CreateSearchIndex`, `SortSections`,
  `SortDoc`, `SortByCrn`) sorts by CRN ascending, as the comment at
  backend/scrapers/classes/searchIndex.js:89-90 states. Only the
  comparator's values are modelled as written (`AsWrittenComparator`). The
  order that `Array.prototype.sort` produces from that comparator is not
  modelled.

## Model

| member | source | states |
|---|---|---|
| Filters.Lookup | backend/searcher.js:58-64 | a key finds a registry entry only under that entry's own name |
| Filters.LookupKey | backend/searcher.js:58-64 | every registry entry is found under its own name |
| Filters.Validate | backend/searcher.js:58-64 | each entry's `validate`: `isStringArray` for nupath, subject and classType, and `isTrue` for online and sectionsAvailable. Its contract is stated by `Filters.BooleanFiltersAcceptOnlyTrue`, `Filters.ListFiltersAcceptStringArrays` and `Filters.ListFiltersRejectNonArrays` |
| Filters.BooleanFiltersAcceptOnlyTrue | backend/searcher.js:29-31 | `online` and `sectionsAvailable` accept the boolean `true` and nothing else, so `false` is refused |
| Filters.ListFiltersAcceptStringArrays | backend/searcher.js:25-27 | the list filters accept an array exactly when every element is a string; the empty array is accepted |
| Filters.ListFiltersRejectNonArrays | backend/searcher.js:25-27 | the list filters refuse every value that is not an array |
| Filters.ValidIsCreatable | backend/searcher.js:39-56 | every value a validator accepts can be compiled; the builders that call `.map` only ever get arrays |
| Filters.Create | backend/searcher.js:33-64 | each entry's `create`. Its contract is stated by `Filters.PhraseEach` and `Filters.MatchEach` (one clause per selected value, in order) and by `Filters.ValidIsCreatable` (no accepted value makes it throw) |
| Filters.PhraseEach | backend/searcher.js:39-42 | one `match_phrase` on `class.classAttributes` per selected tag, in order |
| Filters.MatchEach | backend/searcher.js:44-47 | one `match` on `class.subject` per selected subject, in order |
| Filters.Agg | backend/searcher.js:58-64 | each entry's `agg`, with `None` for `false`. Its contract is stated by `Filters.WithAgg` and `Filters.AggFilters` |
| Filters.WithAgg | backend/searcher.js:198 | `_.pickBy(…, f => !!f.agg)` keeps exactly the entries with a facet field |
| Filters.AggFilters | backend/searcher.js:198 | the facetable filters are nupath, subject and classType, in registry order |
| Searcher.Reason | backend/searcher.js:97-98 | the log line for a dropped entry names its key, and says "invalid key" exactly when the key is not in the registry |
| Searcher.ValidateFilters | backend/searcher.js:94-102 | intended (own-key lookup instead of `in`): the loop returns the sanitised object and the log lines, in entry order, as the folds `ValidFilters` and `Rejections` define them |
| Searcher.ValidFiltersKeys | backend/searcher.js:96-99 | the sanitised object holds only keys of the raw filters |
| Searcher.ValidFiltersExact | backend/searcher.js:94-102 | intended (own-key lookup): a key is kept exactly when it is a registry key whose validator accepts its value, and the value is kept unchanged |
| Searcher.ValidFiltersAt | backend/searcher.js:94-102 | entry `i` of a raw object with distinct keys is kept exactly when its key names a registry entry whose validator accepts its value, and then with that value |
| Searcher.ValidFiltersAccepted | backend/searcher.js:98-99 | every kept entry passes its own entry's validator |
| Searcher.RejectionsSound | backend/searcher.js:97-98 | every log line names a raw entry that was refused, with the right reason |
| Searcher.RejectionsComplete | backend/searcher.js:97-98 | every refused raw entry is logged |
| Searcher.EveryEntryKeptOrLogged | backend/searcher.js:96-100 | every raw entry is either kept or logged, never both and never neither |
| Searcher.OnlineFalseIsDropped | backend/searcher.js:83 | `{online: false, subject: ['CS']}` sanitises to the subject filter alone: a false `online` is dropped, not turned into an offline-only filter |
| Searcher.ValidateFiltersAsWritten | backend/searcher.js:94-102 | the sanitiser as written, with `in` seeing inherited names and `None` for the TypeError. Its contract is stated by `Searcher.AsWrittenThrowsOnlyOnInheritedNames` and `Searcher.InheritedNameThrows` |
| Searcher.AsWrittenThrowsOnlyOnInheritedNames | backend/searcher.js:97-98 | the code as written equals the intended sanitiser unless a raw key is an `Object.prototype` name, in which case it throws |
| Searcher.InheritedNameThrows | backend/searcher.js:97-98 | `{toString: true}` throws as written, and is simply dropped by the intended sanitiser |
| Searcher.PresentIn | backend/searcher.js:112 | the picked entries are exactly the given entries present in the object, and no more of them |
| Searcher.PresentInOrdered | backend/searcher.js:112 | picking from a list in registry order gives a list in registry order |
| Searcher.Picked | backend/searcher.js:112 | `_.pick` of the registry keys: exactly the present registry entries, in registry order; an array argument picks nothing |
| Searcher.GetClassFilterQuery | backend/searcher.js:109-117 | one created clause per picked entry, in order, then exactly one `class.termId` term as the last element |
| Searcher.ValidFiltersCreatable | backend/searcher.js:194-195 | the sanitised filters can always be compiled into a class filter list |
| Searcher.ArrayArgumentYieldsOnlyTermClause | backend/searcher.js:201-202 | given an array instead of a filter object, the class filter list holds only the term clause |
| Searcher.PresentInWithout | backend/searcher.js:112 | picking from an object without one filter's key gives the picked list without that filter |
| Searcher.FacetClassFiltersSpec | backend/searcher.js:200-202 | intended: a facet's class filters are every other picked filter's clause, in registry order, then the term clause |
| Searcher.CourseCodeLetters | backend/searcher.js:122 | the letter group of `/^\s*([a-zA-Z]{2,4})\s*(\d{4})?\s*$/i`, or `None` when the query does not match. Its contract is stated by `Searcher.CourseCodeSound` and `Searcher.CourseCodeComplete` |
| Searcher.CourseCodeSound | backend/searcher.js:122 | a letter group is found only when the query splits into whitespace, 2 to 4 letters, whitespace, 0 or 4 digits, whitespace |
| Searcher.CourseCodeComplete | backend/searcher.js:122 | every query that splits that way has its letter group found |
| Searcher.LowerAscii | backend/searcher.js:136 | lower-casing keeps the length, maps each ASCII capital to the small letter at the same place in the alphabet, and keeps every other character |
| Searcher.GetFields | backend/searcher.js:120-142 | the field list of the text search. Its contract is stated by `Searcher.GetFieldsNarrowsExactlyForKnownCourseCodes` |
| Searcher.GetFieldsNarrowsExactlyForKnownCourseCodes | backend/searcher.js:120-142 | the field list is `['class.subject^10', 'class.classId']` exactly when the query has the course-code shape and its lower-cased letters are a known subject; otherwise it is the nine-field default list |
| Searcher.LettersThenNumberIsNarrowed | backend/searcher.js:135-139 | a query of two to four letters then four digits, such as `CS2500`, is narrowed to subject and class id whenever its lower-cased letters name a known subject |
| Searcher.LongFirstWordUsesDefaultFields | backend/searcher.js:123-133 | a query that starts with five letters is searched over the default field list, whatever the known subjects |
| Searcher.GenerateQuery | backend/searcher.js:144-190 | the compound search request. Its contract is stated by `Searcher.GenerateQueryShape`, `Searcher.FacetRequestAggregates` and `Searcher.SearchFilterMeaning` |
| Searcher.GenerateQueryShape | backend/searcher.js:171-188 | the request's window runs from `min` to `max`; hits are sorted by score, then by class id ascending; the text query uses the selected fields; an aggregation is present exactly when one is named, over that entry's facet field |
| Searcher.FacetRequestAggregates | backend/searcher.js:202 | every auxiliary request has size 0 and a terms aggregation named after its filter, over a real field |
| Searcher.SearchFilterMeaning | backend/searcher.js:175-186 | a document passes the request filter exactly when it is an employee record, or when it has the term and satisfies every picked filter |
| Searcher.Searcher.constructor | backend/searcher.js:13-17 | the subject cache starts empty (`null`) |
| Searcher.Searcher.InitializeSubjects | backend/searcher.js:67-71 | the cache is filled with the distinct subjects only when it is still empty; a filled cache is kept |
| Searcher.Searcher.FacetQueryAsWritten | backend/searcher.js:200-202 | as written: one facet query is filtered by the term clause alone, whatever the other filters are |
| Searcher.Searcher.FacetQueriesAsWritten | backend/searcher.js:200-203 | as written: the facet loop yields the facet queries of the specification function, one per facetable filter |
| Searcher.FacetsOnTermAt | backend/searcher.js:200-202 | as written: facet query `i` aggregates facetable filter `i` and is filtered by the term clause alone |
| Searcher.Searcher.GetSearchQueries | backend/searcher.js:193-203 | as written: the primary query over the sanitised filters, then one size-0 query per facetable filter in registry order, each filtered by the term clause alone |
| Searcher.Searcher.GetSearchQueriesExcludingSelf | backend/searcher.js:193-203 | corrected: each auxiliary query carries every other sanitised filter and not its own |
| Searcher.FacetKeepsOtherFilters | backend/searcher.js:200-202 | in the corrected fan-out, every valid filter other than the facet's own contributes its clause to that facet's query |
| Searcher.SubjectFacetIgnoresOnlineFilter | backend/searcher.js:201-202 | with `{subject: […], online: true}`, the corrected subject facet keeps the online clause, and the code as written drops it |
| Searcher.FacetValues | backend/searcher.js:215 | each bucket becomes a facet value: `key` to value, `doc_count` to count, same order and length |
| Searcher.ParseResults | backend/searcher.js:209-218 | the result exists exactly when the responses have the expected shape. Hits, total and took come from response 0, the facet names are exactly the filter names, and with distinct names facet `i` comes from the buckets of response `i + 1` |
| Searcher.FromPairs | backend/searcher.js:214 | `_.fromPairs`: the object has exactly the given names as keys, and with distinct names each maps to the value paired with it |
| Searcher.FacetLists | backend/searcher.js:214-216 | facet list `i` is built from facet response `i`'s aggregation named `filters[i]` |
| Searcher.AggFilterKeys | backend/searcher.js:206 | the facet names handed to `parseResults` are the facetable filters' keys, in order |
| Searcher.AggFilterKeysDistinct | backend/searcher.js:206 | the facet names are distinct |
| Searcher.FanOutParses | backend/searcher.js:205-206 | responses shaped like the fan-out always parse, one facet per facetable filter |
| JsObject.Dict.Put | backend/scrapers/classes/searchIndex.js:53-56 | assignment updates the value; a new key goes at the end of the key order and an existing one keeps its place |
| JsObject.Empty | backend/scrapers/classes/searchIndex.js:35 | `{}` has no keys |
| JsObject.ValidKeys | backend/scrapers/classes/searchIndex.js:91-93 | `Object.keys` lists exactly the object's keys |
| SearchIndex.AddClass | backend/scrapers/classes/searchIndex.js:37-56 | one step of the class loop. Its contract is stated by `SearchIndex.AddClassEffect` |
| SearchIndex.AddClassEffect | backend/scrapers/classes/searchIndex.js:45-56 | one class step creates its term group if missing, stores a fresh document for the class and touches no other document |
| SearchIndex.Grouped | backend/scrapers/classes/searchIndex.js:35-57 | the class loop as a fold. Its contract is stated by `SearchIndex.GroupedWellFormed`, `SearchIndex.GroupedIndexesClass`, `SearchIndex.GroupedDocument`, `SearchIndex.GroupedLastClassWins` and `SearchIndex.GroupedTermGroup` |
| SearchIndex.GroupedWellFormed | backend/scrapers/classes/searchIndex.js:35-57 | both levels of the grouped object stay well-formed |
| SearchIndex.GroupedIndexesClass | backend/scrapers/classes/searchIndex.js:37-57 | every class of the dump has a document under its term hash and class hash |
| SearchIndex.GroupedDocument | backend/scrapers/classes/searchIndex.js:53-56 | every grouped document holds a class of the dump filed under its hashes, with no sections |
| SearchIndex.GroupedLastClassWins | backend/scrapers/classes/searchIndex.js:53-56 | when classes share a pair of hashes, the last one's document is the one kept |
| SearchIndex.GroupedTermGroup | backend/scrapers/classes/searchIndex.js:45-51 | each term group carries the host and term of the first class with that term hash |
| SearchIndex.GroupClassesByTerm | backend/scrapers/classes/searchIndex.js:37-57 | the class loop computes the grouping fold `Grouped` |
| SearchIndex.AttachSection | backend/scrapers/classes/searchIndex.js:60-87 | one step of the section loop. Its contract is stated by `SearchIndex.AttachSectionEffect` |
| SearchIndex.AttachSectionEffect | backend/scrapers/classes/searchIndex.js:60-87 | one section step appends the section to its own document only, and changes no group, class or key order |
| SearchIndex.Joined | backend/scrapers/classes/searchIndex.js:60-87 | the section loop as a fold. Its contract is stated by `SearchIndex.JoinKeepsShape`, `SearchIndex.JoinAppendsMatching` and `SearchIndex.MatchingMembers` |
| SearchIndex.JoinKeepsShape | backend/scrapers/classes/searchIndex.js:60-87 | the section loop creates and drops no group or document, and changes no class |
| SearchIndex.JoinAppendsMatching | backend/scrapers/classes/searchIndex.js:86 | each document ends with its own sections appended, in dump order |
| SearchIndex.MatchingMembers | backend/scrapers/classes/searchIndex.js:86 | a section is appended to a document exactly when it names that document, as often as it occurs in the dump |
| SearchIndex.OrphansLogged | backend/scrapers/classes/searchIndex.js:74-84 | every section with no group or no document is logged with its reason, and nothing else is logged |
| SearchIndex.JoinSections | backend/scrapers/classes/searchIndex.js:60-87 | the section loop computes the join fold, and logs the orphans in order |
| SearchIndex.StrLtIrreflexive | backend/scrapers/classes/searchIndex.js:97 | no CRN is less than itself under the string order |
| SearchIndex.StrLtTransitive | backend/scrapers/classes/searchIndex.js:97 | the string order is transitive |
| SearchIndex.StrLtTotal | backend/scrapers/classes/searchIndex.js:97 | any two different CRNs are ordered one way or the other |
| SearchIndex.StrLtTrichotomy | backend/scrapers/classes/searchIndex.js:97 | exactly one of less, equal and greater holds |
| SearchIndex.StrLeTotalOrder | backend/scrapers/classes/searchIndex.js:97 | less-or-equal on CRNs is a total order |
| SearchIndex.InsertByCrn | backend/scrapers/classes/searchIndex.js:96-98 | inserting a section adds exactly that section to the multiset |
| SearchIndex.InsertByCrnSorted | backend/scrapers/classes/searchIndex.js:96-98 | inserting into a CRN-sorted list keeps it sorted |
| SearchIndex.SortByCrn | backend/scrapers/classes/searchIndex.js:89-98 | intended (the order the comment at lines 89-90 states): the result is sorted by CRN ascending and is a permutation of the input |
| SearchIndex.AsWrittenComparator | backend/scrapers/classes/searchIndex.js:96-98 | the comparator as written returns only 1 or 0 |
| SearchIndex.AsWrittenComparatorIsInconsistent | backend/scrapers/classes/searchIndex.js:96-98 | for CRNs 1 and 2 it calls the pair equal one way round and ordered the other, and never answers "less" |
| SearchIndex.CrnComparator | backend/scrapers/classes/searchIndex.js:96-98 | corrected: the sign is negative, zero or positive exactly as the first CRN is less, equal or greater |
| SearchIndex.SortDoc | backend/scrapers/classes/searchIndex.js:95-99 | intended CRN order: a document's class is kept, its sections come out sorted and permuted, and a document with at most one section is unchanged |
| SearchIndex.SortPass | backend/scrapers/classes/searchIndex.js:91-101 | the sort pass as a function. Its contract is stated by `SearchIndex.SortPassShape` and `SearchIndex.SortPassDocument` |
| SearchIndex.SortPassShape | backend/scrapers/classes/searchIndex.js:91-101 | the sort pass keeps every group, document, class and key order |
| SearchIndex.SortPassDocument | backend/scrapers/classes/searchIndex.js:91-101 | intended CRN order: after the sort pass every document holds a CRN-sorted permutation of its own sections |
| SearchIndex.SortGroupSections | backend/scrapers/classes/searchIndex.js:93-100 | the inner loop sorts every document of one group |
| SearchIndex.SortSections | backend/scrapers/classes/searchIndex.js:91-101 | the nested loops compute the sort pass |
| SearchIndex.Built | backend/scrapers/classes/searchIndex.js:34-101 | the built object is well-formed at both levels |
| SearchIndex.EveryClassIndexed | backend/scrapers/classes/searchIndex.js:37-57 | every class of the dump has a document in the built object |
| SearchIndex.BuiltDocument | backend/scrapers/classes/searchIndex.js:37-101 | intended CRN order: each built document holds a dump class filed under its hashes, and exactly the dump sections that name it, each as often as in the dump, CRN-sorted |
| SearchIndex.BulkBody | backend/scrapers/classes/searchIndex.js:19-28 | the bulk body of one term group. Its contract is stated by `SearchIndex.BulkBodyLength`, `SearchIndex.BulkBodyLines` and `SearchIndex.GroupBulkIndexesEveryDocument` |
| SearchIndex.BulkBodyLength | backend/scrapers/classes/searchIndex.js:19-28 | a bulk body has two lines per document |
| SearchIndex.BulkBodyLines | backend/scrapers/classes/searchIndex.js:19-28 | line `2j` is the action line naming the `j`-th class hash, and line `2j+1` is that class's document with `code = subject + classId` and its sections unchanged |
| SearchIndex.GroupBulkIndexesEveryDocument | backend/scrapers/classes/searchIndex.js:20-27 | every document of the group has an action line, and every action line names one |
| SearchIndex.GroupBulkActionsDistinct | backend/scrapers/classes/searchIndex.js:20-27 | no two action lines name the same document |
| SearchIndex.CreateSearchIndexFromClassLists | backend/scrapers/classes/searchIndex.js:18-31 | the loop builds the group's bulk body, in key order |
| SearchIndex.Writes | backend/scrapers/classes/searchIndex.js:117-120 | one bulk write per term group. Its contract is stated by `SearchIndex.WritesLength` and `SearchIndex.WritesLines` |
| SearchIndex.WritesLength | backend/scrapers/classes/searchIndex.js:117-120 | one bulk write per term group |
| SearchIndex.WritesLines | backend/scrapers/classes/searchIndex.js:117-120 | write `i` sends the `i`-th term group's bulk body to the classes index |
| SearchIndex.WriteGroups | backend/scrapers/classes/searchIndex.js:115-122 | the loop issues every group's write, and the batch fails exactly when some write fails |
| SearchIndex.CreateSearchIndex | backend/scrapers/classes/searchIndex.js:34-123 | a rebuild always deletes first, ignoring the outcome. A failed create stops before any bulk write. Otherwise one write per term group goes out in key order, and the rebuild fails exactly when one of them does. The orphans are logged |
| SearchIndex.Run | backend/scrapers/classes/searchIndex.js:126-133 | without a dump nothing is sent. With one, the delete and the create go out first, then the bulk writes of every term group in key order, but only after a successful create. The outcome is `CreateFailed` exactly when the create fails, `BulkFailed` exactly when the create succeeds and some write fails, and `Rebuilt` otherwise, so `main` rejects exactly when the create or a write fails. The orphaned sections are logged |
| UserState.FreshRef | frontend/components/user.js:234-239 | the object literal built for `addClass` is identical to no watched value |
| UserState.User.constructor | frontend/components/user.js:20-29 | a new user object has no user data and no callbacks |
| UserState.User.LoadUser | frontend/components/user.js:64 | the server's user data replaces the lists; the callbacks are kept |
| UserState.User.HasSectionAlready | frontend/components/user.js:148-153 | true exactly when there is a user watching that section hash |
| UserState.User.HasClassAlready | frontend/components/user.js:156-161 | true exactly when there is a user watching that class hash |
| UserState.User.RemoveSection | frontend/components/user.js:165-209 | without a user, or for an unwatched section, it logs and changes no list. Otherwise it removes every copy of the section hash, and removes the class hash unless a remaining section hash contains it as a substring |
| UserState.RemoveSectionKeepsClassIff | frontend/components/user.js:186-193 | after that removal the class stays watched exactly when some remaining section hash contains its hash, and no other watched value changes |
| UserState.User.EnrollSection | frontend/components/user.js:212-255 | the section hash is appended even when already watched (only logged), and the class hash is added exactly when it was not watched |
| UserState.User.AddClass | frontend/components/user.js:268-292 | the duplicate check compares the class object, so while the list holds only hashes the hash is always appended; without a user nothing changes |
| UserState.User.RemoveClass | frontend/components/user.js:294-308 | removal happens only when the class object itself is in the list, so a list of hashes never changes; without a user nothing changes |
| UserState.User.RegisterCallback | frontend/components/user.js:258-260 | the callback is appended |
| UserState.User.UnregisterCallback | frontend/components/user.js:263-265 | every registration of the callback is removed and the rest keep their order |
| UserState.RegisterThenUnregister | frontend/components/user.js:258-265 | registering and then unregistering a callback leaves no copy of it |
| Collections.Without | frontend/components/user.js:175 | `_.pull` leaves no copy of the value and adds nothing |
| Collections.WithoutMembers | frontend/components/user.js:175 | exactly the other values survive `_.pull` |
| Collections.WithoutCons | backend/searcher.js:201 | `_.without` drops a first element equal to the value and keeps any other in front |
| Collections.WithoutCounts | frontend/components/user.js:192 | `_.pull` drops every copy of the value and keeps every copy of anything else |
| Collections.WithoutAppend | backend/searcher.js:201 | `_.without` distributes over concatenation |
| Collections.WithoutAfterAppend | frontend/components/user.js:264 | pulling a value just pushed equals pulling it before the push |
| Collections.WithoutIdempotent | frontend/components/user.js:264 | pulling twice is pulling once |
| Collections.IncludesIffOccurs | frontend/components/user.js:188 | `includes` on strings holds exactly when the needle occurs as a contiguous run |
| Collections.OccurrenceIsIncluded | frontend/components/user.js:188 | an occurrence at any position is found |
| Collections.IncludedHasOccurrence | frontend/components/user.js:188 | `includes` holds only when there is an occurrence |

## Left out

- The Elasticsearch client calls (`elastic.mquery`, `indices.delete`, `indices.create`, `bulk`) are foreign I/O. They appear only as the request values the model builds, and the store's answers are a parameter (`StoreAnswers`). The mapping sent with the create (`esMapping.json`) is not modelled.
- `Course.aggregate` in `initializeSubjects` is a database call. The distinct subjects are a parameter of `InitializeSubjects`.
- `search` (backend/searcher.js:227-240) and its `HydrateSerializer.bulkSerialize` call are a database expansion of the hits, so they are not modelled. `getSubjects` is the `subjects` field itself.
- In the index builder, `Promise.all` and the async/await ordering do not affect which requests are sent. The bulk writes are a sequence in key order.
- Searcher.Searcher.InitializeSubjects: calls are modelled one at a time, with the check and the fill in one step. In the source the `!this.subjects` test at backend/searcher.js:67 happens before the awaited `Course.aggregate` query at :68, and the assignment happens only after that query returns. So two `search` calls that overlap before the first query returns each query the database, and the later assignment replaces the earlier set. The model does not capture that interleaving.
- `macros.log` / `macros.error` are modelled only as lists of error records: `Rejection`, `JoinError` and `UserError`. Success messages are not modelled.
- `downloadUserData`, `setupSendingData` and `afterSendingData`, the `request.post` bodies and the invocation of the registered callbacks are network plumbing. Loading the user data is the single assignment `LoadUser`. The requests in `removeSection`, `enrollSection` and `addClass` are sent after the lists change, so they do not affect the lists.
- `getLoginKey` (random generation), `hasLoggedInBefore` and `logOut` read and write `window.localStorage`, so they are not modelled. `logOut` deletes `loginkey` while the rest of the file uses `loginKey` (frontend/components/user.js:123 against :131), so logging out does not clear the login key.
- `common/Keys` is not part of this model. Its hash functions are parameters.
- The key derivers take only the identifying attributes: `ClassInfo(host, termId, subject, classId)` and `SectionInfo`, which adds the CRN. The source sometimes passes a whole object instead: the dump class at backend/scrapers/classes/searchIndex.js:43, the section at frontend/components/user.js:172, 218 and 224, and the class at user.js:279 and 305. The model assumes `getClassHash` and `getSectionHash` read only those attributes. The join lemmas (`SearchIndex.JoinAppendsMatching`, `SearchIndex.BuiltDocument`) and the watch-list contracts rest on that assumption. If the hash read any other field, a class and its sections could hash differently, and the model would not capture that.
- Object keys that look like integers come first in `Object.keys` order, in ascending numeric order. `JsObject` models insertion order only, which is the order for the path-like term and class hashes used as keys.
- Relevance scoring, fuzziness and `most_fields` ranking belong to the store. Only the shape of the request is modelled.
- Searcher.Searcher.GetSearchQueries: requires the subject cache to be filled. `search` always fills it first (backend/searcher.js:228). With an empty cache, `getFields` would throw only for course-code queries, and that case is not modelled.
- Searcher.Searcher.GetSearchQueriesExcludingSelf: requires the subject cache to be filled, for the same reason.
- Searcher.FacetKeepsOtherFilters: states one direction only, because different filters can compile to the same clause. `nupath: []` and `subject: []` both give an empty `should` list.
- A raw filter object is its list of entries with distinct keys. Getters, symbols and non-enumerable own keys are not modelled. Neither is `filters === null`: `Object.keys(null)` at backend/searcher.js:96 and :201 throws a TypeError, and the `= {}` default at :227 replaces only `undefined`. An entry list cannot express that case.
- Setting `clas.code` (backend/scrapers/classes/searchIndex.js:24) mutates the class object shared with the grouped object. The model sets it on the document sent in the bulk body, since nothing reads the grouped object afterwards.
- CRNs are compared by Dafny `char`, which matches JavaScript's UTF-16 code-unit order except for characters outside the Basic Multilingual Plane.
- Numbers in filter values are integers (`JNum`), since no validator or clause builder looks at their value.

## Findings

| source | as written | input that shows it | evidently intended | confidence | as-written member | corrected member |
|---|---|---|---|---|---|---|
| backend/searcher.js:97-98 | `currFilter in this.filters` also holds for names inherited from `Object.prototype`. Such an entry has no `validate`, so line 98 throws a TypeError and the whole search fails | filters `{toString: true}` | a key outside the registry is dropped with a log line | not executed | Searcher.InheritedNameThrows | Searcher.ValidateFilters |
| backend/searcher.js:201-202 | `everyOtherFilter` is an array of key names, and `_.pick` of filter names from an array picks nothing. Every auxiliary facet query is filtered by the term alone | filters `{subject: ["CS"], online: true}`: the subject facet query has no online clause | each facet query keeps every other active filter and drops only its own | not executed | Searcher.SubjectFacetIgnoresOnlineFilter | Searcher.Searcher.GetSearchQueriesExcludingSelf |
| backend/scrapers/classes/searchIndex.js:96-98 | the comparator returns the boolean `a.crn > b.crn`, coerced to 1 or 0 and never negative. The sort is never told that one section comes before another, so CRN order is not guaranteed | sections with CRNs "1" and "2": the comparator says 0 for ("1", "2") and 1 for ("2", "1") | sections sorted by CRN ascending, as the comment at lines 89-90 says | not executed | SearchIndex.AsWrittenComparatorIsInconsistent | SearchIndex.SortByCrn |
