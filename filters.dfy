/** The filter registry of the search service (`Searcher.generateFilters`):
    for each filter name a validator, a clause builder and an optional facet
    field, dispatched by name. */
module Filters {
  import opened Json

  /** Store-native query clauses, as the registry and the query compiler
      build them. */
  datatype Clause =
    | MatchPhrase(field: string, phrase: Json)   // { match_phrase: { field: phrase } }
    | Match(field: string, text: Json)           // { match: { field: text } }
    | Term(field: string, value: Json)           // { term: { field: value } }
    | Terms(field: string, values: Json)         // { terms: { field: values } }
    | Exists(field: string)                      // { exists: { field } }
    | BoolShould(should: seq<Clause>)            // { bool: { should: [...] } }
    | BoolMust(must: seq<Clause>)                // { bool: { must: [...] } }

  /** One variant per registry entry. */
  datatype FilterName = NUPath | Subject | Online | ClassType | SectionsAvailable

  /** The registry's keys, in the order the object literal lists them. */
  const Registry: seq<FilterName> := [NUPath, Subject, Online, ClassType, SectionsAvailable]

  function Key(f: FilterName): string
  {
    match f
    case NUPath => "nupath"
    case Subject => "subject"
    case Online => "online"
    case ClassType => "classType"
    case SectionsAvailable => "sectionsAvailable"
  }

  /** The registry entry a key names, if it is an own key of the registry. */
  function Lookup(key: string): (r: Option<FilterName>)
    ensures r.Some? ==> Key(r.value) == key
  {
    if key == "nupath" then Some(NUPath)
    else if key == "subject" then Some(Subject)
    else if key == "online" then Some(Online)
    else if key == "classType" then Some(ClassType)
    else if key == "sectionsAvailable" then Some(SectionsAvailable)
    else None
  }

  /** Every entry is found under its own key. */
  lemma LookupKey(f: FilterName)
    ensures Lookup(Key(f)) == Some(f)
  {
  }

  /** `typeof arg === 'string'` */
  predicate IsString(v: Json)
  {
    v.JString?
  }

  /** `Array.isArray(arg) && arg.every(isString)` */
  predicate IsStringArray(v: Json)
  {
    v.JArray? && forall i :: 0 <= i < |v.items| ==> IsString(v.items[i])
  }

  /** `typeof arg === 'boolean' && arg` */
  predicate IsTrue(v: Json)
  {
    v.JBool? && v.b
  }

  /** The entry's `validate`. */
  predicate Validate(f: FilterName, v: Json)
  {
    match f
    case NUPath => IsStringArray(v)
    case Subject => IsStringArray(v)
    case Online => IsTrue(v)
    case ClassType => IsStringArray(v)
    case SectionsAvailable => IsTrue(v)
  }

  /** The boolean filters accept the boolean `true` and nothing else. */
  lemma BooleanFiltersAcceptOnlyTrue(f: FilterName, v: Json)
    requires f == Online || f == SectionsAvailable
    ensures Validate(f, v) <==> v == JBool(true)
  {
  }

  /** The list filters accept exactly the arrays of strings, the empty one
      included. */
  lemma ListFiltersAcceptStringArrays(f: FilterName, items: seq<Json>)
    requires f == NUPath || f == Subject || f == ClassType
    ensures Validate(f, JArray(items)) <==> forall i :: 0 <= i < |items| ==> items[i].JString?
    ensures Validate(f, JArray([]))
  {
  }

  /** The list filters reject everything that is not an array. */
  lemma ListFiltersRejectNonArrays(f: FilterName, v: Json)
    requires f == NUPath || f == Subject || f == ClassType
    requires !v.JArray?
    ensures !Validate(f, v)
  {
  }

  /** The entry's `create` throws (calls `.map` on a non-array) only for the
      two filters that build one clause per selected value. */
  predicate Creatable(f: FilterName, v: Json)
  {
    (f == NUPath || f == Subject) ==> v.JArray?
  }

  /** Every value the validator accepts can be compiled. */
  lemma ValidIsCreatable(f: FilterName, v: Json)
    requires Validate(f, v)
    ensures Creatable(f, v)
  {
  }

  /** One `match_phrase` per selected tag. */
  function PhraseEach(field: string, items: seq<Json>): (r: seq<Clause>)
    ensures |r| == |items|
    ensures forall i :: 0 <= i < |items| ==> r[i] == MatchPhrase(field, items[i])
  {
    seq(|items|, i requires 0 <= i < |items| => MatchPhrase(field, items[i]))
  }

  /** One `match` per selected subject. */
  function MatchEach(field: string, items: seq<Json>): (r: seq<Clause>)
    ensures |r| == |items|
    ensures forall i :: 0 <= i < |items| ==> r[i] == Match(field, items[i])
  {
    seq(|items|, i requires 0 <= i < |items| => Match(field, items[i]))
  }

  /** The entry's `create`. */
  function Create(f: FilterName, v: Json): (c: Clause)
    requires Creatable(f, v)
  {
    match f
    case NUPath => BoolShould(PhraseEach("class.classAttributes", v.items))
    case Subject => BoolShould(MatchEach("class.subject", v.items))
    case Online => Term("sections.online", v)
    case ClassType => Terms("sections.classType", v)
    case SectionsAvailable => Exists("sections")
  }

  /** The entry's `agg`; `None` stands for the literal `false`. */
  function Agg(f: FilterName): Option<string>
  {
    match f
    case NUPath => Some("class.classAttributes.keyword")
    case Subject => Some("class.subject.keyword")
    case Online => None
    case ClassType => Some("sections.classType.keyword")
    case SectionsAvailable => None
  }

  /** The registry entries kept by a `_.pickBy(…, f => !!f.agg)`, in order. */
  function WithAgg(fs: seq<FilterName>): (r: seq<FilterName>)
    ensures forall f :: f in r <==> f in fs && Agg(f).Some?
  {
    if fs == [] then []
    else if Agg(fs[0]).Some? then [fs[0]] + WithAgg(fs[1..])
    else WithAgg(fs[1..])
  }

  /** The facetable filters: every registry entry with a truthy `agg`, in
      registry order. */
  function AggFilters(): (r: seq<FilterName>)
    ensures r == [NUPath, Subject, ClassType]
  {
    WithAgg(Registry)
  }
}
