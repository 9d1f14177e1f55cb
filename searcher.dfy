/** The query compiler of the search service (backend/searcher.js): filter
    sanitising, class filter lists, the course-code field heuristic, the
    compound request, the facet fan-out and the result shaper. */
module Searcher {
  import opened Json
  import opened JsObject
  import opened Filters
  import opened Collections

  // ---------------------------------------------------------------------
  // Filter sanitising (validateFilters)
  // ---------------------------------------------------------------------

  /** A raw filter object as `Object.keys` / index access see it: its
      entries in key order. A JavaScript object never repeats a key. */
  type FilterEntries = seq<(string, Json)>

  predicate DistinctKeys(filters: FilterEntries)
  {
    forall i, j :: 0 <= i < j < |filters| ==> filters[i].0 != filters[j].0
  }

  function KeysOf(filters: FilterEntries): (r: seq<string>)
    ensures |r| == |filters|
    ensures forall i :: 0 <= i < |filters| ==> r[i] == filters[i].0
  {
    seq(|filters|, i requires 0 <= i < |filters| => filters[i].0)
  }

  /** The key is an own key of the registry and the value passes that
      entry's validator. */
  predicate Accepts(key: string, value: Json)
  {
    Lookup(key).Some? && Validate(Lookup(key).value, value)
  }

  /** What validateFilters logs for a dropped entry. */
  datatype Rejection = InvalidKey(key: string) | InvalidValue(key: string)
  {
    function Key(): string
    {
      match this
      case InvalidKey(k) => k
      case InvalidValue(k) => k
    }
  }

  /** The sanitised filter object, built entry by entry as the `forEach`
      does. */
  function ValidFilters(filters: FilterEntries): map<string, Json>
  {
    if filters == [] then map[]
    else
      var prev := ValidFilters(filters[..|filters| - 1]);
      var (key, value) := filters[|filters| - 1];
      if Accepts(key, value) then prev[key := value] else prev
  }

  /** The log lines the `forEach` emits, in order. */
  function Rejections(filters: FilterEntries): seq<Rejection>
  {
    if filters == [] then []
    else
      var prev := Rejections(filters[..|filters| - 1]);
      var (key, value) := filters[|filters| - 1];
      if Lookup(key).None? then prev + [InvalidKey(key)]
      else if !Validate(Lookup(key).value, value) then prev + [InvalidValue(key)]
      else prev
  }

  /** The log line for a dropped entry: an unknown key, or a known key with a
      value its validator refuses. */
  function Reason(key: string): (r: Rejection)
    ensures r.Key() == key
    ensures r.InvalidKey? <==> Lookup(key).None?
  {
    if Lookup(key).None? then InvalidKey(key) else InvalidValue(key)
  }

  /** validateFilters keeps only keys of the raw filters. */
  lemma {:induction false} ValidFiltersKeys(filters: FilterEntries)
    ensures forall k :: k in ValidFilters(filters) ==> k in KeysOf(filters)
  {
    if filters != [] {
      var n := |filters| - 1;
      var init := filters[..n];
      ValidFiltersKeys(init);
      forall k | k in ValidFilters(filters) ensures k in KeysOf(filters) {
        if k in ValidFilters(init) {
          var i :| 0 <= i < n && KeysOf(init)[i] == k;
          assert KeysOf(filters)[i] == k;
        } else {
          assert KeysOf(filters)[n] == k;
        }
      }
    }
  }

  /** validateFilters keeps exactly the entries whose key names a registry
      entry and whose value passes that entry's validator, values unchanged. */
  lemma ValidFiltersExact(filters: FilterEntries)
    requires DistinctKeys(filters)
    ensures forall i :: 0 <= i < |filters| ==>
              (filters[i].0 in ValidFilters(filters) <==> Accepts(filters[i].0, filters[i].1))
    ensures forall i :: 0 <= i < |filters| && filters[i].0 in ValidFilters(filters) ==>
              ValidFilters(filters)[filters[i].0] == filters[i].1
  {
    forall i | 0 <= i < |filters|
      ensures filters[i].0 in ValidFilters(filters) <==> Accepts(filters[i].0, filters[i].1)
      ensures filters[i].0 in ValidFilters(filters) ==> ValidFilters(filters)[filters[i].0] == filters[i].1
    {
      ValidFiltersAt(filters, i);
    }
  }

  /** Entry `i` is kept exactly when it is accepted, and then with its own
      value, whatever the entries after it. */
  lemma {:induction false} ValidFiltersAt(filters: FilterEntries, i: int)
    requires DistinctKeys(filters) && 0 <= i < |filters|
    ensures filters[i].0 in ValidFilters(filters) <==> Accepts(filters[i].0, filters[i].1)
    ensures filters[i].0 in ValidFilters(filters) ==> ValidFilters(filters)[filters[i].0] == filters[i].1
    decreases |filters|
  {
    var n := |filters| - 1;
    var init := filters[..n];
    var prev := ValidFilters(init);
    if i == n {
      ValidFiltersKeys(init);
      assert filters[n].0 !in prev by {
        assert forall j :: 0 <= j < n ==> KeysOf(init)[j] != filters[n].0;
      }
    } else {
      assert DistinctKeys(init);
      assert init[i] == filters[i];
      ValidFiltersAt(init, i);
      assert filters[i].0 != filters[n].0;
    }
  }

  /** Every log line names an entry the sanitiser dropped, with its reason. */
  lemma {:induction false} RejectionsSound(filters: FilterEntries)
    ensures forall r :: r in Rejections(filters) ==>
              exists i :: 0 <= i < |filters| && !Accepts(filters[i].0, filters[i].1) && r == Reason(filters[i].0)
  {
    if filters != [] {
      var n := |filters| - 1;
      var init := filters[..n];
      RejectionsSound(init);
      forall r | r in Rejections(filters)
        ensures exists i :: 0 <= i < |filters| && !Accepts(filters[i].0, filters[i].1) && r == Reason(filters[i].0)
      {
        if r in Rejections(init) {
          var i :| 0 <= i < |init| && !Accepts(init[i].0, init[i].1) && r == Reason(init[i].0);
          assert init[i] == filters[i];
        } else {
          assert !Accepts(filters[n].0, filters[n].1) && r == Reason(filters[n].0);
        }
      }
    }
  }

  /** Every dropped entry is logged, with its reason. */
  lemma {:induction false} RejectionsComplete(filters: FilterEntries)
    ensures forall i :: 0 <= i < |filters| && !Accepts(filters[i].0, filters[i].1) ==>
              Reason(filters[i].0) in Rejections(filters)
  {
    if filters != [] {
      var n := |filters| - 1;
      var init := filters[..n];
      RejectionsComplete(init);
      forall i | 0 <= i < n && !Accepts(filters[i].0, filters[i].1)
        ensures Reason(filters[i].0) in Rejections(filters)
      {
        assert init[i] == filters[i];
      }
    }
  }

  /** Each entry is either kept or logged, never both and never neither. */
  lemma {:induction false} EveryEntryKeptOrLogged(filters: FilterEntries)
    requires DistinctKeys(filters)
    ensures |Rejections(filters)| + |ValidFilters(filters)| == |filters|
  {
    if filters != [] {
      var n := |filters| - 1;
      var init := filters[..n];
      assert DistinctKeys(init);
      var key := filters[n].0;
      EveryEntryKeptOrLogged(init);
      ValidFiltersKeys(init);
      assert key !in ValidFilters(init) by {
        assert forall i :: 0 <= i < n ==> KeysOf(init)[i] != key;
      }
    }
  }

  /** Every value the sanitiser keeps passes its own validator. */
  lemma {:induction false} ValidFiltersAccepted(filters: FilterEntries)
    ensures forall k :: k in ValidFilters(filters) ==> Accepts(k, ValidFilters(filters)[k])
  {
    if filters != [] {
      ValidFiltersAccepted(filters[..|filters| - 1]);
    }
  }

  /** validateFilters (backend/searcher.js:94-102) with the own-key test the
      registry lookup intends. */
  method ValidateFilters(filters: FilterEntries) returns (validFilters: map<string, Json>, logged: seq<Rejection>)
    ensures validFilters == ValidFilters(filters)
    ensures logged == Rejections(filters)
  {
    validFilters, logged := map[], [];
    for i := 0 to |filters|
      invariant validFilters == ValidFilters(filters[..i])
      invariant logged == Rejections(filters[..i])
    {
      assert filters[..i + 1][..i] == filters[..i];
      var (currFilter, value) := filters[i];
      if Lookup(currFilter).None? {
        logged := logged + [InvalidKey(currFilter)];
      } else if !Validate(Lookup(currFilter).value, value) {
        logged := logged + [InvalidValue(currFilter)];
      } else {
        validFilters := validFilters[currFilter := value];
      }
    }
    assert filters[..|filters|] == filters;
  }

  /** An `online: false` entry is dropped, not turned into an "offline only"
      filter, as rule 2 of the doc comment at backend/searcher.js:80-83
      asks. */
  lemma OnlineFalseIsDropped()
    ensures ValidFilters([("online", JBool(false)), ("subject", JArray([JString("CS")]))])
            == map["subject" := JArray([JString("CS")])]
  {
    var filters := [("online", JBool(false)), ("subject", JArray([JString("CS")]))];
    assert filters[..1] == [("online", JBool(false))];
    assert filters[..1][..0] == [];
  }

  /** The names an ordinary object inherits from `Object.prototype`: the
      `in` operator at backend/searcher.js:97 finds them in the registry
      object, whose entries for them have no `validate`. */
  const ObjectPrototypeNames: set<string> := {
    "constructor", "hasOwnProperty", "isPrototypeOf", "propertyIsEnumerable",
    "toLocaleString", "toString", "valueOf", "__proto__",
    "__defineGetter__", "__defineSetter__", "__lookupGetter__", "__lookupSetter__"}

  /** validateFilters as written: `key in this.filters` also holds for an
      inherited name, and calling its missing `validate` throws a TypeError
      (`None`), which aborts the whole search. */
  function ValidateFiltersAsWritten(filters: FilterEntries): Option<map<string, Json>>
  {
    if filters == [] then Some(map[])
    else
      match ValidateFiltersAsWritten(filters[..|filters| - 1])
      case None => None
      case Some(prev) =>
        var (key, value) := filters[|filters| - 1];
        if Lookup(key).None? && key in ObjectPrototypeNames then None
        else if Accepts(key, value) then Some(prev[key := value]) else Some(prev)
  }

  predicate HasInheritedName(filters: FilterEntries)
  {
    exists i :: 0 <= i < |filters| && filters[i].0 in ObjectPrototypeNames
  }

  /** The code as written agrees with the intended sanitiser unless a key of
      the raw filters is an inherited name, and then it throws. */
  lemma {:induction false} AsWrittenThrowsOnlyOnInheritedNames(filters: FilterEntries)
    ensures ValidateFiltersAsWritten(filters) ==
            if HasInheritedName(filters) then None else Some(ValidFilters(filters))
  {
    if filters != [] {
      var init := filters[..|filters| - 1];
      AsWrittenThrowsOnlyOnInheritedNames(init);
      assert forall i :: 0 <= i < |init| ==> init[i] == filters[i];
      if HasInheritedName(init) {
        var i :| 0 <= i < |init| && init[i].0 in ObjectPrototypeNames;
        assert filters[i].0 in ObjectPrototypeNames;
      }
      if filters[|filters| - 1].0 in ObjectPrototypeNames {
        assert HasInheritedName(filters);
      }
    }
  }

  /** The input that shows it: `{toString: true}` makes the code as written
      throw, where an unknown key should just be dropped. */
  lemma InheritedNameThrows()
    ensures ValidateFiltersAsWritten([("toString", JBool(true))]) == None
    ensures ValidFilters([("toString", JBool(true))]) == map[]
  {
    assert [("toString", JBool(true))][..0] == [];
  }

  // ---------------------------------------------------------------------
  // Class filter list (getClassFilterQuery)
  // ---------------------------------------------------------------------

  /** Position of an entry in the registry literal. */
  function Rank(f: FilterName): nat
  {
    match f
    case NUPath => 0
    case Subject => 1
    case Online => 2
    case ClassType => 3
    case SectionsAvailable => 4
  }

  predicate InRegistryOrder(fs: seq<FilterName>)
  {
    forall i, j :: 0 <= i < j < |fs| ==> Rank(fs[i]) < Rank(fs[j])
  }

  /** The entries of `fs` whose key the object has, in the order of `fs`. */
  function PresentIn(fs: seq<FilterName>, fields: map<string, Json>): (r: seq<FilterName>)
    ensures forall f :: f in r <==> f in fs && Key(f) in fields
    ensures |r| <= |fs|
  {
    if fs == [] then []
    else
      var rest := PresentIn(fs[1..], fields);
      if Key(fs[0]) in fields then [fs[0]] + rest else rest
  }

  /** Picking keeps the order of the list picked from. */
  lemma {:induction false} PresentInOrdered(fs: seq<FilterName>, fields: map<string, Json>)
    requires InRegistryOrder(fs)
    ensures InRegistryOrder(PresentIn(fs, fields))
  {
    if fs != [] {
      var rest := PresentIn(fs[1..], fields);
      assert InRegistryOrder(fs[1..]);
      PresentInOrdered(fs[1..], fields);
      if Key(fs[0]) in fields {
        forall k | 0 <= k < |rest| ensures Rank(fs[0]) < Rank(rest[k]) {
          assert rest[k] in fs[1..];
          var j :| 0 <= j < |fs| - 1 && fs[1..][j] == rest[k];
          assert fs[j + 1] == rest[k];
        }
      }
    }
  }

  /** `_(filters).pick(Object.keys(this.filters))`: the registry entries whose
      key is a property of the argument, in registry order. An array has no
      property named like a registry key, so nothing is picked from it. */
  function Picked(filters: Json): (r: seq<FilterName>)
    ensures InRegistryOrder(r)
    ensures forall f :: f in r <==> filters.JObject? && Key(f) in filters.fields
  {
    if filters.JObject? then
      PresentInOrdered(Registry, filters.fields);
      PresentIn(Registry, filters.fields)
    else []
  }

  /** Every picked value can be handed to its entry's `create`. */
  ghost predicate CreatableArg(filters: Json)
  {
    filters.JObject? ==>
      forall f :: Key(f) in filters.fields ==> Creatable(f, filters.fields[Key(f)])
  }

  function TermIdClause(termId: string): Clause
  {
    Term("class.termId", JString(termId))
  }

  /** getClassFilterQuery (backend/searcher.js:109-117): one created clause
      per registry key present in the argument, in registry order, then the
      term clause as the last element. */
  function GetClassFilterQuery(termId: string, filters: Json): (r: seq<Clause>)
    requires CreatableArg(filters)
    ensures |r| == |Picked(filters)| + 1
    ensures forall i :: 0 <= i < |Picked(filters)| ==>
              r[i] == Create(Picked(filters)[i], filters.fields[Key(Picked(filters)[i])])
    ensures r[|r| - 1] == TermIdClause(termId)
  {
    var picked := Picked(filters);
    seq(|picked|, i requires 0 <= i < |picked| => Create(picked[i], filters.fields[Key(picked[i])]))
      + [TermIdClause(termId)]
  }

  /** The sanitised filters can always be compiled. */
  lemma ValidFiltersCreatable(filters: FilterEntries)
    ensures CreatableArg(JObject(ValidFilters(filters)))
  {
    ValidFiltersAccepted(filters);
    forall f | Key(f) in ValidFilters(filters)
      ensures Creatable(f, ValidFilters(filters)[Key(f)])
    {
      LookupKey(f);
      ValidIsCreatable(f, ValidFilters(filters)[Key(f)]);
    }
  }

  /** Handed an array (of key names, say), getClassFilterQuery yields the term
      clause alone. */
  lemma ArrayArgumentYieldsOnlyTermClause(termId: string, keys: Json)
    requires keys.JArray?
    ensures GetClassFilterQuery(termId, keys) == [TermIdClause(termId)]
  {
  }

  /** Removing a key from the object removes exactly that entry from the
      picked list and keeps the order of the others. */
  lemma {:induction false} PresentInWithout(fs: seq<FilterName>, fields: map<string, Json>, g: FilterName)
    ensures PresentIn(fs, fields - {Key(g)}) == Without(PresentIn(fs, fields), g)
  {
    if fs != [] {
      PresentInWithout(fs[1..], fields, g);
      LookupKey(fs[0]);
      LookupKey(g);
      if Key(fs[0]) in fields {
        WithoutCons(fs[0], PresentIn(fs[1..], fields), g);
      }
    }
  }

  /** The class filters of the facet query for `f` under standard faceted
      search semantics: the picked filters of the sanitised object with `f`
      taken out, in the same order, then the term clause. */
  function FacetClassFilters(termId: string, valid: map<string, Json>, f: FilterName): seq<Clause>
    requires CreatableArg(JObject(valid))
  {
    GetClassFilterQuery(termId, JObject(valid - {Key(f)}))
  }

  /** The facet filters of `f` are the clauses of the other picked filters,
      in registry order, then the term clause. */
  lemma FacetClassFiltersSpec(termId: string, valid: map<string, Json>, f: FilterName)
    requires CreatableArg(JObject(valid))
    ensures var r := FacetClassFilters(termId, valid, f);
            var others := Without(Picked(JObject(valid)), f);
            && |r| == |others| + 1
            && r[|r| - 1] == TermIdClause(termId)
            && forall i :: 0 <= i < |others| ==> r[i] == Create(others[i], valid[Key(others[i])])
  {
    PresentInWithout(Registry, valid, f);
    WithoutMembers(Picked(JObject(valid)), f);
  }

  // ---------------------------------------------------------------------
  // Field selection heuristic (getFields)
  // ---------------------------------------------------------------------

  /** `\s` of a JavaScript regular expression: white space and line
      terminators. */
  predicate IsJsWhitespace(c: char)
  {
    || c == '\t' || c == '\n' || c == '\U{000B}' || c == '\U{000C}' || c == '\r'
    || c == ' ' || c == '\U{00A0}' || c == '\U{1680}' || ('\U{2000}' <= c <= '\U{200A}')
    || c == '\U{2028}' || c == '\U{2029}' || c == '\U{202F}' || c == '\U{205F}'
    || c == '\U{3000}' || c == '\U{FEFF}'
  }

  /** `[a-zA-Z]` under the `i` flag: still the ASCII letters only. */
  predicate IsAsciiLetter(c: char)
  {
    ('a' <= c <= 'z') || ('A' <= c <= 'Z')
  }

  /** `\d` */
  predicate IsDigit(c: char)
  {
    '0' <= c <= '9'
  }

  predicate AllWhitespace(q: string, lo: int, hi: int)
    requires 0 <= lo <= hi <= |q|
  {
    forall j :: lo <= j < hi ==> IsJsWhitespace(q[j])
  }

  predicate AllLetters(q: string, lo: int, hi: int)
    requires 0 <= lo <= hi <= |q|
  {
    forall j :: lo <= j < hi ==> IsAsciiLetter(q[j])
  }

  predicate AllDigits(q: string, lo: int, hi: int)
    requires 0 <= lo <= hi <= |q|
  {
    forall j :: lo <= j < hi ==> IsDigit(q[j])
  }

  /** The end of the run of white space that starts at `i`. */
  function WhitespaceEnd(q: string, i: int): (k: int)
    requires 0 <= i <= |q|
    ensures i <= k <= |q| && AllWhitespace(q, i, k)
    ensures k < |q| ==> !IsJsWhitespace(q[k])
    decreases |q| - i
  {
    if i < |q| && IsJsWhitespace(q[i]) then WhitespaceEnd(q, i + 1) else i
  }

  /** The end of the run of letters that starts at `i`. */
  function LetterEnd(q: string, i: int): (k: int)
    requires 0 <= i <= |q|
    ensures i <= k <= |q| && AllLetters(q, i, k)
    ensures k < |q| ==> !IsAsciiLetter(q[k])
    decreases |q| - i
  {
    if i < |q| && IsAsciiLetter(q[i]) then LetterEnd(q, i + 1) else i
  }

  /** `query.match(/^\s*([a-zA-Z]{2,4})\s*(\d{4})?\s*$/i)`: the captured
      letter group when the whole query matches. The three character classes
      are disjoint, so each greedy run has a single way to end. */
  function CourseCodeLetters(q: string): Option<string>
  {
    var a := WhitespaceEnd(q, 0);
    var b := LetterEnd(q, a);
    var c := WhitespaceEnd(q, b);
    if b - a < 2 || b - a > 4 then None
    else if c == |q| then Some(q[a..b])
    else if c + 4 <= |q| && AllDigits(q, c, c + 4) && WhitespaceEnd(q, c + 4) == |q| then Some(q[a..b])
    else None
  }

  /** The pattern itself: `q` splits at a <= b <= c <= d into white space,
      two to four letters, white space, nothing or four digits, and white
      space to the end. */
  predicate PatternSplit(q: string, a: int, b: int, c: int, d: int)
  {
    && 0 <= a <= b <= c <= d <= |q|
    && AllWhitespace(q, 0, a)
    && AllLetters(q, a, b) && 2 <= b - a <= 4
    && AllWhitespace(q, b, c)
    && (d == c || d == c + 4) && AllDigits(q, c, d)
    && AllWhitespace(q, d, |q|)
  }

  /** A match found by the scanner is a split of the pattern, and the group it
      captures is the letter part. */
  lemma CourseCodeSound(q: string) returns (a: int, b: int, c: int, d: int)
    requires CourseCodeLetters(q).Some?
    ensures PatternSplit(q, a, b, c, d) && CourseCodeLetters(q).value == q[a..b]
  {
    a := WhitespaceEnd(q, 0);
    b := LetterEnd(q, a);
    c := WhitespaceEnd(q, b);
    d := if c == |q| then c else c + 4;
  }

  lemma {:induction false} WhitespaceEndAt(q: string, i: int, k: int)
    requires 0 <= i <= k <= |q| && AllWhitespace(q, i, k)
    requires k < |q| ==> !IsJsWhitespace(q[k])
    ensures WhitespaceEnd(q, i) == k
    decreases k - i
  {
    if i < k {
      WhitespaceEndAt(q, i + 1, k);
    }
  }

  lemma {:induction false} LetterEndAt(q: string, i: int, k: int)
    requires 0 <= i <= k <= |q| && AllLetters(q, i, k)
    requires k < |q| ==> !IsAsciiLetter(q[k])
    ensures LetterEnd(q, i) == k
    decreases k - i
  {
    if i < k {
      LetterEndAt(q, i + 1, k);
    }
  }

  /** Every split of the pattern is found by the scanner, with the same
      letter group: the group is unique. */
  lemma CourseCodeComplete(q: string, a: int, b: int, c: int, d: int)
    requires PatternSplit(q, a, b, c, d)
    ensures CourseCodeLetters(q) == Some(q[a..b])
  {
    WhitespaceEndAt(q, 0, a);
    assert b < |q| ==> !IsAsciiLetter(q[b]) by {
      if b < |q| {
        if b < c {
          assert IsJsWhitespace(q[b]);
        } else if d == c + 4 {
          assert IsDigit(q[c]);
        } else {
          assert IsJsWhitespace(q[d]);
        }
      }
    }
    LetterEndAt(q, a, b);
    if d == c {
      assert AllWhitespace(q, b, |q|);
      WhitespaceEndAt(q, b, |q|);
    } else {
      assert IsDigit(q[c]);
      WhitespaceEndAt(q, b, c);
      WhitespaceEndAt(q, c + 4, |q|);
    }
  }

  /** `toLowerCase` on a string of ASCII letters. */
  function LowerAscii(s: string): (r: string)
    ensures |r| == |s|
    ensures forall i :: 0 <= i < |s| && 'A' <= s[i] <= 'Z' ==>
              'a' <= r[i] <= 'z' && r[i] as int - 'a' as int == s[i] as int - 'A' as int
    ensures forall i :: 0 <= i < |s| && !('A' <= s[i] <= 'Z') ==> r[i] == s[i]
  {
    seq(|s|, i requires 0 <= i < |s| => if 'A' <= s[i] <= 'Z' then (s[i] as int + 32) as char else s[i])
  }

  const DefaultFields: seq<string> := [
    "class.name^2", "class.name.autocomplete", "class.subject^4", "class.classId^3",
    "sections.profs", "class.crns", "employee.name^2", "employee.emails", "employee.phone"]

  const NarrowFields: seq<string> := ["class.subject^10", "class.classId"]

  /** getFields (backend/searcher.js:120-142). */
  function GetFields(query: string, subjects: set<string>): seq<string>
  {
    var letters := CourseCodeLetters(query);
    if letters.Some? && LowerAscii(letters.value) in subjects then NarrowFields else DefaultFields
  }

  /** getFields narrows the search to subject and class number exactly when
      the query has the course-code shape and its lower-cased letters name a
      known subject; otherwise it returns the nine-field default list. */
  lemma GetFieldsNarrowsExactlyForKnownCourseCodes(query: string, subjects: set<string>)
    ensures GetFields(query, subjects) == NarrowFields <==>
            exists a, b, c, d :: PatternSplit(query, a, b, c, d) && LowerAscii(query[a..b]) in subjects
    ensures GetFields(query, subjects) == NarrowFields || GetFields(query, subjects) == DefaultFields
  {
    assert NarrowFields != DefaultFields;
    if CourseCodeLetters(query).Some? {
      var a, b, c, d := CourseCodeSound(query);
    }
    if exists a, b, c, d :: PatternSplit(query, a, b, c, d) && LowerAscii(query[a..b]) in subjects {
      var a, b, c, d :| PatternSplit(query, a, b, c, d) && LowerAscii(query[a..b]) in subjects;
      CourseCodeComplete(query, a, b, c, d);
    }
  }

  /** A query made of two to four letters followed by four digits, such as
      `CS2500`, is narrowed when its lower-cased letters name a known
      subject. */
  lemma LettersThenNumberIsNarrowed(q: string, k: int, subjects: set<string>)
    requires 2 <= k <= 4 && |q| == k + 4
    requires AllLetters(q, 0, k) && AllDigits(q, k, k + 4)
    requires LowerAscii(q[..k]) in subjects
    ensures GetFields(q, subjects) == NarrowFields
  {
    assert PatternSplit(q, 0, k, k, k + 4);
    CourseCodeComplete(q, 0, k, k, k + 4);
    assert q[0..k] == q[..k];
  }

  /** The letter run starting at `i` reaches at least `k` when the
      characters up to `k` are letters. */
  lemma {:induction false} LetterEndPast(q: string, i: int, k: int)
    requires 0 <= i <= k <= |q| && AllLetters(q, i, k)
    ensures LetterEnd(q, i) >= k
    decreases k - i
  {
    if i < k {
      LetterEndPast(q, i + 1, k);
    }
  }

  /** A query that starts with five letters has no two-to-four letter
      course-code group, so it is searched over the default fields. */
  lemma LongFirstWordUsesDefaultFields(q: string, subjects: set<string>)
    requires 5 <= |q| && AllLetters(q, 0, 5)
    ensures GetFields(q, subjects) == DefaultFields
  {
    WhitespaceEndAt(q, 0, 0);
    LetterEndPast(q, 0, 5);
    assert CourseCodeLetters(q).None?;
  }

  // ---------------------------------------------------------------------
  // Compound request (generateQuery)
  // ---------------------------------------------------------------------

  datatype SortKey = ByScore | ByField(field: string, order: string, unmappedType: string)

  datatype TextQuery = MultiMatch(query: string, matchType: string, fuzziness: string, fields: seq<string>)

  /** A terms aggregation named after a filter; `field: None` is the
      registry's `agg: false`. */
  datatype Aggregation = TermsAggregation(name: string, field: Option<string>)

  datatype Request = Request(
    from: int,
    size: int,
    sort: seq<SortKey>,
    must: TextQuery,
    filter: Clause,
    aggregations: Option<Aggregation>)

  function EmployeeClause(): Clause
  {
    Term("type", JString("employee"))
  }

  /** generateQuery (backend/searcher.js:144-190). */
  function GenerateQuery(query: string, subjects: set<string>, classFilters: seq<Clause>,
                         min: int, max: int, aggregation: Option<FilterName>): (r: Request)
  {
    var aggQuery := if aggregation.None? then None
                    else Some(TermsAggregation(Key(aggregation.value), Agg(aggregation.value)));
    Request(min, max - min,
            [ByScore, ByField("class.classId.keyword", "asc", "keyword")],
            MultiMatch(query, "most_fields", "AUTO", GetFields(query, subjects)),
            BoolShould([BoolMust(classFilters), EmployeeClause()]),
            aggQuery)
  }

  /** A request asks for the page of hits from `min` up to `max`, ranked by
      score with the lower class id first on ties, and carries an
      aggregation exactly when one is named, over that entry's facet field. */
  lemma GenerateQueryShape(query: string, subjects: set<string>, classFilters: seq<Clause>,
                           min: int, max: int, aggregation: Option<FilterName>)
    ensures var r := GenerateQuery(query, subjects, classFilters, min, max, aggregation);
            && r.from == min && r.from + r.size == max
            && r.sort == [ByScore, ByField("class.classId.keyword", "asc", "keyword")]
            && r.must.fields == GetFields(query, subjects)
            && (r.aggregations.Some? <==> aggregation.Some?)
            && (aggregation.Some? ==> r.aggregations.value == TermsAggregation(Key(aggregation.value), Agg(aggregation.value)))
  {
  }

  /** Every facet request of the fan-out fetches no hits and aggregates over
      a real field. */
  lemma FacetRequestAggregates(query: string, subjects: set<string>, classFilters: seq<Clause>, i: int)
    requires 0 <= i < |AggFilters()|
    ensures var r := GenerateQuery(query, subjects, classFilters, 0, 0, Some(AggFilters()[i]));
            && r.size == 0
            && r.aggregations.Some? && r.aggregations.value.name == Key(AggFilters()[i])
            && r.aggregations.value.field.Some?
  {
  }

  /** Whether a document satisfies a clause, given the store's verdict on the
      leaf clauses: a `should` list needs one of its clauses, a `must` list
      all of them. */
  ghost predicate Holds(c: Clause, leaf: Clause -> bool)
  {
    match c
    case BoolShould(cs) => exists i :: 0 <= i < |cs| && Holds(cs[i], leaf)
    case BoolMust(cs) => forall i :: 0 <= i < |cs| ==> Holds(cs[i], leaf)
    case _ => leaf(c)
  }

  /** The request filter holds exactly for an employee record or a document
      satisfying every class filter. */
  lemma HoldsRequestFilter(cf: seq<Clause>, leaf: Clause -> bool)
    ensures Holds(BoolShould([BoolMust(cf), EmployeeClause()]), leaf)
            <==> leaf(EmployeeClause()) || forall i :: 0 <= i < |cf| ==> Holds(cf[i], leaf)
  {
    HoldsEither(BoolMust(cf), EmployeeClause(), leaf);
    assert Holds(EmployeeClause(), leaf) == leaf(EmployeeClause());
  }

  /** A `should` list of two clauses holds exactly when one of them does. */
  lemma HoldsEither(a: Clause, b: Clause, leaf: Clause -> bool)
    ensures Holds(BoolShould([a, b]), leaf) <==> Holds(a, leaf) || Holds(b, leaf)
  {
    var cs := [a, b];
    assert cs[0] == a && cs[1] == b;
  }

  /** A `must` list ending in the term clause holds exactly when the term
      holds and every clause before it does. */
  lemma HoldsAllButLast(cf: seq<Clause>, termId: string, leaf: Clause -> bool)
    requires |cf| > 0 && cf[|cf| - 1] == TermIdClause(termId)
    ensures (forall i :: 0 <= i < |cf| ==> Holds(cf[i], leaf))
            <==> leaf(TermIdClause(termId)) && forall i :: 0 <= i < |cf| - 1 ==> Holds(cf[i], leaf)
  {
    var n := |cf| - 1;
    assert Holds(cf[n], leaf) == leaf(TermIdClause(termId));
    if leaf(TermIdClause(termId)) && forall i :: 0 <= i < n ==> Holds(cf[i], leaf) {
      forall i | 0 <= i < |cf| ensures Holds(cf[i], leaf) {
        if i == n {
          assert Holds(cf[n], leaf);
        }
      }
    }
  }

  /** The filter of a search request admits a document when it is an
      employee record, or when it satisfies every picked filter and has the
      requested term. */
  lemma SearchFilterMeaning(query: string, subjects: set<string>, termId: string, filters: Json,
                            min: int, max: int, aggregation: Option<FilterName>, leaf: Clause -> bool)
    requires CreatableArg(filters)
    ensures Holds(GenerateQuery(query, subjects, GetClassFilterQuery(termId, filters), min, max, aggregation).filter, leaf)
            <==> leaf(EmployeeClause())
                 || (leaf(TermIdClause(termId)) &&
                     forall i :: 0 <= i < |Picked(filters)| ==>
                       Holds(Create(Picked(filters)[i], filters.fields[Key(Picked(filters)[i])]), leaf))
  {
    var cf := GetClassFilterQuery(termId, filters);
    assert GenerateQuery(query, subjects, cf, min, max, aggregation).filter
           == BoolShould([BoolMust(cf), EmployeeClause()]);
    HoldsRequestFilter(cf, leaf);
    HoldsAllButLast(cf, termId, leaf);
  }

  // ---------------------------------------------------------------------
  // The search service's state and the facet fan-out (getSearchResults)
  // ---------------------------------------------------------------------

  /** The filter names as a JavaScript array of strings. */
  function StringArray(keys: seq<string>): (r: Json)
    ensures r.JArray? && |r.items| == |keys|
  {
    JArray(seq(|keys|, i requires 0 <= i < |keys| => JString(keys[i])))
  }

  /** The primary query: the requested window, filtered by the sanitised
      filters. */
  function PrimaryQuery(query: string, subjects: set<string>, termId: string, valid: map<string, Json>,
                        min: int, max: int): Request
    requires CreatableArg(JObject(valid))
  {
    GenerateQuery(query, subjects, GetClassFilterQuery(termId, JObject(valid)), min, max, None)
  }

  /** The facet query of filter `f` with the intended exclude-self rule:
      size 0, aggregating `f`, filtered by every other sanitised filter. */
  function FacetQuery(query: string, subjects: set<string>, termId: string, valid: map<string, Json>,
                      f: FilterName): Request
    requires CreatableArg(JObject(valid))
  {
    GenerateQuery(query, subjects, FacetClassFilters(termId, valid, f), 0, 0, Some(f))
  }

  class Searcher {
    /** The known subject codes, `null` until initializeSubjects runs. */
    var subjects: Option<set<string>>

    constructor ()
      ensures subjects == None
    {
      subjects := None;
    }

    /** initializeSubjects (backend/searcher.js:67-71): populates the cache
        once, from the distinct subjects of the course table, and never
        replaces it. */
    method InitializeSubjects(distinct: seq<string>)
      modifies this
      ensures old(subjects).None? ==> subjects == Some(set s | s in distinct)
      ensures old(subjects).Some? ==> subjects == old(subjects)
    {
      if subjects.None? {
        subjects := Some(set s | s in distinct);
      }
    }

    /** The query list getSearchResults sends (backend/searcher.js:193-203),
        as written: the primary query, then one size-0 facet query per
        facetable filter in registry order. The facet queries are built from
        the raw filter object's key names, an array, so each carries the
        term clause alone. */
    method GetSearchQueries(query: string, termId: string, min: int, max: int, filters: FilterEntries)
      returns (queries: seq<Request>)
      requires subjects.Some?
      ensures CreatableArg(JObject(ValidFilters(filters)))
      ensures |queries| == 1 + |AggFilters()|
      ensures queries[0] == PrimaryQuery(query, subjects.value, termId, ValidFilters(filters), min, max)
      ensures forall i :: 0 <= i < |AggFilters()| ==>
                queries[i + 1] == GenerateQuery(query, subjects.value, [TermIdClause(termId)], 0, 0, Some(AggFilters()[i]))
    {
      var validFilters, _ := ValidateFilters(filters);
      ValidFiltersCreatable(filters);
      var known := subjects.value;
      var facets := FacetQueriesAsWritten(query, known, termId, filters, AggFilters());
      forall i | 0 <= i < |AggFilters()|
        ensures facets[i] == GenerateQuery(query, known, [TermIdClause(termId)], 0, 0, Some(AggFilters()[i]))
      {
        FacetsOnTermAt(query, known, termId, AggFilters(), i);
      }
      queries := [PrimaryQuery(query, known, termId, validFilters, min, max)] + facets;
    }

    /** The facet loop as written, over the facetable filters `aggFilters`. */
    static method FacetQueriesAsWritten(query: string, known: set<string>, termId: string, filters: FilterEntries,
                                        aggFilters: seq<FilterName>)
      returns (facets: seq<Request>)
      ensures facets == FacetsOnTerm(query, known, termId, aggFilters)
    {
      facets := [];
      for i := 0 to |aggFilters|
        invariant facets == FacetsOnTerm(query, known, termId, aggFilters[..i])
      {
        var facet := FacetQueryAsWritten(query, known, termId, filters, aggFilters[i]);
        assert aggFilters[..i + 1][..i] == aggFilters[..i];
        facets := facets + [facet];
      }
      assert aggFilters[..|aggFilters|] == aggFilters;
    }

    /** One pass of the facet loop as written: the class filters are built
        from the array of the other raw key names, so only the term clause
        is left. */
    static method FacetQueryAsWritten(query: string, known: set<string>, termId: string, filters: FilterEntries,
                                      fKey: FilterName)
      returns (facet: Request)
      ensures facet == GenerateQuery(query, known, [TermIdClause(termId)], 0, 0, Some(fKey))
    {
      var everyOtherFilter := Without(KeysOf(filters), Key(fKey));
      var facetFilters := GetClassFilterQuery(termId, StringArray(everyOtherFilter));
      ArrayArgumentYieldsOnlyTermClause(termId, StringArray(everyOtherFilter));
      facet := GenerateQuery(query, known, facetFilters, 0, 0, Some(fKey));
    }

    /** The query list with standard faceted search semantics: the facet
        query of filter F carries every other sanitised filter and not F,
        which is evidently what the name `everyOtherFilter` at
        backend/searcher.js:201 is for. */
    method GetSearchQueriesExcludingSelf(query: string, termId: string, min: int, max: int, filters: FilterEntries)
      returns (queries: seq<Request>)
      requires subjects.Some?
      ensures CreatableArg(JObject(ValidFilters(filters)))
      ensures |queries| == 1 + |AggFilters()|
      ensures queries[0] == PrimaryQuery(query, subjects.value, termId, ValidFilters(filters), min, max)
      ensures forall i :: 0 <= i < |AggFilters()| ==>
                queries[i + 1] == FacetQuery(query, subjects.value, termId, ValidFilters(filters), AggFilters()[i])
    {
      var validFilters, _ := ValidateFilters(filters);
      ValidFiltersCreatable(filters);
      queries := [PrimaryQuery(query, subjects.value, termId, validFilters, min, max)]
                 + FacetQueries(query, subjects.value, termId, validFilters, AggFilters());
    }
  }

  /** The facet queries the loop as written builds for the filters `fs`:
      one size-0 query per filter, in order, filtered by the term only. */
  function FacetsOnTerm(query: string, known: set<string>, termId: string, fs: seq<FilterName>): (r: seq<Request>)
    ensures |r| == |fs|
  {
    if fs == [] then []
    else FacetsOnTerm(query, known, termId, fs[..|fs| - 1])
         + [GenerateQuery(query, known, [TermIdClause(termId)], 0, 0, Some(fs[|fs| - 1]))]
  }

  /** Query `i` of the loop as written aggregates filter `i` and carries the
      term clause alone. */
  lemma {:induction false} FacetsOnTermAt(query: string, known: set<string>, termId: string, fs: seq<FilterName>, i: int)
    requires 0 <= i < |fs|
    ensures FacetsOnTerm(query, known, termId, fs)[i]
            == GenerateQuery(query, known, [TermIdClause(termId)], 0, 0, Some(fs[i]))
    decreases |fs|
  {
    var init := fs[..|fs| - 1];
    if i < |init| {
      FacetsOnTermAt(query, known, termId, init, i);
      assert init[i] == fs[i];
    }
  }

  /** One facet query per filter name of `fs`, in order, each built under
      standard faceted search semantics (every other filter, not its own). */
  function FacetQueries(query: string, subjects: set<string>, termId: string, valid: map<string, Json>,
                        fs: seq<FilterName>): seq<Request>
    requires CreatableArg(JObject(valid))
  {
    seq(|fs|, i requires 0 <= i < |fs| => FacetQuery(query, subjects, termId, valid, fs[i]))
  }

  /** The facet query of `f`, built as intended, keeps the clause of every
      other selected filter. */
  lemma FacetKeepsOtherFilters(termId: string, valid: map<string, Json>, f: FilterName, g: FilterName)
    requires CreatableArg(JObject(valid)) && Key(g) in valid && g != f
    ensures Create(g, valid[Key(g)]) in FacetClassFilters(termId, valid, f)
  {
    var r := FacetClassFilters(termId, valid, f);
    var others := Without(Picked(JObject(valid)), f);
    FacetClassFiltersSpec(termId, valid, f);
    WithoutMembers(Picked(JObject(valid)), f);
    assert g in others;
    var i :| 0 <= i < |others| && others[i] == g;
    assert r[i] == Create(g, valid[Key(g)]);
  }

  /** The sanitised filters `{subject: subjects, online: true}`. */
  function SubjectAndOnline(subjects: seq<Json>): (valid: map<string, Json>)
    ensures CreatableArg(JObject(valid))
  {
    map["subject" := JArray(subjects), "online" := JBool(true)]
  }

  /** The input that shows the facet defect: with subjects and the online
      filter selected, the subject facet built as intended is still
      restricted to online sections, but the facet query as written (whatever
      raw keys are left in the key array) is restricted to the term alone. */
  lemma SubjectFacetIgnoresOnlineFilter(termId: string, subjects: seq<Json>, everyOtherFilter: seq<string>)
    ensures Term("sections.online", JBool(true)) in FacetClassFilters(termId, SubjectAndOnline(subjects), Subject)
    ensures Term("sections.online", JBool(true)) !in GetClassFilterQuery(termId, StringArray(everyOtherFilter))
  {
    FacetKeepsOtherFilters(termId, SubjectAndOnline(subjects), Subject, Online);
    ArrayArgumentYieldsOnlyTermClause(termId, StringArray(everyOtherFilter));
  }

  // ---------------------------------------------------------------------
  // Result shaping (parseResults)
  // ---------------------------------------------------------------------

  datatype Hit = Hit(index: string, id: string)

  datatype Bucket = Bucket(key: string, docCount: nat)

  /** One response of the multi-query: an answer, or an error entry. */
  datatype Response =
    | Answer(hits: seq<Hit>, total: nat, took: nat, aggregations: map<string, seq<Bucket>>)
    | ErrorResponse

  datatype FacetValue = FacetValue(value: string, count: nat)

  datatype SearchResults = SearchResults(
    output: seq<Hit>,
    resultCount: nat,
    took: nat,
    aggregations: map<string, seq<FacetValue>>)

  /** Every response parseResults reads is there and is an answer, and each
      facet response carries the aggregation named after its filter;
      otherwise a property access on `undefined` throws. */
  predicate Parsable(results: seq<Response>, filters: seq<string>)
  {
    && |results| > |filters|
    && results[0].Answer?
    && FacetsAnswered(results[1..], filters)
  }

  /** Facet response `i` is an answer carrying the aggregation named
      `filters[i]`. */
  predicate FacetsAnswered(responses: seq<Response>, filters: seq<string>)
  {
    && |responses| >= |filters|
    && forall i :: 0 <= i < |filters| ==> responses[i].Answer? && filters[i] in responses[i].aggregations
  }

  /** The buckets of one aggregation as facet values: key and document
      count, in the store's order. */
  function FacetValues(buckets: seq<Bucket>): (r: seq<FacetValue>)
    ensures |r| == |buckets|
    ensures forall k :: 0 <= k < |buckets| ==> r[k].value == buckets[k].key && r[k].count == buckets[k].docCount
  {
    seq(|buckets|, k requires 0 <= k < |buckets| => FacetValue(buckets[k].key, buckets[k].docCount))
  }

  /** lodash's `_.fromPairs` over names and values paired by position:
      the pairs go in order, a later pair for the same name replacing an
      earlier one. */
  function FromPairs<V>(names: seq<string>, values: seq<V>): (m: map<string, V>)
    requires |values| == |names|
    ensures forall k :: k in m <==> k in names
    ensures DistinctStrings(names) ==> forall i :: 0 <= i < |names| ==> m[names[i]] == values[i]
  {
    if names == [] then map[]
    else
      var n := |names| - 1;
      var front := names[..n];
      assert forall i :: 0 <= i < n ==> front[i] == names[i];
      assert forall k :: k in names <==> k in front || k == names[n];
      var prefix := FromPairs(front, values[..n]);
      assert DistinctStrings(names) ==> DistinctStrings(front) && names[n] !in front;
      prefix[names[n] := values[n]]
  }

  /** The facet values of each facet response, in filter order. */
  function FacetLists(responses: seq<Response>, filters: seq<string>): (r: seq<seq<FacetValue>>)
    requires FacetsAnswered(responses, filters)
    ensures |r| == |filters|
    ensures forall i :: 0 <= i < |filters| ==> r[i] == FacetValues(responses[i].aggregations[filters[i]])
  {
    seq(|filters|, i requires 0 <= i < |filters| => FacetValues(responses[i].aggregations[filters[i]]))
  }

  /** parseResults (backend/searcher.js:209-218); `None` is the TypeError
      a missing response or aggregation raises. */
  function ParseResults(results: seq<Response>, filters: seq<string>): (r: Option<SearchResults>)
    ensures r.Some? <==> Parsable(results, filters)
    ensures r.Some? ==>
              && r.value.output == results[0].hits
              && r.value.resultCount == results[0].total
              && r.value.took == results[0].took
    ensures r.Some? ==> forall f :: f in r.value.aggregations <==> f in filters
    ensures r.Some? && DistinctStrings(filters) ==> forall i :: 0 <= i < |filters| ==>
              var buckets := results[i + 1].aggregations[filters[i]];
              var facet := r.value.aggregations[filters[i]];
              && |facet| == |buckets|
              && forall k :: 0 <= k < |buckets| ==>
                   facet[k].value == buckets[k].key && facet[k].count == buckets[k].docCount
  {
    if !Parsable(results, filters) then None
    else Some(SearchResults(results[0].hits, results[0].total, results[0].took,
                           FromPairs(filters, FacetLists(results[1..], filters))))
  }

  /** The facet names parseResults is given: the keys of the facetable
      filters. */
  function AggFilterKeys(): (r: seq<string>)
    ensures |r| == |AggFilters()|
    ensures forall i :: 0 <= i < |r| ==> r[i] == Key(AggFilters()[i])
  {
    seq(|AggFilters()|, i requires 0 <= i < |AggFilters()| => Key(AggFilters()[i]))
  }

  /** The facet names are distinct, since no two registry entries share a
      key. */
  lemma AggFilterKeysDistinct()
    ensures DistinctStrings(AggFilterKeys())
  {
    forall i, j | 0 <= i < j < |AggFilterKeys()| ensures AggFilterKeys()[i] != AggFilterKeys()[j] {
      LookupKey(AggFilters()[i]);
      LookupKey(AggFilters()[j]);
    }
  }

  /** A complete answer to the fan-out (every response an answer, each facet
      response carrying the aggregation named after its filter) is shaped
      without error. */
  lemma FanOutParses(results: seq<Response>)
    requires |results| == 1 + |AggFilters()|
    requires forall i :: 0 <= i < |results| ==> results[i].Answer?
    requires forall i :: 0 <= i < |AggFilters()| ==> Key(AggFilters()[i]) in results[i + 1].aggregations
    ensures DistinctStrings(AggFilterKeys())
    ensures ParseResults(results, AggFilterKeys()).Some?
  {
    AggFilterKeysDistinct();
    var keys := AggFilterKeys();
    forall i | 0 <= i < |keys| ensures results[1..][i].Answer? && keys[i] in results[1..][i].aggregations {
      assert keys[i] == Key(AggFilters()[i]);
    }
  }
}
