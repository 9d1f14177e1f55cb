/** The index builder (backend/scrapers/classes/searchIndex.js): a two-pass
    keyed join of the scraped classes and sections into term-grouped class
    documents, a CRN sort of each document's sections, and one bulk write
    per term group into a freshly created index. */
module SearchIndex {
  import opened Json
  import opened JsObject
  import opened Keys

  /** A scraped class: the identifying attributes, the `code` field the
      builder fills in, and every other attribute, carried untouched. */
  datatype ClassRecord = ClassRecord(
    host: string, termId: string, subject: string, classId: string,
    code: Option<string>, attributes: map<string, Json>)

  /** A scraped section. */
  datatype SectionRecord = SectionRecord(
    host: string, termId: string, subject: string, classId: string,
    crn: string, url: string, attributes: map<string, Json>)

  /** The document stored for a class: `{class, sections}`. */
  datatype ClassDocument = ClassDocument(cls: ClassRecord, sections: seq<SectionRecord>)

  /** One entry of `classLists`: the class documents of one term, by class
      hash, with the host and term of the class that created the entry. */
  datatype TermGroup = TermGroup(classHash: Dict<ClassDocument>, host: string, termId: string)

  /** `classLists`, by term hash. */
  type ClassLists = Dict<TermGroup>

  datatype TermDump = TermDump(classes: seq<ClassRecord>, sections: seq<SectionRecord>)

  function ClassTermHash(kd: KeyDeriver, c: ClassRecord): string
  {
    kd.termHash(c.host, c.termId)
  }

  function ClassClassHash(kd: KeyDeriver, c: ClassRecord): string
  {
    kd.classHash(ClassInfo(c.host, c.termId, c.subject, c.classId))
  }

  function SectionTermHash(kd: KeyDeriver, s: SectionRecord): string
  {
    kd.termHash(s.host, s.termId)
  }

  function SectionClassHash(kd: KeyDeriver, s: SectionRecord): string
  {
    kd.classHash(ClassInfo(s.host, s.termId, s.subject, s.classId))
  }

  /** Both levels of `classLists` are well-formed insertion-ordered objects. */
  predicate WellFormed(lists: ClassLists)
  {
    && lists.Valid()
    && forall th :: th in lists.vals ==> lists.vals[th].classHash.Valid()
  }

  /** There is a document under term hash `th` and class hash `ch`. */
  predicate Has(lists: ClassLists, th: string, ch: string)
  {
    th in lists.vals && ch in lists.vals[th].classHash.vals
  }

  function Doc(lists: ClassLists, th: string, ch: string): ClassDocument
    requires Has(lists, th, ch)
  {
    lists.vals[th].classHash.vals[ch]
  }

  // ---------------------------------------------------------------------
  // First pass: one document per class (searchIndex.js:37-57)
  // ---------------------------------------------------------------------

  /** One step of the class loop: create the term group if it is missing,
      then store a fresh document for the class, replacing any earlier one
      with the same class hash. */
  function AddClass(kd: KeyDeriver, lists: ClassLists, c: ClassRecord): ClassLists
  {
    var th := ClassTermHash(kd, c);
    var withGroup := if th in lists.vals then lists else lists.Put(th, TermGroup(Empty(), c.host, c.termId));
    var group := withGroup.vals[th];
    withGroup.Put(th, group.(classHash := group.classHash.Put(ClassClassHash(kd, c), ClassDocument(c, []))))
  }

  function Grouped(kd: KeyDeriver, classes: seq<ClassRecord>): ClassLists
  {
    if classes == [] then Empty()
    else AddClass(kd, Grouped(kd, classes[..|classes| - 1]), classes[|classes| - 1])
  }

  /** One step of the class loop in terms of documents and groups. */
  lemma AddClassEffect(kd: KeyDeriver, lists: ClassLists, c: ClassRecord)
    ensures WellFormed(lists) ==> WellFormed(AddClass(kd, lists, c))
    ensures forall th :: th in AddClass(kd, lists, c).vals <==> th in lists.vals || th == ClassTermHash(kd, c)
    ensures forall th :: th in AddClass(kd, lists, c).vals ==>
              && AddClass(kd, lists, c).vals[th].host == (if th in lists.vals then lists.vals[th].host else c.host)
              && AddClass(kd, lists, c).vals[th].termId == (if th in lists.vals then lists.vals[th].termId else c.termId)
    ensures forall th, ch :: Has(AddClass(kd, lists, c), th, ch) <==>
              Has(lists, th, ch) || (th == ClassTermHash(kd, c) && ch == ClassClassHash(kd, c))
    ensures forall th, ch :: Has(AddClass(kd, lists, c), th, ch) ==>
              Doc(AddClass(kd, lists, c), th, ch) ==
              if th == ClassTermHash(kd, c) && ch == ClassClassHash(kd, c) then ClassDocument(c, [])
              else Doc(lists, th, ch)
  {
    AddClassGroups(kd, lists, c);
    AddClassDocs(kd, lists, c);
  }

  lemma AddClassGroups(kd: KeyDeriver, lists: ClassLists, c: ClassRecord)
    ensures WellFormed(lists) ==> WellFormed(AddClass(kd, lists, c))
    ensures forall th :: th in AddClass(kd, lists, c).vals <==> th in lists.vals || th == ClassTermHash(kd, c)
    ensures forall th :: th in AddClass(kd, lists, c).vals ==>
              && AddClass(kd, lists, c).vals[th].host == (if th in lists.vals then lists.vals[th].host else c.host)
              && AddClass(kd, lists, c).vals[th].termId == (if th in lists.vals then lists.vals[th].termId else c.termId)
  {
  }

  lemma AddClassDocs(kd: KeyDeriver, lists: ClassLists, c: ClassRecord)
    ensures forall th, ch :: Has(AddClass(kd, lists, c), th, ch) <==>
              Has(lists, th, ch) || (th == ClassTermHash(kd, c) && ch == ClassClassHash(kd, c))
    ensures forall th, ch :: Has(AddClass(kd, lists, c), th, ch) ==>
              Doc(AddClass(kd, lists, c), th, ch) ==
              if th == ClassTermHash(kd, c) && ch == ClassClassHash(kd, c) then ClassDocument(c, [])
              else Doc(lists, th, ch)
  {
  }

  lemma {:induction false} GroupedWellFormed(kd: KeyDeriver, classes: seq<ClassRecord>)
    ensures WellFormed(Grouped(kd, classes))
  {
    if classes != [] {
      GroupedWellFormed(kd, classes[..|classes| - 1]);
      AddClassEffect(kd, Grouped(kd, classes[..|classes| - 1]), classes[|classes| - 1]);
    }
  }

  /** The pair of hashes a class is filed under. */
  predicate FiledUnder(kd: KeyDeriver, c: ClassRecord, th: string, ch: string)
  {
    ClassTermHash(kd, c) == th && ClassClassHash(kd, c) == ch
  }

  /** Every class of the dump has a document under its own pair of hashes. */
  lemma {:induction false} GroupedIndexesClass(kd: KeyDeriver, classes: seq<ClassRecord>, i: int)
    requires 0 <= i < |classes|
    ensures Has(Grouped(kd, classes), ClassTermHash(kd, classes[i]), ClassClassHash(kd, classes[i]))
  {
    var n := |classes| - 1;
    var init := classes[..n];
    AddClassEffect(kd, Grouped(kd, init), classes[n]);
    if i < n {
      assert init[i] == classes[i];
      GroupedIndexesClass(kd, init, i);
    }
  }

  /** Every document of the first pass holds a class of the dump filed under
      its pair of hashes, with no sections. */
  lemma {:induction false} GroupedDocument(kd: KeyDeriver, classes: seq<ClassRecord>, th: string, ch: string)
    requires Has(Grouped(kd, classes), th, ch)
    ensures Doc(Grouped(kd, classes), th, ch).sections == []
    ensures Doc(Grouped(kd, classes), th, ch).cls in classes
    ensures FiledUnder(kd, Doc(Grouped(kd, classes), th, ch).cls, th, ch)
  {
    var n := |classes| - 1;
    var init := classes[..n];
    AddClassEffect(kd, Grouped(kd, init), classes[n]);
    if !FiledUnder(kd, classes[n], th, ch) {
      GroupedDocument(kd, init, th, ch);
      assert Doc(Grouped(kd, init), th, ch).cls in init;
    }
  }

  /** When several classes share a pair of hashes, the last one wins: the
      class stored under a pair is the last class of the dump filed under it. */
  lemma {:induction false} GroupedLastClassWins(kd: KeyDeriver, classes: seq<ClassRecord>, i: int)
    requires 0 <= i < |classes|
    requires forall j :: i < j < |classes| ==>
               !FiledUnder(kd, classes[j], ClassTermHash(kd, classes[i]), ClassClassHash(kd, classes[i]))
    ensures Has(Grouped(kd, classes), ClassTermHash(kd, classes[i]), ClassClassHash(kd, classes[i]))
    ensures Doc(Grouped(kd, classes), ClassTermHash(kd, classes[i]), ClassClassHash(kd, classes[i]))
            == ClassDocument(classes[i], [])
  {
    var n := |classes| - 1;
    var init := classes[..n];
    AddClassEffect(kd, Grouped(kd, init), classes[n]);
    if i < n {
      assert init[i] == classes[i];
      GroupedLastClassWins(kd, init, i);
    }
  }

  /** Every term group was created by a class of the dump: the first one with
      that term hash, whose host and term the group keeps. */
  lemma {:induction false} GroupedTermGroup(kd: KeyDeriver, classes: seq<ClassRecord>, th: string) returns (i: int)
    requires th in Grouped(kd, classes).vals
    ensures 0 <= i < |classes| && ClassTermHash(kd, classes[i]) == th
    ensures forall j :: 0 <= j < i ==> ClassTermHash(kd, classes[j]) != th
    ensures Grouped(kd, classes).vals[th].host == classes[i].host
    ensures Grouped(kd, classes).vals[th].termId == classes[i].termId
  {
    var n := |classes| - 1;
    var init := classes[..n];
    AddClassEffect(kd, Grouped(kd, init), classes[n]);
    if th in Grouped(kd, init).vals {
      i := GroupedTermGroup(kd, init, th);
      assert forall j :: 0 <= j <= i ==> init[j] == classes[j];
    } else {
      i := n;
      forall j | 0 <= j < n ensures ClassTermHash(kd, classes[j]) != th {
        assert init[j] == classes[j];
        GroupedIndexesClass(kd, init, j);
      }
    }
  }

  /** The first pass, as the source's `forEach` over the classes. */
  method GroupClassesByTerm(kd: KeyDeriver, classes: seq<ClassRecord>) returns (classLists: ClassLists)
    ensures classLists == Grouped(kd, classes)
  {
    classLists := Empty();
    for i := 0 to |classes|
      invariant classLists == Grouped(kd, classes[..i])
    {
      assert classes[..i + 1][..i] == classes[..i];
      var aClass := classes[i];
      var termHash := ClassTermHash(kd, aClass);
      var classHash := ClassClassHash(kd, aClass);
      if termHash !in classLists.vals {
        classLists := classLists.Put(termHash, TermGroup(Empty(), aClass.host, aClass.termId));
      }
      var group := classLists.vals[termHash];
      classLists := classLists.Put(termHash, group.(classHash := group.classHash.Put(classHash, ClassDocument(aClass, []))));
    }
    assert classes[..|classes|] == classes;
  }

  // ---------------------------------------------------------------------
  // Second pass: attach sections (searchIndex.js:60-87)
  // ---------------------------------------------------------------------

  /** What the section loop logs for a section it skips. */
  datatype JoinError =
    | NoTermGroup(termHash: string, classHash: string, section: SectionRecord)
    | NoClass(classHash: string, url: string)

  /** The log line for a section whose class has no document, if any. */
  function Orphan(kd: KeyDeriver, lists: ClassLists, s: SectionRecord): seq<JoinError>
  {
    var th := SectionTermHash(kd, s);
    var ch := SectionClassHash(kd, s);
    if th !in lists.vals then [NoTermGroup(th, ch, s)]
    else if ch !in lists.vals[th].classHash.vals then [NoClass(ch, s.url)]
    else []
  }

  /** One step of the section loop: log and skip an orphan, otherwise append
      the section to its class's document. */
  function AttachSection(kd: KeyDeriver, lists: ClassLists, s: SectionRecord): ClassLists
  {
    var th := SectionTermHash(kd, s);
    var ch := SectionClassHash(kd, s);
    if !Has(lists, th, ch) then lists
    else
      var group := lists.vals[th];
      var doc := group.classHash.vals[ch];
      lists.Put(th, group.(classHash := group.classHash.Put(ch, doc.(sections := doc.sections + [s]))))
  }

  function Joined(kd: KeyDeriver, lists: ClassLists, sections: seq<SectionRecord>): ClassLists
  {
    if sections == [] then lists
    else AttachSection(kd, Joined(kd, lists, sections[..|sections| - 1]), sections[|sections| - 1])
  }

  /** The log of the section loop, read against the first pass's result. */
  function Orphans(kd: KeyDeriver, lists: ClassLists, sections: seq<SectionRecord>): seq<JoinError>
  {
    if sections == [] then []
    else Orphans(kd, lists, sections[..|sections| - 1]) + Orphan(kd, lists, sections[|sections| - 1])
  }

  /** The sections of the dump that belong to the class with hashes `th` and
      `ch`, in dump order. */
  function Matching(kd: KeyDeriver, sections: seq<SectionRecord>, th: string, ch: string): seq<SectionRecord>
  {
    if sections == [] then []
    else
      var s := sections[|sections| - 1];
      Matching(kd, sections[..|sections| - 1], th, ch)
        + (if SectionTermHash(kd, s) == th && SectionClassHash(kd, s) == ch then [s] else [])
  }

  /** `a` and `b` have the same term groups and class documents, up to the
      documents' section lists. */
  predicate SameShape(a: ClassLists, b: ClassLists)
  {
    && a.keys == b.keys
    && a.vals.Keys == b.vals.Keys
    && forall th :: th in a.vals ==>
         && a.vals[th].host == b.vals[th].host
         && a.vals[th].termId == b.vals[th].termId
         && a.vals[th].classHash.keys == b.vals[th].classHash.keys
         && a.vals[th].classHash.vals.Keys == b.vals[th].classHash.vals.Keys
         && forall ch :: ch in a.vals[th].classHash.vals ==>
              a.vals[th].classHash.vals[ch].cls == b.vals[th].classHash.vals[ch].cls
  }

  /** The pair of hashes a section names. */
  predicate Names(kd: KeyDeriver, s: SectionRecord, th: string, ch: string)
  {
    SectionTermHash(kd, s) == th && SectionClassHash(kd, s) == ch
  }

  /** A section is an orphan when its pair of hashes names no document. */
  predicate IsOrphan(kd: KeyDeriver, lists: ClassLists, s: SectionRecord)
  {
    !Has(lists, SectionTermHash(kd, s), SectionClassHash(kd, s))
  }

  lemma SameShapeTransitive(a: ClassLists, b: ClassLists, c: ClassLists)
    requires SameShape(a, b) && SameShape(b, c)
    ensures SameShape(a, c)
  {
  }

  /** One step of the section loop in terms of documents. */
  lemma AttachSectionEffect(kd: KeyDeriver, lists: ClassLists, s: SectionRecord)
    ensures SameShape(lists, AttachSection(kd, lists, s))
    ensures WellFormed(lists) ==> WellFormed(AttachSection(kd, lists, s))
    ensures forall th, ch :: Has(lists, th, ch) ==>
              && Has(AttachSection(kd, lists, s), th, ch)
              && Doc(AttachSection(kd, lists, s), th, ch).sections
                 == Doc(lists, th, ch).sections + (if Names(kd, s, th, ch) then [s] else [])
  {
    AttachSectionShape(kd, lists, s);
    AttachSectionDocs(kd, lists, s);
  }

  lemma AttachSectionShape(kd: KeyDeriver, lists: ClassLists, s: SectionRecord)
    ensures SameShape(lists, AttachSection(kd, lists, s))
    ensures WellFormed(lists) ==> WellFormed(AttachSection(kd, lists, s))
  {
    if Has(lists, SectionTermHash(kd, s), SectionClassHash(kd, s)) {
      var th := SectionTermHash(kd, s);
      var ch := SectionClassHash(kd, s);
      var group := lists.vals[th];
      var doc := group.classHash.vals[ch];
      var group' := group.(classHash := group.classHash.Put(ch, doc.(sections := doc.sections + [s])));
      assert group'.classHash.keys == group.classHash.keys;
      assert AttachSection(kd, lists, s) == lists.Put(th, group');
    }
  }

  lemma AttachSectionDocs(kd: KeyDeriver, lists: ClassLists, s: SectionRecord)
    ensures forall th, ch :: Has(lists, th, ch) ==>
              && Has(AttachSection(kd, lists, s), th, ch)
              && Doc(AttachSection(kd, lists, s), th, ch).sections
                 == Doc(lists, th, ch).sections + (if Names(kd, s, th, ch) then [s] else [])
  {
  }

  /** The section loop never creates or drops a group or a document, and
      never changes a class. */
  lemma {:induction false} JoinKeepsShape(kd: KeyDeriver, lists: ClassLists, sections: seq<SectionRecord>)
    ensures SameShape(lists, Joined(kd, lists, sections))
    ensures WellFormed(lists) ==> WellFormed(Joined(kd, lists, sections))
  {
    if sections != [] {
      var init := sections[..|sections| - 1];
      JoinKeepsShape(kd, lists, init);
      AttachSectionEffect(kd, Joined(kd, lists, init), sections[|sections| - 1]);
      SameShapeTransitive(lists, Joined(kd, lists, init), Joined(kd, lists, sections));
    }
  }

  /** Each document ends the section loop with its own sections appended, in
      dump order: every section that names the document, once each, and no
      other. */
  lemma {:induction false} JoinAppendsMatching(kd: KeyDeriver, lists: ClassLists, sections: seq<SectionRecord>,
                                               th: string, ch: string)
    requires Has(lists, th, ch)
    ensures Has(Joined(kd, lists, sections), th, ch)
    ensures Doc(Joined(kd, lists, sections), th, ch).sections == Doc(lists, th, ch).sections + Matching(kd, sections, th, ch)
  {
    if sections != [] {
      var init := sections[..|sections| - 1];
      JoinAppendsMatching(kd, lists, init, th, ch);
      AttachSectionEffect(kd, Joined(kd, lists, init), sections[|sections| - 1]);
    }
  }

  /** A section is among the sections of a document exactly when it names
      that document, and it is there as many times as in the dump. */
  lemma {:induction false} MatchingMembers(kd: KeyDeriver, sections: seq<SectionRecord>, th: string, ch: string)
    ensures forall s :: s in Matching(kd, sections, th, ch) <==> s in sections && Names(kd, s, th, ch)
    ensures forall s :: Names(kd, s, th, ch) ==> multiset(Matching(kd, sections, th, ch))[s] == multiset(sections)[s]
  {
    if sections != [] {
      var init := sections[..|sections| - 1];
      MatchingMembers(kd, init, th, ch);
      assert sections == init + [sections[|sections| - 1]];
    }
  }

  /** The section loop logs one line for each orphan, in dump order, and
      nothing for the other sections. */
  lemma {:induction false} OrphansLogged(kd: KeyDeriver, lists: ClassLists, sections: seq<SectionRecord>)
    ensures forall s :: s in sections && IsOrphan(kd, lists, s) ==> Orphan(kd, lists, s)[0] in Orphans(kd, lists, sections)
    ensures forall e :: e in Orphans(kd, lists, sections) ==>
              exists s :: s in sections && IsOrphan(kd, lists, s) && e == Orphan(kd, lists, s)[0]
  {
    if sections != [] {
      var init := sections[..|sections| - 1];
      var last := sections[|sections| - 1];
      OrphansLogged(kd, lists, init);
      assert sections == init + [last];
      forall e | e in Orphans(kd, lists, sections)
        ensures exists s :: s in sections && IsOrphan(kd, lists, s) && e == Orphan(kd, lists, s)[0]
      {
        if e !in Orphans(kd, lists, init) {
          assert e in Orphan(kd, lists, last);
          assert last in sections && IsOrphan(kd, lists, last);
        }
      }
    }
  }

  /** The second pass, as the source's `forEach` over the sections. */
  method JoinSections(kd: KeyDeriver, grouped: ClassLists, sections: seq<SectionRecord>)
    returns (classLists: ClassLists, logged: seq<JoinError>)
    ensures classLists == Joined(kd, grouped, sections)
    ensures logged == Orphans(kd, grouped, sections)
  {
    classLists, logged := grouped, [];
    for i := 0 to |sections|
      invariant classLists == Joined(kd, grouped, sections[..i])
      invariant logged == Orphans(kd, grouped, sections[..i])
    {
      assert sections[..i + 1][..i] == sections[..i];
      JoinKeepsShape(kd, grouped, sections[..i]);
      var section := sections[i];
      var termHash := SectionTermHash(kd, section);
      var classHash := SectionClassHash(kd, section);
      if termHash !in classLists.vals {
        logged := logged + [NoTermGroup(termHash, classHash, section)];
        continue;
      }
      if classHash !in classLists.vals[termHash].classHash.vals {
        logged := logged + [NoClass(classHash, section.url)];
        continue;
      }
      var group := classLists.vals[termHash];
      var doc := group.classHash.vals[classHash];
      classLists := classLists.Put(termHash, group.(classHash := group.classHash.Put(classHash, doc.(sections := doc.sections + [section]))));
    }
    assert sections[..|sections|] == sections;
  }

  // ---------------------------------------------------------------------
  // Third pass: sections by CRN (searchIndex.js:89-101)
  // ---------------------------------------------------------------------

  /** `a < b` on strings: lexicographic order of the characters. */
  predicate StrLt(a: string, b: string)
  {
    if |a| == 0 then |b| > 0
    else if |b| == 0 then false
    else if a[0] != b[0] then a[0] < b[0]
    else StrLt(a[1..], b[1..])
  }

  predicate StrLe(a: string, b: string)
  {
    !StrLt(b, a)
  }

  lemma {:induction false} StrLtIrreflexive(a: string)
    ensures !StrLt(a, a)
  {
    if |a| > 0 {
      StrLtIrreflexive(a[1..]);
    }
  }

  lemma {:induction false} StrLtTransitive(a: string, b: string, c: string)
    requires StrLt(a, b) && StrLt(b, c)
    ensures StrLt(a, c)
  {
    if |a| > 0 && a[0] == b[0] && b[0] == c[0] {
      StrLtTransitive(a[1..], b[1..], c[1..]);
    }
  }

  /** Two different strings are ordered one way or the other. */
  lemma {:induction false} StrLtTotal(a: string, b: string)
    requires a != b
    ensures StrLt(a, b) || StrLt(b, a)
  {
    if |a| > 0 && |b| > 0 && a[0] == b[0] {
      assert a == [a[0]] + a[1..] && b == [b[0]] + b[1..];
      StrLtTotal(a[1..], b[1..]);
    }
  }

  /** Exactly one of `a < b`, `a == b` and `b < a` holds. */
  lemma StrLtTrichotomy(a: string, b: string)
    ensures StrLt(a, b) || a == b || StrLt(b, a)
    ensures !(StrLt(a, b) && StrLt(b, a))
    ensures !StrLt(a, a)
  {
    StrLtIrreflexive(a);
    if a != b {
      StrLtTotal(a, b);
    }
    if StrLt(a, b) && StrLt(b, a) {
      StrLtTransitive(a, b, a);
    }
  }

  /** `StrLe` is a total order: reflexive, total and transitive. */
  lemma StrLeTotalOrder(a: string, b: string, c: string)
    ensures StrLe(a, a)
    ensures StrLe(a, b) || StrLe(b, a)
    ensures StrLe(a, b) && StrLe(b, c) ==> StrLe(a, c)
    ensures StrLe(a, b) && StrLe(b, a) ==> a == b
  {
    StrLtIrreflexive(a);
    if a != b {
      StrLtTotal(a, b);
    }
    if StrLt(c, a) {
      if StrLt(b, a) {
      } else if a == b {
      } else {
        StrLtTotal(a, b);
        if StrLe(b, c) && b != c {
          StrLtTotal(b, c);
          StrLtTransitive(a, b, c);
          StrLtTransitive(c, a, c);
          StrLtIrreflexive(c);
        }
      }
    }
    if StrLt(a, b) && StrLt(b, a) {
      StrLtTransitive(a, b, a);
      StrLtIrreflexive(a);
    }
  }

  predicate SortedByCrn(s: seq<SectionRecord>)
  {
    forall i, j :: 0 <= i < j < |s| ==> StrLe(s[i].crn, s[j].crn)
  }

  /** Insert `x` into a CRN-sorted list after every section whose CRN is not
      greater. */
  function InsertByCrn(x: SectionRecord, sorted: seq<SectionRecord>): (r: seq<SectionRecord>)
    ensures multiset(r) == multiset(sorted) + multiset{x}
  {
    if sorted == [] then [x]
    else if StrLt(x.crn, sorted[0].crn) then [x] + sorted
    else
      assert sorted == [sorted[0]] + sorted[1..];
      [sorted[0]] + InsertByCrn(x, sorted[1..])
  }

  lemma {:induction false} InsertByCrnSorted(x: SectionRecord, sorted: seq<SectionRecord>)
    requires SortedByCrn(sorted)
    ensures SortedByCrn(InsertByCrn(x, sorted))
  {
    if sorted == [] {
    } else if StrLt(x.crn, sorted[0].crn) {
      forall j | 0 < j < |sorted| + 1 ensures StrLe(x.crn, ([x] + sorted)[j].crn) {
        StrLeTotalOrder(x.crn, sorted[0].crn, sorted[j - 1].crn);
      }
    } else {
      var rest := InsertByCrn(x, sorted[1..]);
      InsertByCrnSorted(x, sorted[1..]);
      assert sorted == [sorted[0]] + sorted[1..];
      forall j | 0 <= j < |rest| ensures StrLe(sorted[0].crn, rest[j].crn) {
        assert rest[j] in multiset(rest);
        if rest[j] != x {
          assert rest[j] in sorted[1..];
        } else {
          StrLeTotalOrder(x.crn, sorted[0].crn, x.crn);
        }
      }
    }
  }

  /** The sort the comment at searchIndex.js:89-90 intends: CRN ascending,
      equal CRNs in their original order. */
  function SortByCrn(s: seq<SectionRecord>): (r: seq<SectionRecord>)
    ensures SortedByCrn(r)
    ensures multiset(r) == multiset(s)
  {
    if s == [] then []
    else
      assert s == s[..|s| - 1] + [s[|s| - 1]];
      InsertByCrnSorted(s[|s| - 1], SortByCrn(s[..|s| - 1]));
      InsertByCrn(s[|s| - 1], SortByCrn(s[..|s| - 1]))
  }

  /** The comparator as written, `(a, b) => a.crn > b.crn`, after
      `Array.prototype.sort` converts its boolean to a number. */
  function AsWrittenComparator(a: SectionRecord, b: SectionRecord): (r: int)
    ensures r == 0 || r == 1
  {
    if StrLt(b.crn, a.crn) then 1 else 0
  }

  /** The input that shows it: for CRNs "1" and "2" the comparator answers
      "equal" one way round and "greater" the other, which breaks the
      consistency `Array.prototype.sort` requires of a comparator, so the
      resulting order is left to the engine. A sort that only moves an element
      forward on a negative answer never moves anything. */
  lemma AsWrittenComparatorIsInconsistent(a: SectionRecord, b: SectionRecord)
    requires a.crn == "1" && b.crn == "2"
    ensures AsWrittenComparator(a, b) == 0
    ensures AsWrittenComparator(b, a) == 1
    ensures forall x, y :: AsWrittenComparator(x, y) >= 0
  {
    assert StrLt(a.crn, b.crn) by {
      assert a.crn[0] == '1' && b.crn[0] == '2';
    }
    assert !StrLt(b.crn, a.crn) by {
      assert a.crn[0] == '1' && b.crn[0] == '2';
    }
  }

  /** The comparator the sort is meant to have. */
  function CrnComparator(a: SectionRecord, b: SectionRecord): (r: int)
    ensures r < 0 <==> StrLt(a.crn, b.crn)
    ensures r > 0 <==> StrLt(b.crn, a.crn)
    ensures r == 0 <==> a.crn == b.crn
  {
    StrLtTrichotomy(a.crn, b.crn);
    if StrLt(a.crn, b.crn) then -1 else if StrLt(b.crn, a.crn) then 1 else 0
  }

  /** The sort step for one document: only lists of more than one section
      are sorted. */
  function SortDoc(doc: ClassDocument): (r: ClassDocument)
    ensures r.cls == doc.cls
    ensures SortedByCrn(r.sections)
    ensures multiset(r.sections) == multiset(doc.sections)
    ensures |doc.sections| <= 1 ==> r == doc
  {
    if |doc.sections| > 1 then doc.(sections := SortByCrn(doc.sections)) else doc
  }

  function SortGroup(group: TermGroup): TermGroup
  {
    var docs := group.classHash;
    group.(classHash := Dict(docs.keys, map ch | ch in docs.vals :: SortDoc(docs.vals[ch])))
  }

  function SortPass(lists: ClassLists): ClassLists
  {
    Dict(lists.keys, map th | th in lists.vals :: SortGroup(lists.vals[th]))
  }

  /** The sort pass keeps every group, document and class. */
  lemma SortPassShape(lists: ClassLists)
    ensures SameShape(lists, SortPass(lists))
    ensures WellFormed(lists) ==> WellFormed(SortPass(lists))
  {
  }

  /** After the sort pass every document holds its own sections, now ordered
      by CRN. */
  lemma SortPassDocument(lists: ClassLists, th: string, ch: string)
    requires Has(lists, th, ch)
    ensures Has(SortPass(lists), th, ch)
    ensures Doc(SortPass(lists), th, ch).cls == Doc(lists, th, ch).cls
    ensures SortedByCrn(Doc(SortPass(lists), th, ch).sections)
    ensures multiset(Doc(SortPass(lists), th, ch).sections) == multiset(Doc(lists, th, ch).sections)
  {
    assert Doc(SortPass(lists), th, ch) == SortDoc(Doc(lists, th, ch));
  }

  /** The inner loop of the sort pass: every document of one term group. */
  method SortGroupSections(group: TermGroup) returns (sorted: TermGroup)
    requires group.classHash.Valid()
    ensures sorted == SortGroup(group)
  {
    sorted := group;
    var classHashes := group.classHash.keys;
    for j := 0 to |classHashes|
      invariant sorted.host == group.host && sorted.termId == group.termId
      invariant sorted.classHash.keys == classHashes
      invariant sorted.classHash.vals.Keys == group.classHash.vals.Keys
      invariant forall ch :: ch in group.classHash.vals ==>
                  sorted.classHash.vals[ch] ==
                  if ch in classHashes[..j] then SortDoc(group.classHash.vals[ch]) else group.classHash.vals[ch]
    {
      var classHash := classHashes[j];
      assert classHash !in classHashes[..j];
      assert forall ch :: ch in classHashes[..j + 1] <==> ch in classHashes[..j] || ch == classHash;
      var doc := sorted.classHash.vals[classHash];
      if |doc.sections| > 1 {
        sorted := sorted.(classHash := sorted.classHash.Put(classHash, doc.(sections := SortByCrn(doc.sections))));
      }
    }
    assert classHashes[..|classHashes|] == classHashes;
  }

  /** The third pass: the nested loops over term hashes and class hashes. */
  method SortSections(classLists: ClassLists) returns (sorted: ClassLists)
    requires WellFormed(classLists)
    ensures sorted == SortPass(classLists)
  {
    sorted := classLists;
    var termHashes := classLists.keys;
    for i := 0 to |termHashes|
      invariant sorted.keys == termHashes
      invariant sorted.vals.Keys == classLists.vals.Keys
      invariant forall th :: th in classLists.vals ==>
                  sorted.vals[th] ==
                  if th in termHashes[..i] then SortGroup(classLists.vals[th]) else classLists.vals[th]
    {
      var termHash := termHashes[i];
      assert termHash !in termHashes[..i];
      assert forall th :: th in termHashes[..i + 1] <==> th in termHashes[..i] || th == termHash;
      var group := SortGroupSections(sorted.vals[termHash]);
      sorted := sorted.Put(termHash, group);
    }
    assert termHashes[..|termHashes|] == termHashes;
  }

  // ---------------------------------------------------------------------
  // The built index (searchIndex.js:34-101, end to end)
  // ---------------------------------------------------------------------

  /** `classLists` once the three passes are done. */
  function Built(kd: KeyDeriver, dump: TermDump): (r: ClassLists)
    ensures WellFormed(r)
  {
    var grouped := Grouped(kd, dump.classes);
    GroupedWellFormed(kd, dump.classes);
    JoinKeepsShape(kd, grouped, dump.sections);
    SortPassShape(Joined(kd, grouped, dump.sections));
    SortPass(Joined(kd, grouped, dump.sections))
  }

  /** Every class of the dump has a document in the built index. */
  lemma EveryClassIndexed(kd: KeyDeriver, dump: TermDump, i: int)
    requires 0 <= i < |dump.classes|
    ensures Has(Built(kd, dump), ClassTermHash(kd, dump.classes[i]), ClassClassHash(kd, dump.classes[i]))
  {
    var grouped := Grouped(kd, dump.classes);
    GroupedIndexesClass(kd, dump.classes, i);
    JoinKeepsShape(kd, grouped, dump.sections);
    SortPassShape(Joined(kd, grouped, dump.sections));
  }

  /** Every document of the built index holds a class of the dump filed under
      its pair of hashes, and exactly the sections of the dump that name that
      pair, each as often as in the dump, ordered by CRN. */
  lemma BuiltDocument(kd: KeyDeriver, dump: TermDump, th: string, ch: string)
    requires Has(Built(kd, dump), th, ch)
    ensures Doc(Built(kd, dump), th, ch).cls in dump.classes
    ensures FiledUnder(kd, Doc(Built(kd, dump), th, ch).cls, th, ch)
    ensures SortedByCrn(Doc(Built(kd, dump), th, ch).sections)
    ensures multiset(Doc(Built(kd, dump), th, ch).sections) == multiset(Matching(kd, dump.sections, th, ch))
    ensures forall s :: s in Doc(Built(kd, dump), th, ch).sections <==> s in dump.sections && Names(kd, s, th, ch)
  {
    var grouped := Grouped(kd, dump.classes);
    var joined := Joined(kd, grouped, dump.sections);
    JoinKeepsShape(kd, grouped, dump.sections);
    SortPassShape(joined);
    assert Has(joined, th, ch);
    assert Has(grouped, th, ch);
    GroupedDocument(kd, dump.classes, th, ch);
    JoinAppendsMatching(kd, grouped, dump.sections, th, ch);
    SortPassDocument(joined, th, ch);
    MatchingMembers(kd, dump.sections, th, ch);
    forall s ensures s in Doc(Built(kd, dump), th, ch).sections <==> s in Matching(kd, dump.sections, th, ch) {
      assert s in Doc(Built(kd, dump), th, ch).sections <==> s in multiset(Doc(Built(kd, dump), th, ch).sections);
    }
  }

  // ---------------------------------------------------------------------
  // Fourth pass: one bulk write per term group (searchIndex.js:18-31, 103-122)
  // ---------------------------------------------------------------------

  /** The index every request names. */
  const ClassesIndex := "classes"

  /** One line of a bulk body: the action line `{index: {_id}}` or the
      document that follows it. */
  datatype BulkItem = IndexAction(id: string) | Document(doc: ClassDocument)

  /** The document as it is sent, after `clas.code = clas.subject + clas.classId`. */
  function WithCode(doc: ClassDocument): ClassDocument
  {
    doc.(cls := doc.cls.(code := Some(doc.cls.subject + doc.cls.classId)))
  }

  /** The documents `vals` names by `ids`, in that order, each after its
      action line. */
  function BulkBody(vals: map<string, ClassDocument>, ids: seq<string>): seq<BulkItem>
    requires forall k :: k in ids ==> k in vals
  {
    if ids == [] then []
    else
      var id := ids[|ids| - 1];
      BulkBody(vals, ids[..|ids| - 1]) + [IndexAction(id), Document(WithCode(vals[id]))]
  }

  /** Position `2j` of a bulk body is the action line of the `j`-th document
      and position `2j + 1` that document with its code filled in. */
  lemma {:induction false} BulkBodyLines(vals: map<string, ClassDocument>, ids: seq<string>, j: int)
    requires forall k :: k in ids ==> k in vals
    requires 0 <= j < |ids|
    ensures |BulkBody(vals, ids)| == 2 * |ids|
    ensures BulkBody(vals, ids)[2 * j] == IndexAction(ids[j])
    ensures BulkBody(vals, ids)[2 * j + 1] == Document(WithCode(vals[ids[j]]))
    ensures BulkBody(vals, ids)[2 * j + 1].doc.cls.code == Some(vals[ids[j]].cls.subject + vals[ids[j]].cls.classId)
    ensures BulkBody(vals, ids)[2 * j + 1].doc.sections == vals[ids[j]].sections
  {
    var n := |ids| - 1;
    BulkBodyLength(vals, ids[..n]);
    if j < n {
      assert ids[..n][j] == ids[j];
      BulkBodyLines(vals, ids[..n], j);
    }
  }

  lemma {:induction false} BulkBodyLength(vals: map<string, ClassDocument>, ids: seq<string>)
    requires forall k :: k in ids ==> k in vals
    ensures |BulkBody(vals, ids)| == 2 * |ids|
  {
    if ids != [] {
      BulkBodyLength(vals, ids[..|ids| - 1]);
    }
  }

  /** Every document of a term group has an action line in its bulk body,
      and every action line names a document of the group. */
  lemma GroupBulkIndexesEveryDocument(docs: Dict<ClassDocument>, k: string)
    requires docs.Valid()
    ensures forall k :: k in docs.keys ==> k in docs.vals
    ensures IndexAction(k) in BulkBody(docs.vals, docs.keys) <==> k in docs.vals
  {
    ValidKeys(docs);
    var body := BulkBody(docs.vals, docs.keys);
    if k in docs.vals {
      var j :| 0 <= j < |docs.keys| && docs.keys[j] == k;
      BulkBodyLines(docs.vals, docs.keys, j);
    }
    if IndexAction(k) in body {
      var p :| 0 <= p < |body| && body[p] == IndexAction(k);
      BulkBodyLength(docs.vals, docs.keys);
      BulkBodyLines(docs.vals, docs.keys, p / 2);
    }
  }

  /** No two action lines of a term group's bulk body name the same
      document. */
  lemma GroupBulkActionsDistinct(docs: Dict<ClassDocument>, p: int, q: int)
    requires docs.Valid()
    requires 0 <= p < q < 2 * |docs.keys|
    ensures forall k :: k in docs.keys ==> k in docs.vals
    ensures |BulkBody(docs.vals, docs.keys)| == 2 * |docs.keys|
    ensures BulkBody(docs.vals, docs.keys)[p].IndexAction? && BulkBody(docs.vals, docs.keys)[q].IndexAction?
            ==> BulkBody(docs.vals, docs.keys)[p] != BulkBody(docs.vals, docs.keys)[q]
  {
    ValidKeys(docs);
    BulkBodyLength(docs.vals, docs.keys);
    BulkBodyLines(docs.vals, docs.keys, p / 2);
    BulkBodyLines(docs.vals, docs.keys, q / 2);
  }

  /** `createSearchIndexFromClassLists`: the bulk body it sends for one term
      group. Setting `code` on each class is modelled on the copy sent. */
  method CreateSearchIndexFromClassLists(termData: TermGroup) returns (bulk: seq<BulkItem>)
    requires termData.classHash.Valid()
    ensures forall k :: k in termData.classHash.keys ==> k in termData.classHash.vals
    ensures bulk == BulkBody(termData.classHash.vals, termData.classHash.keys)
  {
    ValidKeys(termData.classHash);
    bulk := [];
    var ids := termData.classHash.keys;
    for j := 0 to |ids|
      invariant bulk == BulkBody(termData.classHash.vals, ids[..j])
    {
      var searchResultData := termData.classHash.vals[ids[j]];
      var clas := searchResultData.cls.(code := Some(searchResultData.cls.subject + searchResultData.cls.classId));
      bulk := bulk + [IndexAction(ids[j]), Document(searchResultData.(cls := clas))];
      assert ids[..j + 1][..j] == ids[..j];
    }
    assert ids[..|ids|] == ids;
  }

  /** A request to the search store. The mapping sent with the create is not
      modelled. */
  datatype StoreOp = DeleteIndex(index: string) | CreateIndex(index: string) | BulkWrite(index: string, body: seq<BulkItem>)

  /** The store's answers: whether creating the index succeeds, and whether
      the `i`-th bulk write (in term-group order) succeeds. The answer to the
      delete is discarded (`.catch(() => {})`), so it has no parameter. */
  datatype StoreAnswers = StoreAnswers(createOk: bool, bulkOk: nat -> bool)

  /** How a rebuild ends: resolved, rejected by the failed create (rethrown
      before any bulk write), rejected by a failed bulk write (`Promise.all`),
      or skipped because `main` got no dump. `NoDump` stands for the error
      line `main` logs in that case (searchIndex.js:128); the `logged` lists
      of this module hold only the join errors. */
  datatype Outcome = Rebuilt | CreateFailed | BulkFailed | NoDump

  /** One bulk write per term group, in the order `ths` lists them. */
  function Writes(groups: map<string, TermGroup>, ths: seq<string>): seq<StoreOp>
    requires forall th :: th in ths ==> th in groups && groups[th].classHash.Valid()
  {
    if ths == [] then []
    else
      var g := groups[ths[|ths| - 1]];
      ValidKeys(g.classHash);
      Writes(groups, ths[..|ths| - 1]) + [BulkWrite(ClassesIndex, BulkBody(g.classHash.vals, g.classHash.keys))]
  }

  lemma {:induction false} WritesLines(groups: map<string, TermGroup>, ths: seq<string>, i: int)
    requires forall th :: th in ths ==> th in groups && groups[th].classHash.Valid()
    requires 0 <= i < |ths|
    ensures |Writes(groups, ths)| == |ths|
    ensures Writes(groups, ths)[i]
            == BulkWrite(ClassesIndex, BulkBody(groups[ths[i]].classHash.vals, groups[ths[i]].classHash.keys))
  {
    var n := |ths| - 1;
    WritesLength(groups, ths[..n]);
    if i < n {
      assert ths[..n][i] == ths[i];
      WritesLines(groups, ths[..n], i);
    }
  }

  lemma {:induction false} WritesLength(groups: map<string, TermGroup>, ths: seq<string>)
    requires forall th :: th in ths ==> th in groups && groups[th].classHash.Valid()
    ensures |Writes(groups, ths)| == |ths|
  {
    if ths != [] {
      WritesLength(groups, ths[..|ths| - 1]);
    }
  }

  /** Some bulk write among the first `n` fails. */
  predicate SomeBulkFails(answers: StoreAnswers, n: nat)
  {
    exists i: nat :: i < n && !answers.bulkOk(i)
  }

  /** The loop that starts one bulk write per term group; `failed` tells
      whether `Promise.all` rejects. */
  method WriteGroups(classLists: ClassLists, answers: StoreAnswers) returns (writes: seq<StoreOp>, failed: bool)
    requires WellFormed(classLists)
    ensures writes == Writes(classLists.vals, classLists.keys)
    ensures failed <==> SomeBulkFails(answers, |classLists.keys|)
  {
    writes, failed := [], false;
    var termHashes := classLists.keys;
    ValidKeys(classLists);
    for i := 0 to |termHashes|
      invariant writes == Writes(classLists.vals, termHashes[..i])
      invariant failed <==> SomeBulkFails(answers, i)
    {
      var bulk := CreateSearchIndexFromClassLists(classLists.vals[termHashes[i]]);
      writes := writes + [BulkWrite(ClassesIndex, bulk)];
      assert termHashes[..i + 1][..i] == termHashes[..i];
      if !answers.bulkOk(i) {
        failed := true;
      }
      assert SomeBulkFails(answers, i + 1) <==> SomeBulkFails(answers, i) || !answers.bulkOk(i);
    }
    assert termHashes[..|termHashes|] == termHashes;
  }

  /** `createSearchIndex`: the three passes, then the requests to the store.
      The index is always deleted first; a failed create stops before any
      bulk write; otherwise every term group is written, in key order, and
      the rebuild fails when any write does. */
  method CreateSearchIndex(kd: KeyDeriver, termDump: TermDump, answers: StoreAnswers)
    returns (ops: seq<StoreOp>, outcome: Outcome, logged: seq<JoinError>)
    ensures logged == Orphans(kd, Grouped(kd, termDump.classes), termDump.sections)
    ensures ops == [DeleteIndex(ClassesIndex), CreateIndex(ClassesIndex)]
                   + (if answers.createOk then Writes(Built(kd, termDump).vals, Built(kd, termDump).keys) else [])
    ensures outcome == CreateFailed <==> !answers.createOk
    ensures outcome == BulkFailed <==> answers.createOk && SomeBulkFails(answers, |Built(kd, termDump).keys|)
    ensures outcome != NoDump
  {
    var grouped := GroupClassesByTerm(kd, termDump.classes);
    var classLists;
    classLists, logged := JoinSections(kd, grouped, termDump.sections);
    GroupedWellFormed(kd, termDump.classes);
    JoinKeepsShape(kd, grouped, termDump.sections);
    classLists := SortSections(classLists);
    assert classLists == Built(kd, termDump);

    ops := [DeleteIndex(ClassesIndex), CreateIndex(ClassesIndex)];
    if !answers.createOk {
      outcome := CreateFailed;
      return;
    }
    var writes, failed := WriteGroups(classLists, answers);
    ops := ops + writes;
    outcome := if failed then BulkFailed else Rebuilt;
  }

  /** `main`: without a dump it logs an error and sends nothing. With one it
      awaits `createSearchIndex`, so its promise rejects exactly when the
      create or some bulk write fails. */
  method Run(kd: KeyDeriver, termDump: Option<TermDump>, answers: StoreAnswers)
    returns (ops: seq<StoreOp>, outcome: Outcome, logged: seq<JoinError>)
    ensures termDump.None? ==> ops == [] && outcome == NoDump && logged == []
    ensures termDump.Some? ==> outcome != NoDump && |ops| >= 2
    ensures termDump.Some? ==> ops[0] == DeleteIndex(ClassesIndex) && ops[1] == CreateIndex(ClassesIndex)
    ensures termDump.Some? ==>
              ops == [DeleteIndex(ClassesIndex), CreateIndex(ClassesIndex)]
                     + (if answers.createOk then Writes(Built(kd, termDump.value).vals, Built(kd, termDump.value).keys)
                        else [])
    ensures termDump.Some? ==> (outcome == CreateFailed <==> !answers.createOk)
    ensures termDump.Some? ==>
              (outcome == BulkFailed <==> answers.createOk && SomeBulkFails(answers, |Built(kd, termDump.value).keys|))
    ensures termDump.Some? ==> (outcome == Rebuilt <==>
              answers.createOk && !SomeBulkFails(answers, |Built(kd, termDump.value).keys|))
    ensures termDump.Some? ==>
              logged == Orphans(kd, Grouped(kd, termDump.value.classes), termDump.value.sections)
    ensures termDump.Some? ==>
              (|ops| > 2 <==> answers.createOk && |Built(kd, termDump.value).keys| > 0)
  {
    if termDump.None? {
      return [], NoDump, [];
    }
    ops, outcome, logged := CreateSearchIndex(kd, termDump.value, answers);
    if answers.createOk {
      WritesLength(Built(kd, termDump.value).vals, Built(kd, termDump.value).keys);
    }
  }
}
