/** The watch lists of the signed-in user in the frontend
    (frontend/components/user.js): the section hashes and class hashes the
    user watches, and the callbacks to run when they change. Requests to the
    server, `localStorage` and logging beyond a list of error records are not
    part of this model. */
module UserState {
  import opened Keys
  import opened Collections

  /** The JavaScript values `Array.prototype.includes` compares (SameValueZero):
      a string equals a string with the same characters; an object equals only
      itself, and never a string. */
  datatype JsValue = Str(s: string) | Ref(id: nat)

  /** A class object handed to `addClass` / `removeClass`: its identity and
      the attributes `Keys.getClassHash` reads. */
  datatype ClassObject = ClassObject(ref: nat, info: ClassInfo)

  /** A registered callback, by function identity. */
  datatype Callback = Callback(id: nat)

  /** The `macros.error` calls, one variant per message. */
  datatype UserError =
    | NoUserForRemoval                             // 'no user for removal?'
    | NoUserForAddition                            // 'no user for addition?'
    | RemovedUnwatchedSection(section: SectionInfo)
    | AlreadyWatchingSection(section: SectionInfo)
    | AlreadyWatchingClass(theClass: ClassObject)
    | NotWatchingClass(theClass: ClassObject)

  /** Some string of `hashes` contains `needle` as a substring: the `acc` fold
      at user.js:186-189. */
  predicate AnyIncludes(hashes: seq<string>, needle: string)
  {
    exists i :: 0 <= i < |hashes| && Includes(hashes[i], needle)
  }

  /** An object identity held by none of `values`: a freshly built object
      literal compares equal to none of them. */
  function FreshRef(values: seq<JsValue>): (r: nat)
    ensures forall i :: 0 <= i < |values| && values[i].Ref? ==> values[i].id < r
    ensures Ref(r) !in values
  {
    if values == [] then 0
    else
      var rest := FreshRef(values[1..]);
      assert forall i :: 1 <= i < |values| ==> values[i] == values[1..][i - 1];
      if values[0].Ref? && values[0].id >= rest then values[0].id + 1 else rest
  }

  class User {
    const keys: KeyDeriver

    /** `this.user` is set. */
    var hasUser: bool
    /** `this.user.watchingSections` */
    var watchingSections: seq<string>
    /** `this.user.watchingClasses` */
    var watchingClasses: seq<JsValue>
    /** `this.callBack` */
    var callBack: seq<Callback>
    /** The error lines logged so far. */
    var errors: seq<UserError>

    /** Every watched class is a hash string, as every push of this class
        makes it. */
    predicate ClassesAreHashes()
      reads this
    {
      forall v :: v in watchingClasses ==> v.Str?
    }

    /** A new user object: no user data yet and no callbacks. */
    constructor(keys: KeyDeriver)
      ensures this.keys == keys
      ensures !hasUser && watchingSections == [] && watchingClasses == []
      ensures callBack == [] && errors == []
      ensures ClassesAreHashes()
    {
      this.keys := keys;
      hasUser := false;
      watchingSections := [];
      watchingClasses := [];
      callBack := [];
      errors := [];
    }

    /** `this.user = response.user` once the server has answered. */
    method LoadUser(sections: seq<string>, classes: seq<JsValue>)
      modifies this
      ensures hasUser && watchingSections == sections && watchingClasses == classes
      ensures callBack == old(callBack) && errors == old(errors)
    {
      hasUser := true;
      watchingSections := sections;
      watchingClasses := classes;
    }

    /** `hasSectionAlready` */
    method HasSectionAlready(sectionHash: string) returns (r: bool)
      ensures r <==> hasUser && sectionHash in watchingSections
    {
      if hasUser {
        return sectionHash in watchingSections;
      }
      return false;
    }

    /** `hasClassAlready` */
    method HasClassAlready(classHash: string) returns (r: bool)
      ensures r <==> hasUser && Str(classHash) in watchingClasses
    {
      if hasUser {
        return Str(classHash) in watchingClasses;
      }
      return false;
    }

    /** `removeSection`: drop every copy of the section's hash, then drop its
        class's hash unless some remaining section hash contains it. */
    method RemoveSection(section: SectionInfo)
      modifies this
      ensures hasUser == old(hasUser) && callBack == old(callBack)
      ensures !old(hasUser) ==>
                && watchingSections == old(watchingSections) && watchingClasses == old(watchingClasses)
                && errors == old(errors) + [NoUserForRemoval]
      ensures old(hasUser) && keys.sectionHash(section) !in old(watchingSections) ==>
                && watchingSections == old(watchingSections) && watchingClasses == old(watchingClasses)
                && errors == old(errors) + [RemovedUnwatchedSection(section)]
      ensures old(hasUser) && keys.sectionHash(section) in old(watchingSections) ==>
                && watchingSections == Without(old(watchingSections), keys.sectionHash(section))
                && watchingClasses
                   == (if AnyIncludes(watchingSections, keys.classHash(section.ClassOf())) then old(watchingClasses)
                       else Without(old(watchingClasses), Str(keys.classHash(section.ClassOf()))))
                && errors == old(errors)
      ensures old(ClassesAreHashes()) ==> ClassesAreHashes()
    {
      if !hasUser {
        errors := errors + [NoUserForRemoval];
        return;
      }
      var sectionHash := keys.sectionHash(section);
      if sectionHash in watchingSections {
        watchingSections := Without(watchingSections, sectionHash);
        var classHash := keys.classHash(section.ClassOf());
        var remaining := watchingSections;
        var acc := false;
        for i := 0 to |remaining|
          invariant acc <==> exists j :: 0 <= j < i && Includes(remaining[j], classHash)
        {
          acc := acc || Includes(remaining[i], classHash);
        }
        if !acc {
          watchingClasses := Without(watchingClasses, Str(classHash));
        }
      } else {
        errors := errors + [RemovedUnwatchedSection(section)];
      }
    }

    /** `addClass`. The duplicate check compares the class object itself with
        the watched values, so it fires only when that very object is in the
        list; otherwise the class's hash is appended. */
    method AddClass(theClass: ClassObject)
      modifies this
      ensures hasUser == old(hasUser) && watchingSections == old(watchingSections) && callBack == old(callBack)
      ensures !old(hasUser) ==> watchingClasses == old(watchingClasses) && errors == old(errors) + [NoUserForAddition]
      ensures old(hasUser) && Ref(theClass.ref) in old(watchingClasses) ==>
                watchingClasses == old(watchingClasses) && errors == old(errors) + [AlreadyWatchingClass(theClass)]
      ensures old(hasUser) && Ref(theClass.ref) !in old(watchingClasses) ==>
                watchingClasses == old(watchingClasses) + [Str(keys.classHash(theClass.info))] && errors == old(errors)
      ensures old(ClassesAreHashes()) ==> ClassesAreHashes()
      ensures old(hasUser && ClassesAreHashes()) ==>
                watchingClasses == old(watchingClasses) + [Str(keys.classHash(theClass.info))]
    {
      if !hasUser {
        errors := errors + [NoUserForAddition];
        return;
      }
      if Ref(theClass.ref) in watchingClasses {
        errors := errors + [AlreadyWatchingClass(theClass)];
        return;
      }
      watchingClasses := watchingClasses + [Str(keys.classHash(theClass.info))];
    }

    /** `removeClass`. The membership check compares the class object itself,
        so while the list holds only hashes it never passes and nothing is
        removed. */
    method RemoveClass(theClass: ClassObject)
      modifies this
      ensures hasUser == old(hasUser) && watchingSections == old(watchingSections) && callBack == old(callBack)
      ensures !old(hasUser) ==> watchingClasses == old(watchingClasses) && errors == old(errors) + [NoUserForAddition]
      ensures old(hasUser) && Ref(theClass.ref) !in old(watchingClasses) ==>
                watchingClasses == old(watchingClasses) && errors == old(errors) + [NotWatchingClass(theClass)]
      ensures old(hasUser) && Ref(theClass.ref) in old(watchingClasses) ==>
                watchingClasses == Without(old(watchingClasses), Str(keys.classHash(theClass.info)))
                && errors == old(errors)
      ensures old(ClassesAreHashes()) ==> ClassesAreHashes()
      ensures old(ClassesAreHashes()) ==> watchingClasses == old(watchingClasses)
    {
      if !hasUser {
        errors := errors + [NoUserForAddition];
        return;
      }
      if Ref(theClass.ref) !in watchingClasses {
        errors := errors + [NotWatchingClass(theClass)];
        return;
      }
      watchingClasses := Without(watchingClasses, Str(keys.classHash(theClass.info)));
    }

    /** `enrollSection`: append the section's hash (a duplicate is only
        logged), and add its class, through `addClass` with a fresh object,
        when the class's hash is not watched yet. */
    method EnrollSection(section: SectionInfo)
      modifies this
      ensures hasUser == old(hasUser) && callBack == old(callBack)
      ensures !old(hasUser) ==>
                && watchingSections == old(watchingSections) && watchingClasses == old(watchingClasses)
                && errors == old(errors) + [NoUserForAddition]
      ensures old(hasUser) ==> watchingSections == old(watchingSections) + [keys.sectionHash(section)]
      ensures old(hasUser) ==>
                watchingClasses
                == if Str(keys.classHash(section.ClassOf())) in old(watchingClasses) then old(watchingClasses)
                   else old(watchingClasses) + [Str(keys.classHash(section.ClassOf()))]
      ensures old(hasUser) ==>
                errors == old(errors)
                          + (if keys.sectionHash(section) in old(watchingSections)
                             then [AlreadyWatchingSection(section)] else [])
      ensures old(ClassesAreHashes()) ==> ClassesAreHashes()
    {
      if !hasUser {
        errors := errors + [NoUserForAddition];
        return;
      }
      var sectionHash := keys.sectionHash(section);
      if sectionHash in watchingSections {
        errors := errors + [AlreadyWatchingSection(section)];
      }
      watchingSections := watchingSections + [sectionHash];
      var classHash := keys.classHash(section.ClassOf());
      if Str(classHash) !in watchingClasses {
        AddClass(ClassObject(FreshRef(watchingClasses), section.ClassOf()));
      }
    }

    /** `registerCallback` */
    method RegisterCallback(theCallback: Callback)
      modifies this
      ensures callBack == old(callBack) + [theCallback]
      ensures hasUser == old(hasUser) && watchingSections == old(watchingSections)
      ensures watchingClasses == old(watchingClasses) && errors == old(errors)
    {
      callBack := callBack + [theCallback];
    }

    /** `unregisterCallback`: every registration of the callback goes. */
    method UnregisterCallback(theCallback: Callback)
      modifies this
      ensures callBack == Without(old(callBack), theCallback)
      ensures hasUser == old(hasUser) && watchingSections == old(watchingSections)
      ensures watchingClasses == old(watchingClasses) && errors == old(errors)
    {
      callBack := Without(callBack, theCallback);
    }
  }

  /** After `removeSection` of a watched section, its class stays watched
      exactly when it was watched and some remaining section hash contains the
      class hash; every other watched value stays as it was. */
  lemma RemoveSectionKeepsClassIff(before: seq<JsValue>, remaining: seq<string>, classHash: string)
    ensures var after := if AnyIncludes(remaining, classHash) then before else Without(before, Str(classHash));
            && (Str(classHash) in after <==> Str(classHash) in before && AnyIncludes(remaining, classHash))
            && forall v :: v != Str(classHash) ==> (v in after <==> v in before)
  {
    WithoutMembers(before, Str(classHash));
  }

  /** Registering a callback and then unregistering it leaves no copy of it,
      and every other callback where it was. */
  lemma RegisterThenUnregister(callbacks: seq<Callback>, c: Callback)
    ensures Without(callbacks + [c], c) == Without(callbacks, c)
    ensures c !in Without(callbacks + [c], c)
  {
    WithoutAfterAppend(callbacks, c);
  }
}
