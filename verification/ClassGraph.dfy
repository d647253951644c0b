/** Classes, their subclass graph, and the types an annotation stands for
    (anywise/_visitor.py).

    A hierarchy lists class statements in the order they were executed, so a
    base always comes before the classes derived from it. */
module ClassGraph {
  import opened Basics

  type ClassId = nat

  /** `typing.Any`, the guard target that means "every command". */
  const ANY: ClassId := 0

  datatype ClassDef = ClassDef(bases: seq<ClassId>)

  predicate WellFounded(defs: seq<ClassDef>) {
    forall k, i :: 0 <= k < |defs| && 0 <= i < |defs[k].bases| ==> defs[k].bases[i] < k
  }

  type Hierarchy = defs: seq<ClassDef> | WellFounded(defs) witness []

  /** `c.__subclasses__()` */
  function DirectSubclasses(h: Hierarchy, c: ClassId): set<ClassId> {
    set d: ClassId | d < |h| && c in h[d].bases
  }

  /** The downward recursion of `all_subclasses`. */
  function AllSubclasses(h: Hierarchy, c: ClassId): set<ClassId>
    decreases |h| - c
  {
    var direct := DirectSubclasses(h, c);
    direct + (set d, e | d in direct && e in AllSubclasses(h, d) :: e)
  }

  /** `issubclass(d, c)`: looked up from the class towards its bases. */
  predicate IsSubclass(h: Hierarchy, d: ClassId, c: ClassId)
    decreases d
  {
    d == c || (d < |h| && exists i :: 0 <= i < |h[d].bases| && IsSubclass(h, h[d].bases[i], c))
  }

  lemma {:induction false} SubclassTransitive(h: Hierarchy, e: ClassId, d: ClassId, c: ClassId)
    requires IsSubclass(h, e, d) && IsSubclass(h, d, c)
    ensures IsSubclass(h, e, c)
    decreases e
  {
    if e != d {
      var i :| 0 <= i < |h[e].bases| && IsSubclass(h, h[e].bases[i], d);
      SubclassTransitive(h, h[e].bases[i], d, c);
    }
  }

  lemma {:induction false} SubclassIsYounger(h: Hierarchy, d: ClassId, c: ClassId)
    requires IsSubclass(h, d, c)
    ensures c <= d && (d != c ==> d < |h|)
    decreases d
  {
    if d != c {
      var i :| 0 <= i < |h[d].bases| && IsSubclass(h, h[d].bases[i], c);
      SubclassIsYounger(h, h[d].bases[i], c);
    }
  }

  /** Classes each of which is a base of the one before it. */
  ghost predicate BasePath(h: Hierarchy, p: seq<ClassId>) {
    p != [] && forall k :: 0 <= k < |p| - 1 ==> p[k] < |h| && p[k + 1] in h[p[k]].bases
  }

  lemma {:induction false} PathUp(h: Hierarchy, d: ClassId, c: ClassId) returns (p: seq<ClassId>)
    requires IsSubclass(h, d, c)
    ensures BasePath(h, p) && p[0] == d && p[|p| - 1] == c
    decreases d
  {
    if d == c {
      p := [d];
    } else {
      var i :| 0 <= i < |h[d].bases| && IsSubclass(h, h[d].bases[i], c);
      p := PathUp(h, h[d].bases[i], c);
      p := [d] + p;
    }
  }

  lemma {:induction false} PathDerives(h: Hierarchy, p: seq<ClassId>)
    requires BasePath(h, p)
    ensures IsSubclass(h, p[0], p[|p| - 1])
    decreases |p|
  {
    if |p| > 1 {
      PathDerives(h, p[1..]);
      var i :| 0 <= i < |h[p[0]].bases| && h[p[0]].bases[i] == p[1];
      assert IsSubclass(h, h[p[0]].bases[i], p[|p| - 1]);
    }
  }

  /** A class is a subclass of another exactly when bases lead from the one to the other. */
  lemma {:induction false} SubclassIffPath(h: Hierarchy, d: ClassId, c: ClassId)
    ensures IsSubclass(h, d, c) <==> exists p :: BasePath(h, p) && p[0] == d && p[|p| - 1] == c
  {
    if IsSubclass(h, d, c) {
      var p := PathUp(h, d, c);
    }
    if p :| BasePath(h, p) && p[0] == d && p[|p| - 1] == c {
      PathDerives(h, p);
    }
  }

  lemma {:induction false} DescendantsDerive(h: Hierarchy, c: ClassId)
    ensures forall e :: e in AllSubclasses(h, c) ==> e != c && IsSubclass(h, e, c)
    decreases |h| - c
  {
    forall e | e in AllSubclasses(h, c)
      ensures e != c && IsSubclass(h, e, c)
    {
      var direct := DirectSubclasses(h, c);
      if e in direct {
        var i :| 0 <= i < |h[e].bases| && h[e].bases[i] == c;
        assert IsSubclass(h, h[e].bases[i], c);
      } else {
        var d :| d in direct && e in AllSubclasses(h, d);
        DescendantsDerive(h, d);
        var i :| 0 <= i < |h[d].bases| && h[d].bases[i] == c;
        assert IsSubclass(h, h[d].bases[i], c);
        SubclassTransitive(h, e, d, c);
        SubclassIsYounger(h, e, d);
      }
    }
  }

  lemma {:induction false} DescendantsClosed(h: Hierarchy, c: ClassId, b: ClassId, e: ClassId)
    requires b in AllSubclasses(h, c) && e in DirectSubclasses(h, b)
    ensures e in AllSubclasses(h, c)
    decreases |h| - c
  {
    var direct := DirectSubclasses(h, c);
    if b in direct {
      assert e in AllSubclasses(h, b);
    } else {
      var d :| d in direct && b in AllSubclasses(h, d);
      DescendantsClosed(h, d, b, e);
    }
  }

  lemma {:induction false} DerivedIsDescendant(h: Hierarchy, c: ClassId, e: ClassId)
    requires e != c && IsSubclass(h, e, c)
    ensures e in AllSubclasses(h, c)
    decreases e
  {
    var i :| 0 <= i < |h[e].bases| && IsSubclass(h, h[e].bases[i], c);
    var b := h[e].bases[i];
    assert e in DirectSubclasses(h, b);
    if b != c {
      DerivedIsDescendant(h, c, b);
      DescendantsClosed(h, c, b, e);
    }
  }

  /** The downward recursion finds exactly the strict subclasses, diamonds included. */
  lemma {:induction false} AllSubclassesExact(h: Hierarchy, c: ClassId)
    ensures forall e :: e in AllSubclasses(h, c) <==> e != c && IsSubclass(h, e, c)
  {
    DescendantsDerive(h, c);
    forall e | e != c && IsSubclass(h, e, c)
      ensures e in AllSubclasses(h, c)
    {
      DerivedIsDescendant(h, c, e);
    }
  }

  /** A class statement executed later does not change how older classes are related. */
  lemma {:induction false} SubclassStable(h: Hierarchy, def: ClassDef, d: ClassId, c: ClassId)
    requires d < |h| && WellFounded(h + [def])
    ensures IsSubclass(h + [def], d, c) <==> IsSubclass(h, d, c)
    decreases d
  {
    forall i | 0 <= i < |h[d].bases|
      ensures IsSubclass(h + [def], h[d].bases[i], c) <==> IsSubclass(h, h[d].bases[i], c)
    {
      SubclassStable(h, def, h[d].bases[i], c);
    }
    assert (h + [def])[d] == h[d];
  }

  /** A parameter annotation as `typing.get_origin` and `get_args` see it. */
  datatype Annotation =
    | Missing
    | Plain(cls: ClassId)
    | Annotated(inner: Annotation)
    | Union(args: seq<Annotation>)
    | Generic(origin: string)

  /** The classes written in an annotation. */
  function Leaves(a: Annotation): set<ClassId> {
    match a
    case Missing => {}
    case Generic(_) => {}
    case Plain(c) => {c}
    case Annotated(inner) => Leaves(inner)
    case Union(args) => set i, c | 0 <= i < |args| && c in Leaves(args[i]) :: c
  }

  /** The first unsupported generic in reading order, such as `list` in `A | list[int]`. */
  function FirstGeneric(a: Annotation): Option<string>
    decreases a, 1
  {
    match a
    case Missing => None
    case Plain(_) => None
    case Generic(origin) => Some(origin)
    case Annotated(inner) => FirstGeneric(inner)
    case Union(args) => FirstGenericOf(args)
  }

  function FirstGenericOf(args: seq<Annotation>): Option<string>
    decreases args, 0
  {
    if args == [] then None
    else if FirstGeneric(args[0]).Some? then FirstGeneric(args[0])
    else FirstGenericOf(args[1..])
  }

  lemma {:induction false} FirstGenericAt(args: seq<Annotation>, i: nat)
    requires i < |args| && FirstGeneric(args[i]).Some?
    requires forall k :: 0 <= k < i ==> FirstGeneric(args[k]) == None
    ensures FirstGenericOf(args) == FirstGeneric(args[i])
  {
    if i > 0 {
      FirstGenericAt(args[1..], i - 1);
    }
  }

  lemma {:induction false} NoGeneric(args: seq<Annotation>)
    requires forall k :: 0 <= k < |args| ==> FirstGeneric(args[k]) == None
    ensures FirstGenericOf(args) == None
  {
    if args != [] {
      NoGeneric(args[1..]);
    }
  }

  ghost predicate DerivesFromOneOf(h: Hierarchy, d: ClassId, leaves: set<ClassId>) {
    exists c :: c in leaves && IsSubclass(h, d, c)
  }

  /** Everything that is, or derives from, one of the given classes. */
  ghost function Closure(h: Hierarchy, leaves: set<ClassId>): set<ClassId> {
    leaves + (set d: ClassId | d < |h| && DerivesFromOneOf(h, d, leaves))
  }

  lemma {:induction false} InClosure(h: Hierarchy, leaves: set<ClassId>, d: ClassId)
    ensures d in Closure(h, leaves) <==> DerivesFromOneOf(h, d, leaves)
  {
    if c :| c in leaves && IsSubclass(h, d, c) {
      SubclassIsYounger(h, d, c);
    }
    if d in leaves {
      assert IsSubclass(h, d, d);
    }
  }

  /** What `gather_types` means: the downward closure of the leaves, unless a
      generic alias occurs anywhere, which is refused. */
  ghost function Gathered(h: Hierarchy, a: Annotation): Result<set<ClassId>, string> {
    match FirstGeneric(a)
    case Some(origin) => Err(origin)
    case None => Ok(Closure(h, Leaves(a)))
  }

  /** An annotated type gathers what the type itself does. */
  lemma {:induction false} AnnotatedIsInner(h: Hierarchy, a: Annotation)
    ensures Gathered(h, Annotated(a)) == Gathered(h, a)
  {
    assert Leaves(Annotated(a)) == Leaves(a) && FirstGeneric(Annotated(a)) == FirstGeneric(a);
  }

  /** A plain class gathers itself and everything derived from it; nothing is
      gathered without an annotation, and a generic is refused. */
  lemma {:induction false} GatheredOne(h: Hierarchy, c: ClassId, origin: string)
    ensures Gathered(h, Plain(c)).Ok? &&
      forall d :: d in Gathered(h, Plain(c)).value <==> d == c || IsSubclass(h, d, c)
    ensures Gathered(h, Missing) == Ok({}) && Gathered(h, Generic(origin)) == Err(origin)
  {
    forall d ensures d in Closure(h, {c}) <==> d == c || IsSubclass(h, d, c) {
      InClosure(h, {c}, d);
    }
    assert Closure(h, {}) == {};
  }

  lemma {:induction false} FirstRefusal(args: seq<Annotation>)
    ensures FirstGenericOf(args).Some? <==> exists i :: 0 <= i < |args| && FirstGeneric(args[i]).Some?
    ensures forall i :: 0 <= i < |args| && FirstGeneric(args[i]).Some? ==>
      (forall k :: 0 <= k < i ==> FirstGeneric(args[k]) == None) ==> FirstGenericOf(args) == FirstGeneric(args[i])
  {
    if args != [] {
      FirstRefusal(args[1..]);
      if i :| 0 <= i < |args| && FirstGeneric(args[i]).Some? && 0 < i {
        assert args[1..][i - 1] == args[i];
      }
      forall i | 0 <= i < |args| && FirstGeneric(args[i]).Some? &&
        (forall k :: 0 <= k < i ==> FirstGeneric(args[k]) == None)
        ensures FirstGenericOf(args) == FirstGeneric(args[i])
      {
        FirstGenericAt(args, i);
      }
    }
  }

  /** A union gathers what its members gather together, and is refused for the
      first of them, in reading order, that is. */
  lemma {:induction false} UnionGathers(h: Hierarchy, args: seq<Annotation>)
    ensures Gathered(h, Union(args)).Ok? <==> forall i :: 0 <= i < |args| ==> Gathered(h, args[i]).Ok?
    ensures Gathered(h, Union(args)).Ok? ==> forall d ::
      d in Gathered(h, Union(args)).value <==> exists i :: 0 <= i < |args| && d in Gathered(h, args[i]).value
    ensures forall i :: 0 <= i < |args| && Gathered(h, args[i]).Err? ==>
      (forall k :: 0 <= k < i ==> Gathered(h, args[k]).Ok?) ==> Gathered(h, Union(args)) == Gathered(h, args[i])
  {
    FirstRefusal(args);
    var all := Leaves(Union(args));
    forall d ensures d in Closure(h, all) <==> exists i :: 0 <= i < |args| && d in Closure(h, Leaves(args[i])) {
      InClosure(h, all, d);
      forall i | 0 <= i < |args| ensures d in Closure(h, Leaves(args[i])) <==> DerivesFromOneOf(h, d, Leaves(args[i])) {
        InClosure(h, Leaves(args[i]), d);
      }
      if c :| c in all && IsSubclass(h, d, c) {
        var i :| 0 <= i < |args| && c in Leaves(args[i]);
        assert DerivesFromOneOf(h, d, Leaves(args[i]));
      }
      if i :| 0 <= i < |args| && d in Closure(h, Leaves(args[i])) {
        var c :| c in Leaves(args[i]) && IsSubclass(h, d, c);
        assert c in all;
      }
    }
  }

  method GatherTypes(h: Hierarchy, a: Annotation) returns (r: Result<set<ClassId>, string>)
    ensures r == Gathered(h, a)
    decreases a
  {
    match a {
      case Missing =>
        assert Closure(h, {}) == {};
        r := Ok({});
      case Plain(c) =>
        AllSubclassesExact(h, c);
        forall d ensures d in {c} + AllSubclasses(h, c) <==> d in Closure(h, {c}) {
          InClosure(h, {c}, d);
        }
        assert {c} + AllSubclasses(h, c) == Closure(h, Leaves(a));
        r := Ok({c} + AllSubclasses(h, c));
      case Annotated(inner) =>
        r := GatherTypes(h, inner);
      case Generic(origin) =>
        r := Err(origin);
      case Union(args) =>
        var types := {};
        for n := 0 to |args|
          invariant forall k :: 0 <= k < n ==> FirstGeneric(args[k]) == None
          invariant forall d :: d in types <==> exists k :: 0 <= k < n && d in Closure(h, Leaves(args[k]))
        {
          r := GatherTypes(h, args[n]);
          if r.Err? {
            FirstGenericAt(args, n);
            return;
          }
          types := types + r.value;
        }
        NoGeneric(args);
        UnionClosure(h, args, types);
        r := Ok(types);
    }
  }

  lemma {:induction false} UnionClosure(h: Hierarchy, args: seq<Annotation>, types: set<ClassId>)
    requires forall d :: d in types <==> exists k :: 0 <= k < |args| && d in Closure(h, Leaves(args[k]))
    ensures types == Closure(h, Leaves(Union(args)))
  {
    var all := Leaves(Union(args));
    forall d ensures d in types <==> d in Closure(h, all) {
      InClosure(h, all, d);
      if d in types {
        var k :| 0 <= k < |args| && d in Closure(h, Leaves(args[k]));
        InClosure(h, Leaves(args[k]), d);
        var c :| c in Leaves(args[k]) && IsSubclass(h, d, c);
        assert c in all;
      }
      if d in Closure(h, all) {
        var c :| c in all && IsSubclass(h, d, c);
        var k :| 0 <= k < |args| && c in Leaves(args[k]);
        InClosure(h, Leaves(args[k]), d);
      }
    }
  }

  /** A gathered set contains every subclass of each of its members. */
  lemma {:induction false} ClosureIsDownwardClosed(h: Hierarchy, leaves: set<ClassId>, c: ClassId, d: ClassId)
    requires c in Closure(h, leaves) && IsSubclass(h, d, c)
    ensures d in Closure(h, leaves)
  {
    InClosure(h, leaves, c);
    var leaf :| leaf in leaves && IsSubclass(h, c, leaf);
    SubclassTransitive(h, d, c, leaf);
    InClosure(h, leaves, d);
  }

  /** Checking every gathered class against a base is the same as checking the
      classes written in the annotation. */
  lemma {:induction false} LeafCheckSuffices(h: Hierarchy, leaves: set<ClassId>, base: ClassId)
    ensures (forall d :: d in Closure(h, leaves) ==> IsSubclass(h, d, base))
       <==> (forall c :: c in leaves ==> IsSubclass(h, c, base))
  {
    if forall c :: c in leaves ==> IsSubclass(h, c, base) {
      forall d | d in Closure(h, leaves) ensures IsSubclass(h, d, base) {
        InClosure(h, leaves, d);
        var c :| c in leaves && IsSubclass(h, d, c);
        SubclassTransitive(h, d, c, base);
      }
    }
  }

  /** Every class written in `a` is covered by one written in `b`. */
  ghost predicate Covers(h: Hierarchy, b: set<ClassId>, a: set<ClassId>) {
    forall c :: c in a ==> exists d :: d in b && IsSubclass(h, c, d)
  }

  lemma {:induction false} CoveredIsContained(h: Hierarchy, a: set<ClassId>, b: set<ClassId>)
    ensures Closure(h, a) <= Closure(h, b) <==> Covers(h, b, a)
  {
    if Covers(h, b, a) {
      forall d | d in Closure(h, a) ensures d in Closure(h, b) {
        InClosure(h, a, d);
        var c :| c in a && IsSubclass(h, d, c);
        var top :| top in b && IsSubclass(h, c, top);
        SubclassTransitive(h, d, c, top);
        InClosure(h, b, d);
      }
    }
    if Closure(h, a) <= Closure(h, b) {
      forall c | c in a ensures exists d :: d in b && IsSubclass(h, c, d) {
        InClosure(h, b, c);
      }
    }
  }

  /** Two annotations gather the same types exactly when each covers the other:
      the order of a union, its nesting, and members implied by others are irrelevant. */
  lemma {:induction false} SameTypesIffMutuallyCovering(h: Hierarchy, a: Annotation, b: Annotation)
    requires FirstGeneric(a) == None && FirstGeneric(b) == None
    ensures Gathered(h, a) == Gathered(h, b)
       <==> Covers(h, Leaves(a), Leaves(b)) && Covers(h, Leaves(b), Leaves(a))
  {
    var x, y := Closure(h, Leaves(a)), Closure(h, Leaves(b));
    CoveredIsContained(h, Leaves(a), Leaves(b));
    CoveredIsContained(h, Leaves(b), Leaves(a));
    assert x == y <==> x <= y && y <= x;
  }
}
