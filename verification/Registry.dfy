/** Registering handlers, listeners and guards (anywise/registry.py).

    The specification is the registration history: which functions and methods
    were accepted, for which types, in which order. */
module Registry {
  import opened Basics
  import opened ClassGraph
  import opened Callables
  import opened GuardChain

  datatype Param = Param(annotation: Annotation, isContext: bool)

  datatype Func = Func(id: FuncId, params: seq<Param>, isAsync: bool)

  /** A class attribute that is a function; members come sorted by name. */
  datatype Member = Member(name: string, func: Func)

  datatype Target = Function(func: Func) | Service(cls: ClassId, members: seq<Member>) | Unsupported

  datatype RegisterError =
    | MessageHandlerNotFound
    | InvalidHandler
    | InvalidMessageType(origin: string)
    | NotSupportedHandlerType
    | ValueError   // a method without any parameter cannot be unpacked

  predicate IsHandlerRegisterFail(e: RegisterError) {
    e.MessageHandlerNotFound? || e.InvalidHandler? || e.InvalidMessageType?
  }

  datatype Meta = Meta(messageType: ClassId, func: FuncId, isAsync: bool, isContexted: bool,
                       ignore: set<ClassId>, owner: Option<ClassId>)

  /** One accepted function or method and every message type it handles. */
  datatype Claim = Claim(func: Func, owner: Option<ClassId>, isContexted: bool, types: set<ClassId>)

  predicate IsContextParam(rest: seq<Param>) {
    rest != [] && rest[0].isContext
  }

  function MetaOf(t: ClassId, claim: Claim): Meta {
    Meta(t, claim.func.id, claim.func.isAsync, claim.isContexted, claim.types, claim.owner)
  }

  ghost predicate AllDerive(h: Hierarchy, types: set<ClassId>, base: ClassId) {
    forall t :: t in types ==> IsSubclass(h, t, base)
  }

  // -------------------------------------------------- what a target is accepted for

  ghost function FuncClaim(h: Hierarchy, base: ClassId, f: Func): Result<Claim, RegisterError> {
    if f.params == [] then Err(MessageHandlerNotFound)
    else match Gathered(h, f.params[0].annotation)
      case Err(origin) => Err(InvalidMessageType(origin))
      case Ok(types) =>
        if AllDerive(h, types, base) then Ok(Claim(f, None, IsContextParam(f.params[1..]), types))
        else Err(InvalidHandler)
  }

  predicate IsSkipped(m: Member) {
    (m.name != "" && m.name[0] == '_') || |m.func.params| == 1
  }

  /** What one member is accepted for, if anything. */
  ghost function MemberClaim(h: Hierarchy, base: ClassId, cls: ClassId, m: Member)
    : Result<Option<Claim>, RegisterError> {
    if IsSkipped(m) then Ok(None)
    else if m.func.params == [] then Err(ValueError)
    else match Gathered(h, m.func.params[1].annotation)
      case Err(origin) => Err(InvalidMessageType(origin))
      case Ok(types) =>
        if AllDerive(h, types, base) then Ok(Some(Claim(m.func, Some(cls), IsContextParam(m.func.params[2..]), types)))
        else Ok(None)
  }

  function AsSeq<T>(o: Option<T>): seq<T> {
    if o.Some? then [o.value] else []
  }

  ghost function MemberClaims(h: Hierarchy, base: ClassId, cls: ClassId, members: seq<Member>)
    : Result<seq<Claim>, RegisterError>
  {
    if members == [] then Ok([])
    else
      match MemberClaims(h, base, cls, members[..|members| - 1])
      case Err(e) => Err(e)
      case Ok(claims) =>
        match MemberClaim(h, base, cls, members[|members| - 1])
        case Err(e) => Err(e)
        case Ok(claim) => Ok(claims + AsSeq(claim))
  }

  ghost predicate ClaimsNothing(claims: seq<Claim>) {
    forall c :: c in claims ==> c.types == {}
  }

  /** What a registry with this base accepts of a target, or why it refuses it. */
  ghost function Claims(h: Hierarchy, base: ClassId, target: Target): Result<seq<Claim>, RegisterError> {
    match target
    case Unsupported => Err(NotSupportedHandlerType)
    case Function(f) =>
      (match FuncClaim(h, base, f)
       case Err(e) => Err(e)
       case Ok(claim) => Ok([claim]))
    case Service(cls, members) =>
      match MemberClaims(h, base, cls, members)
      case Err(e) => Err(e)
      case Ok(claims) => if ClaimsNothing(claims) then Err(MessageHandlerNotFound) else Ok(claims)
  }

  /** The metas that accepted claims provide for one message type, in order. */
  ghost function PerType(claims: seq<Claim>, t: ClassId): seq<Meta> {
    if claims == [] then []
    else
      var last := claims[|claims| - 1];
      PerType(claims[..|claims| - 1], t) + if t in last.types then [MetaOf(t, last)] else []
  }

  /** The metas of a list that are for one message type, in order. */
  ghost function ForType(metas: seq<Meta>, t: ClassId): seq<Meta> {
    if metas == [] then []
    else
      var last := metas[|metas| - 1];
      ForType(metas[..|metas| - 1], t) + if last.messageType == t then [last] else []
  }

  /** A list of metas may order the types of one claim as it likes. */
  ghost predicate Realizes(metas: seq<Meta>, claims: seq<Claim>) {
    forall t :: ForType(metas, t) == PerType(claims, t)
  }

  // ------------------------------------------- the same, by parameters and annotations

  /** One meta for each of the types, all with these properties. */
  ghost predicate Expands(metas: seq<Meta>, types: set<ClassId>, id: FuncId, isAsync: bool, isContexted: bool,
                          owner: Option<ClassId>) {
    && (forall i, j :: 0 <= i < j < |metas| ==> metas[i].messageType != metas[j].messageType)
    && (forall i :: 0 <= i < |metas| ==>
          metas[i].messageType in types &&
            metas[i] == Meta(metas[i].messageType, id, isAsync, isContexted, types, owner))
    && (forall t :: t in types ==> exists i :: 0 <= i < |metas| && metas[i].messageType == t)
  }

  /** The types an annotation stands for, all of which derive from the base. */
  ghost predicate StandsFor(h: Hierarchy, base: ClassId, a: Annotation, types: set<ClassId>) {
    && FirstGeneric(a) == None && types == Closure(h, Leaves(a))
    && forall t :: t in types ==> IsSubclass(h, t, base)
  }

  /** A method contributes this meta: it is public, has a parameter besides
      `self`, and that one stands for types below the base. */
  ghost predicate MethodGives(h: Hierarchy, base: ClassId, cls: ClassId, m: Member, meta: Meta) {
    && (m.name == "" || m.name[0] != '_') && |m.func.params| >= 2
    && StandsFor(h, base, m.func.params[1].annotation, meta.ignore) && meta.messageType in meta.ignore
    && meta.func == m.func.id && meta.isAsync == m.func.isAsync
    && (meta.isContexted <==> |m.func.params| > 2 && m.func.params[2].isContext)
    && meta.owner == Some(cls)
  }

  /** A public method that cannot be unpacked, or whose annotation contains a generic. */
  predicate MethodRaises(m: Member) {
    && (m.name == "" || m.name[0] != '_')
    && (m.func.params == [] || (|m.func.params| >= 2 && FirstGeneric(m.func.params[1].annotation).Some?))
  }

  function RaisedBy(m: Member): RegisterError
    requires MethodRaises(m)
  {
    if m.func.params == [] then ValueError else InvalidMessageType(FirstGeneric(m.func.params[1].annotation).value)
  }

  /** `places[i]` is the place of the method that contributed `metas[i]`: methods
      in order, all that contribute, each with one meta for each of its types. */
  ghost predicate InOrder(h: Hierarchy, base: ClassId, cls: ClassId, members: seq<Member>, metas: seq<Meta>,
                          places: seq<nat>) {
    && |places| == |metas|
    && (forall i :: 0 <= i < |metas| ==>
      places[i] < |members| && MethodGives(h, base, cls, members[places[i]], metas[i]))
    && (forall i, j :: 0 <= i < j < |metas| ==>
          places[i] < places[j] || (places[i] == places[j] && metas[i].messageType != metas[j].messageType))
    && (forall k, meta :: 0 <= k < |members| && MethodGives(h, base, cls, members[k], meta) ==>
      Placed(metas, places, k, meta))
  }

  ghost predicate Placed(metas: seq<Meta>, places: seq<nat>, k: nat, meta: Meta)
    requires |places| == |metas|
  {
    exists i :: 0 <= i < |metas| && places[i] == k && metas[i] == meta
  }

  lemma {:induction false} PlacedStays(metas: seq<Meta>, places: seq<nat>, more: seq<Meta>, n: nat, k: nat, meta: Meta)
    requires |places| == |metas|
    requires Placed(metas, places, k, meta) || (k == n && meta in more)
    ensures Placed(metas + more, places + seq(|more|, _ => n), k, meta)
  {
    var all, put := metas + more, places + seq(|more|, _ => n);
    if Placed(metas, places, k, meta) {
      var i :| 0 <= i < |metas| && places[i] == k && metas[i] == meta;
      assert put[i] == k && all[i] == meta;
    } else {
      var i :| 0 <= i < |more| && more[i] == meta;
      assert put[|metas| + i] == k && all[|metas| + i] == meta;
    }
  }

  /** All metas of one more method. */
  ghost predicate AllOf(h: Hierarchy, base: ClassId, cls: ClassId, m: Member, more: seq<Meta>) {
    && (forall i, j :: 0 <= i < j < |more| ==> more[i].messageType != more[j].messageType)
    && (forall meta :: meta in more <==> MethodGives(h, base, cls, m, meta))
  }

  lemma {:induction false} ExpandsToAll(h: Hierarchy, base: ClassId, cls: ClassId, m: Member, more: seq<Meta>,
                                        types: set<ClassId>)
    requires (m.name == "" || m.name[0] != '_') && |m.func.params| >= 2
    requires StandsFor(h, base, m.func.params[1].annotation, types)
    requires Expands(more, types, m.func.id, m.func.isAsync, |m.func.params| > 2 &&
      m.func.params[2].isContext, Some(cls))
    ensures AllOf(h, base, cls, m, more)
  {
    forall meta | MethodGives(h, base, cls, m, meta) ensures meta in more {
      var i :| 0 <= i < |more| && more[i].messageType == meta.messageType;
      assert more[i] == meta;
    }
  }

  lemma {:induction false} InOrderGrows(h: Hierarchy, base: ClassId, cls: ClassId, members: seq<Member>, m: Member,
                                        metas: seq<Meta>, places: seq<nat>, more: seq<Meta>)
    requires InOrder(h, base, cls, members, metas, places) && AllOf(h, base, cls, m, more)
    ensures InOrder(h, base, cls, members + [m], metas + more, places + seq(|more|, _ => |members|))
  {
    var longer, all, put := members + [m], metas + more, places + seq(|more|, _ => |members|);
    forall k, meta | 0 <= k < |longer| && MethodGives(h, base, cls, longer[k], meta) ensures Placed(all, put, k, meta) {
      assert k < |members| ==> longer[k] == members[k];
      PlacedStays(metas, places, more, |members|, k, meta);
    }
    forall i | 0 <= i < |all| ensures put[i] < |longer| && MethodGives(h, base, cls, longer[put[i]], all[i]) {
      if i >= |metas| {
        assert all[i] in more;
      }
    }
  }

  lemma {:induction false} ForTypeAppend(a: seq<Meta>, b: seq<Meta>, t: ClassId)
    ensures ForType(a + b, t) == ForType(a, t) + ForType(b, t)
    decreases |b|
  {
    if b == [] {
      assert a + b == a;
    } else {
      var n := |b| - 1;
      assert (a + b)[..|a| + n] == a + b[..n];
      ForTypeAppend(a, b[..n], t);
    }
  }

  lemma {:induction false} PerTypeSnoc(claims: seq<Claim>, claim: Claim, t: ClassId)
    ensures PerType(claims + [claim], t) == PerType(claims, t) + if t in claim.types then [MetaOf(t, claim)] else []
  {
    assert (claims + [claim])[..|claims|] == claims;
  }

  lemma {:induction false} RealizesAppend(metas: seq<Meta>, claims: seq<Claim>, more: seq<Meta>, claim: Option<Claim>)
    requires Realizes(metas, claims) && Realizes(more, AsSeq(claim))
    ensures Realizes(metas + more, claims + AsSeq(claim))
  {
    forall t ensures ForType(metas + more, t) == PerType(claims + AsSeq(claim), t) {
      ForTypeAppend(metas, more, t);
      if claim.Some? {
        PerTypeSnoc(claims, claim.value, t);
        PerTypeSnoc([], claim.value, t);
        assert [] + [claim.value] == [claim.value];
      } else {
        assert claims + [] == claims;
      }
    }
  }

  lemma {:induction false} SomeClaimed(claims: seq<Claim>, t: ClassId)
    ensures PerType(claims, t) != [] <==> exists c :: c in claims && t in c.types
  {
    if claims != [] {
      var before, last := claims[..|claims| - 1], claims[|claims| - 1];
      SomeClaimed(before, t);
      if c :| c in claims && t in c.types && t !in last.types {
        assert c in before;
      }
    }
  }

  lemma {:induction false} NothingIffEmpty(metas: seq<Meta>, claims: seq<Claim>)
    requires Realizes(metas, claims)
    ensures metas == [] <==> ClaimsNothing(claims)
  {
    if metas != [] {
      var t := metas[|metas| - 1].messageType;
      assert ForType(metas, t) != [];
      SomeClaimed(claims, t);
    }
    if c :| c in claims && c.types != {} {
      var t :| t in c.types;
      SomeClaimed(claims, t);
      assert ForType(metas, t) == PerType(claims, t);
    }
  }

  /** Exactly one meta for each of the given types. */
  ghost predicate OneEach(metas: seq<Meta>, claim: Claim, types: set<ClassId>) {
    forall t :: OneFor(metas, claim, types, t)
  }

  ghost predicate OneFor(metas: seq<Meta>, claim: Claim, types: set<ClassId>, t: ClassId) {
    ForType(metas, t) == if t in types then [MetaOf(t, claim)] else []
  }

  lemma {:induction false} OneMore(metas: seq<Meta>, claim: Claim, types: set<ClassId>, t: ClassId)
    requires OneEach(metas, claim, types) && t !in types
    ensures OneEach(metas + [MetaOf(t, claim)], claim, types + {t})
  {
    var longer, grown := metas + [MetaOf(t, claim)], types + {t};
    assert longer[..|metas|] == metas;
    forall u ensures OneFor(longer, claim, grown, u) {
      assert OneFor(metas, claim, types, u);
    }
  }

  lemma {:induction false} OneEachRealizes(metas: seq<Meta>, claim: Claim)
    requires OneEach(metas, claim, claim.types)
    ensures Realizes(metas, [claim])
  {
    forall t ensures ForType(metas, t) == PerType([claim], t) {
      assert OneFor(metas, claim, claim.types, t);
      assert [claim][..0] == [];
    }
  }

  /** `[Meta(t, ...) for t in types]`, in any order of the set. */
  method Expand(claim: Claim) returns (metas: seq<Meta>)
    ensures Realizes(metas, [claim])
    ensures Expands(metas, claim.types, claim.func.id, claim.func.isAsync, claim.isContexted, claim.owner)
  {
    metas := [];
    var rest := claim.types;
    ghost var done: set<ClassId> := {};
    assert OneEach(metas, claim, done);
    while rest != {}
      invariant rest + done == claim.types && rest !! done
      invariant OneEach(metas, claim, done)
      invariant forall i, j :: 0 <= i < j < |metas| ==> metas[i].messageType != metas[j].messageType
      invariant forall i :: 0 <= i < |metas| ==>
        metas[i].messageType in done && metas[i] == MetaOf(metas[i].messageType, claim)
      invariant forall t :: t in done ==> exists i :: 0 <= i < |metas| && metas[i].messageType == t
      decreases rest
    {
      var t :| t in rest;
      OneMore(metas, claim, done, t);
      ghost var before := metas;
      metas := metas + [MetaOf(t, claim)];
      rest, done := rest - {t}, done + {t};
      forall u | u in done ensures exists i :: 0 <= i < |metas| && metas[i].messageType == u {
        if u == t {
          assert metas[|before|].messageType == t;
        } else {
          var i :| 0 <= i < |before| && before[i].messageType == u;
          assert metas[i].messageType == u;
        }
      }
    }
    assert done == claim.types;
    OneEachRealizes(metas, claim);
  }

  method Derive(h: Hierarchy, types: set<ClassId>, base: ClassId) returns (all: bool)
    ensures all <==> AllDerive(h, types, base)
  {
    var rest := types;
    while rest != {}
      invariant rest <= types
      invariant forall t :: t in types && t !in rest ==> IsSubclass(h, t, base)
      decreases rest
    {
      var t :| t in rest;
      if !IsSubclass(h, t, base) {
        return false;
      }
      rest := rest - {t};
    }
    return true;
  }

  method GetFuncMetas(h: Hierarchy, base: ClassId, f: Func) returns (r: Result<seq<Meta>, RegisterError>)
    ensures match FuncClaim(h, base, f)
            case Err(e) => r == Err(e)
            case Ok(claim) => r.Ok? && Realizes(r.value, [claim])
    ensures r.Ok? <==> f.params != [] && exists types :: StandsFor(h, base, f.params[0].annotation, types)
    ensures r.Ok? ==> Expands(r.value, Closure(h, Leaves(f.params[0].annotation)), f.id, f.isAsync,
                              |f.params| > 1 && f.params[1].isContext, None)
    ensures f.params == [] ==> r == Err(MessageHandlerNotFound)
    ensures f.params != [] && r.Err? ==>
      r.error == match FirstGeneric(f.params[0].annotation)
                 case Some(origin) => InvalidMessageType(origin)
                 case None => InvalidHandler
  {
    if f.params == [] {
      return Err(MessageHandlerNotFound);
    }
    var derived := GatherTypes(h, f.params[0].annotation);
    if derived.Err? {
      return Err(InvalidMessageType(derived.error));
    }
    var all := Derive(h, derived.value, base);
    if !all {
      return Err(InvalidHandler);
    }
    var metas := Expand(Claim(f, None, IsContextParam(f.params[1..]), derived.value));
    assert StandsFor(h, base, f.params[0].annotation, derived.value);
    return Ok(metas);
  }

  lemma {:induction false} FailedMember(h: Hierarchy, base: ClassId, cls: ClassId, members: seq<Member>, n: nat)
    requires n <= |members| && MemberClaims(h, base, cls, members[..n]).Err?
    ensures MemberClaims(h, base, cls, members) == MemberClaims(h, base, cls, members[..n])
    decreases |members| - n
  {
    if n == |members| {
      assert members[..n] == members;
    } else {
      assert members[..n + 1][..n] == members[..n];
      FailedMember(h, base, cls, members, n + 1);
    }
  }

  /** The body of the loop over the members. */
  method GetMemberMetas(h: Hierarchy, base: ClassId, cls: ClassId, m: Member)
    returns (r: Result<seq<Meta>, RegisterError>)
    ensures match MemberClaim(h, base, cls, m)
            case Err(e) => r == Err(e)
            case Ok(claim) => r.Ok? && Realizes(r.value, AsSeq(claim))
    ensures r.Err? <==> MethodRaises(m)
    ensures r.Err? ==> r.error == RaisedBy(m)
    ensures r.Ok? ==> AllOf(h, base, cls, m, r.value)
  {
    if IsSkipped(m) {
      return Ok([]);
    }
    if m.func.params == [] {
      return Err(ValueError);
    }
    var derived := GatherTypes(h, m.func.params[1].annotation);
    if derived.Err? {
      return Err(InvalidMessageType(derived.error));
    }
    var all := Derive(h, derived.value, base);
    if !all {
      return Ok([]);
    }
    var metas := Expand(Claim(m.func, Some(cls), IsContextParam(m.func.params[2..]), derived.value));
    ExpandsToAll(h, base, cls, m, metas, derived.value);
    return Ok(metas);
  }

  ghost predicate FirstRaises(members: seq<Member>, k: nat)
    requires k < |members|
  {
    MethodRaises(members[k]) && forall j :: 0 <= j < k ==> !MethodRaises(members[j])
  }

  /** The metas of the first members, none of which raised. */
  ghost predicate SoFar(h: Hierarchy, base: ClassId, cls: ClassId, members: seq<Member>, metas: seq<Meta>,
                        places: seq<nat>) {
    && MemberClaims(h, base, cls, members).Ok? && Realizes(metas, MemberClaims(h, base, cls, members).value)
    && InOrder(h, base, cls, members, metas, places) && forall m :: m in members ==> !MethodRaises(m)
  }

  lemma {:induction false} SoFarGrows(h: Hierarchy, base: ClassId, cls: ClassId, members: seq<Member>, m: Member,
                                      metas: seq<Meta>, places: seq<nat>, more: seq<Meta>)
    requires SoFar(h, base, cls, members, metas, places) && MemberClaim(h, base, cls, m).Ok? && !MethodRaises(m)
    requires Realizes(more, AsSeq(MemberClaim(h, base, cls, m).value)) && AllOf(h, base, cls, m, more)
    ensures SoFar(h, base, cls, members + [m], metas + more, places + seq(|more|, _ => |members|))
  {
    assert (members + [m])[..|members|] == members;
    RealizesAppend(metas, MemberClaims(h, base, cls, members).value, more, MemberClaim(h, base, cls, m).value);
    InOrderGrows(h, base, cls, members, m, metas, places, more);
  }

  lemma {:induction false} FailsAt(h: Hierarchy, base: ClassId, cls: ClassId, members: seq<Member>, n: nat,
                                   metas: seq<Meta>, places: seq<nat>)
    requires n < |members| && SoFar(h, base, cls, members[..n], metas, places)
    requires MethodRaises(members[n]) && MemberClaim(h, base, cls, members[n]) == Err(RaisedBy(members[n]))
    ensures Claims(h, base, Service(cls, members)) == Err(RaisedBy(members[n])) && FirstRaises(members, n)
  {
    assert members[..n + 1][..n] == members[..n];
    FailedMember(h, base, cls, members, n + 1);
    assert forall j :: 0 <= j < n ==> members[j] == members[..n][j];
  }

  lemma {:induction false} NothingInOrder(h: Hierarchy, base: ClassId, cls: ClassId, members: seq<Member>,
                                          places: seq<nat>)
    requires InOrder(h, base, cls, members, [], places)
    ensures forall m, meta :: m in members ==> !MethodGives(h, base, cls, m, meta)
  {
    forall m, meta | m in members ensures !MethodGives(h, base, cls, m, meta) {
      var k :| 0 <= k < |members| && members[k] == m;
      assert !Placed([], places, k, meta);
    }
  }

  lemma {:induction false} AllGathered(h: Hierarchy, base: ClassId, cls: ClassId, members: seq<Member>,
                                       metas: seq<Meta>, places: seq<nat>)
    requires SoFar(h, base, cls, members, metas, places)
    ensures Claims(h, base, Service(cls, members))
         == if metas == [] then Err(MessageHandlerNotFound) else Ok(MemberClaims(h, base, cls, members).value)
    ensures metas == [] <==> forall m, meta :: m in members ==> !MethodGives(h, base, cls, m, meta)
  {
    NothingIffEmpty(metas, MemberClaims(h, base, cls, members).value);
    if metas == [] {
      NothingInOrder(h, base, cls, members, places);
    } else {
      assert MethodGives(h, base, cls, members[places[0]], metas[0]);
    }
  }

  method GetMethodMetas(h: Hierarchy, base: ClassId, cls: ClassId, members: seq<Member>)
    returns (r: Result<seq<Meta>, RegisterError>)
    ensures match Claims(h, base, Service(cls, members))
            case Err(e) => r == Err(e)
            case Ok(claims) => r.Ok? && Realizes(r.value, claims)
    ensures r.Ok? ==> exists places :: InOrder(h, base, cls, members, r.value, places)
    ensures r == Err(MessageHandlerNotFound) <==>
      && (forall m :: m in members ==> !MethodRaises(m))
      && (forall m, meta :: m in members ==> !MethodGives(h, base, cls, m, meta))
    ensures r.Err? && r.error != MessageHandlerNotFound ==>
      exists k :: 0 <= k < |members| && FirstRaises(members, k) && r.error == RaisedBy(members[k])
  {
    var methodMetas: seq<Meta> := [];
    ghost var places: seq<nat> := [];
    for n := 0 to |members|
      invariant SoFar(h, base, cls, members[..n], methodMetas, places)
    {
      var metas := GetMemberMetas(h, base, cls, members[n]);
      if metas.Err? {
        FailsAt(h, base, cls, members, n, methodMetas, places);
        return metas;
      }
      SoFarGrows(h, base, cls, members[..n], members[n], methodMetas, places, metas.value);
      assert members[..n] + [members[n]] == members[..n + 1];
      methodMetas := methodMetas + metas.value;
      places := places + seq(|metas.value|, _ => n);
    }
    assert members[..|members|] == members;
    AllGathered(h, base, cls, members, methodMetas, places);
    if methodMetas == [] {
      return Err(MessageHandlerNotFound);
    }
    return Ok(methodMetas);
  }

  method GetMetas(h: Hierarchy, base: ClassId, target: Target) returns (r: Result<seq<Meta>, RegisterError>)
    ensures match Claims(h, base, target)
            case Err(e) => r == Err(e)
            case Ok(claims) => r.Ok? && Realizes(r.value, claims)
  {
    match target {
      case Function(f) => r := GetFuncMetas(h, base, f);
      case Service(cls, members) => r := GetMethodMetas(h, base, cls, members);
      case Unsupported => r := Err(NotSupportedHandlerType);
    }
  }

  /** Errors other than registration failures do not depend on the base. */
  lemma {:induction false} SeriousErrorsIgnoreBase(h: Hierarchy, a: ClassId, b: ClassId, target: Target)
    requires Claims(h, a, target).Err? && !IsHandlerRegisterFail(Claims(h, a, target).error)
    ensures Claims(h, b, target) == Claims(h, a, target)
  {
    if target.Service? {
      MemberErrorsIgnoreBase(h, a, b, target.cls, target.members);
    }
  }

  lemma {:induction false} MemberErrorsIgnoreBase(h: Hierarchy, a: ClassId, b: ClassId, cls: ClassId,
                                                  members: seq<Member>)
    ensures MemberClaims(h, a, cls, members).Ok? <==> MemberClaims(h, b, cls, members).Ok?
    ensures MemberClaims(h, a, cls, members).Err? ==>
      MemberClaims(h, a, cls, members) == MemberClaims(h, b, cls, members)
  {
    if members != [] {
      MemberErrorsIgnoreBase(h, a, b, cls, members[..|members| - 1]);
    }
  }

  // ------------------------------------------------------------------- history

  /** A guard as registered: an object made by the registry, a class that every
      send resolves in its own scope, or a plain function, which no send can link. */
  datatype GuardRef = Instance(guard: Guard) | GuardClass(id: FuncId) | GuardFunction(id: FuncId)

  datatype GuardMeta = GuardMeta(target: ClassId, guard: GuardRef)

  /** One successful registration: a handler, with the classes known at that
      time, or a guard for each of its targets. */
  datatype Entry = Handled(h: Hierarchy, target: Target) | Guarded(guards: map<ClassId, GuardRef>)

  /** The metas a registration gives a message type, for a registry with this base. */
  ghost function Given(base: Option<ClassId>, entry: Entry, t: ClassId): seq<Meta> {
    if entry.Guarded? || base.None? then []
    else match Claims(entry.h, base.value, entry.target)
      case Err(_) => []
      case Ok(claims) => PerType(claims, t)
  }

  ghost function GivenBy(base: Option<ClassId>, t: ClassId): Entry -> seq<Meta> {
    (entry: Entry) => Given(base, entry, t)
  }

  ghost function GuardGiven(t: ClassId): Entry -> seq<GuardMeta> {
    (entry: Entry) => if entry.Guarded? && t in entry.guards then [GuardMeta(t, entry.guards[t])] else []
  }

  /** All metas accepted for a message type, oldest first. */
  ghost function Accepted(base: Option<ClassId>, history: seq<Entry>, t: ClassId): seq<Meta> {
    FlatMap(GivenBy(base, t), history)
  }

  /** All guards registered while `t` was among their targets, oldest first. */
  ghost function GuardsFor(history: seq<Entry>, t: ClassId): seq<GuardMeta> {
    FlatMap(GuardGiven(t), history)
  }

  lemma {:induction false} AcceptedSnoc(base: Option<ClassId>, history: seq<Entry>, entry: Entry, t: ClassId)
    ensures Accepted(base, history + [entry], t) == Accepted(base, history, t) + Given(base, entry, t)
    ensures GuardsFor(history + [entry], t)
         == GuardsFor(history, t) + if entry.Guarded? && t in entry.guards then [GuardMeta(t, entry.guards[t])] else []
  {
    FlatMapSnoc(GivenBy(base, t), history, entry);
    FlatMapSnoc(GuardGiven(t), history, entry);
  }

  // ------------------------------------------------- what a registration gives a type

  /** A function gives one meta to each type its first parameter stands for. */
  lemma {:induction false} FunctionGives(h: Hierarchy, base: ClassId, f: Func, t: ClassId)
    ensures var a := if f.params == [] then Missing else f.params[0].annotation;
      Given(Some(base), Handled(h, Function(f)), t)
        == if f.params != [] && StandsFor(h, base, a, Closure(h, Leaves(a))) && t in Closure(h, Leaves(a))
           then [Meta(t, f.id, f.isAsync, |f.params| > 1 && f.params[1].isContext, Closure(h, Leaves(a)), None)]
           else []
  {
    if f.params != [] && Claims(h, base, Function(f)).Ok? {
      var claim := Claims(h, base, Function(f)).value[0];
      PerTypeSnoc([], claim, t);
      assert [] + [claim] == [claim];
    }
  }

  lemma {:induction false} MemberGives(h: Hierarchy, base: ClassId, cls: ClassId, m: Member, t: ClassId)
    ensures MemberClaim(h, base, cls, m).Err? <==> MethodRaises(m)
    ensures MethodRaises(m) ==> MemberClaim(h, base, cls, m).error == RaisedBy(m)
    ensures !MethodRaises(m) ==>
      var given := PerType(AsSeq(MemberClaim(h, base, cls, m).value), t);
      && |given| <= 1
      && forall meta :: meta in given <==> MethodGives(h, base, cls, m, meta) && meta.messageType == t
  {
    if !MethodRaises(m) && MemberClaim(h, base, cls, m).value.Some? {
      var claim := MemberClaim(h, base, cls, m).value.value;
      PerTypeSnoc([], claim, t);
      assert [] + [claim] == [claim];
    }
  }

  ghost predicate SomeGives(h: Hierarchy, base: ClassId, cls: ClassId, members: seq<Member>, meta: Meta) {
    exists m :: m in members && MethodGives(h, base, cls, m, meta)
  }

  /** The metas a service gives a type, unless one of its methods raises: those
      that its methods contribute. */
  lemma {:induction false} ServiceGives(h: Hierarchy, base: ClassId, cls: ClassId, members: seq<Member>, t: ClassId,
                                        meta: Meta)
    ensures MemberClaims(h, base, cls, members).Ok? <==> forall m :: m in members ==> !MethodRaises(m)
    ensures MemberClaims(h, base, cls, members).Ok? ==>
      (meta in PerType(MemberClaims(h, base, cls, members).value, t) <==>
        meta.messageType == t && SomeGives(h, base, cls, members, meta))
  {
    if members != [] {
      var before, m := members[..|members| - 1], members[|members| - 1];
      assert forall x :: x in members <==> x in before || x == m;
      ServiceGives(h, base, cls, before, t, meta);
      MemberGives(h, base, cls, m, t);
      if MemberClaims(h, base, cls, members).Ok? {
        PerTypeAppend(MemberClaims(h, base, cls, before).value, MemberClaim(h, base, cls, m).value, t);
      }
    }
  }

  /** Method `k` gives the type this meta, and no later one gives it any. */
  ghost predicate LastToGive(h: Hierarchy, base: ClassId, cls: ClassId, members: seq<Member>, t: ClassId, k: nat,
                             meta: Meta)
  {
    && k < |members| && MethodGives(h, base, cls, members[k], meta) && meta.messageType == t
    && forall j, other :: k < j < |members| && MethodGives(h, base, cls, members[j], other) ==> other.messageType != t
  }

  /** The last meta of a service for a type comes from the last method that gives it one. */
  lemma {:induction false} LastMethodWins(h: Hierarchy, base: ClassId, cls: ClassId, members: seq<Member>, t: ClassId)
    returns (k: nat)
    requires MemberClaims(h, base, cls, members).Ok? && PerType(MemberClaims(h, base, cls, members).value, t) != []
    ensures var given := PerType(MemberClaims(h, base, cls, members).value, t);
            LastToGive(h, base, cls, members, t, k, given[|given| - 1])
  {
    var n := |members| - 1;
    var before, m := members[..n], members[n];
    MemberGives(h, base, cls, m, t);
    var claims, more := MemberClaims(h, base, cls, before).value, MemberClaim(h, base, cls, m).value;
    PerTypeAppend(claims, more, t);
    var last := PerType(AsSeq(more), t);
    if last != [] {
      assert last[0] in last;
      k := n;
    } else {
      k := LastMethodWins(h, base, cls, before, t);
      LastStays(h, base, cls, before, m, t, k, PerType(claims, t)[|PerType(claims, t)| - 1]);
      assert before + [m] == members;
    }
  }

  lemma {:induction false} LastStays(h: Hierarchy, base: ClassId, cls: ClassId, members: seq<Member>, m: Member,
                                     t: ClassId, k: nat, meta: Meta)
    requires LastToGive(h, base, cls, members, t, k, meta)
    requires forall other :: MethodGives(h, base, cls, m, other) ==> other.messageType != t
    ensures LastToGive(h, base, cls, members + [m], t, k, meta)
  {
    var longer := members + [m];
    forall j, other | k < j < |longer| && MethodGives(h, base, cls, longer[j], other) ensures other.messageType != t {
      assert j < |members| ==> longer[j] == members[j];
    }
  }

  lemma {:induction false} PerTypeAppend(claims: seq<Claim>, more: Option<Claim>, t: ClassId)
    ensures PerType(claims + AsSeq(more), t) == PerType(claims, t) + PerType(AsSeq(more), t)
  {
    if more.Some? {
      PerTypeSnoc(claims, more.value, t);
      PerTypeSnoc([], more.value, t);
      assert [] + [more.value] == [more.value];
    } else {
      assert claims + [] == claims;
    }
  }

  /** The mapping holds, for each type, the last of the metas accepted before and the new ones. */
  ghost predicate KeepsLast(mapping: map<ClassId, Meta>, accepted: ClassId -> seq<Meta>, more: seq<Meta>) {
    forall t :: IsLast(mapping, t, accepted(t) + ForType(more, t))
  }

  predicate IsLast(mapping: map<ClassId, Meta>, t: ClassId, all: seq<Meta>) {
    (t in mapping <==> all != []) && (t in mapping ==> mapping[t] == all[|all| - 1])
  }

  lemma {:induction false} KeepsLastAs(mapping: map<ClassId, Meta>, before: ClassId -> seq<Meta>, more: seq<Meta>,
                                       after: ClassId -> seq<Meta>)
    requires KeepsLast(mapping, before, more)
    requires forall t :: after(t) == before(t) + ForType(more, t)
    ensures KeepsLast(mapping, after, [])
  {
    forall t ensures after(t) + ForType([], t) == before(t) + ForType(more, t) {
      assert after(t) + [] == after(t);
    }
  }

  /** One of the listener lists of a mapping. */
  class MetaList {
    var items: seq<Meta>

    constructor (items: seq<Meta>)
      ensures this.items == items
    {
      this.items := items;
    }

    method Append(meta: Meta)
      modifies this
      ensures items == old(items) + [meta]
    {
      items := items + [meta];
    }

    method Extend(metas: seq<Meta>)
      modifies this
      ensures items == old(items) + metas
    {
      items := items + metas;
    }
  }

  /** No list serves two types. */
  ghost predicate OwnLists(mapping: map<ClassId, MetaList>) {
    forall t, u :: t in mapping && u in mapping && t != u ==> mapping[t] != mapping[u]
  }

  ghost predicate KeepsLists(mapping: map<ClassId, MetaList>, updated: map<ClassId, MetaList>) {
    forall t :: t in mapping ==> t in updated && updated[t] == mapping[t]
  }

  type Contents = map<ClassId, seq<Meta>>

  /** What the lists of a mapping hold. */
  function ContentsOf(mapping: map<ClassId, MetaList>): Contents
    reads mapping.Values
  {
    map t | t in mapping :: mapping[t].items
  }

  /** Reading and extending a dictionary of lists. */
  function At<T>(c: map<ClassId, seq<T>>, t: ClassId): seq<T> {
    if t in c then c[t] else []
  }

  function Plus<T>(c: map<ClassId, seq<T>>, t: ClassId, items: seq<T>): map<ClassId, seq<T>> {
    c[t := At(c, t) + items]
  }

  ghost function PlusAll(c: Contents, metas: seq<Meta>): Contents {
    if metas == [] then c
    else
      var last := metas[|metas| - 1];
      Plus(PlusAll(c, metas[..|metas| - 1]), last.messageType, [last])
  }

  lemma {:induction false} PlusAllAt(c: Contents, metas: seq<Meta>, t: ClassId)
    ensures At(PlusAll(c, metas), t) == At(c, t) + ForType(metas, t)
    ensures t in PlusAll(c, metas) <==> t in c || ForType(metas, t) != []
  {
    if metas != [] {
      PlusAllAt(c, metas[..|metas| - 1], t);
    }
  }

  /** The contents are, for each type, all metas accepted. */
  ghost predicate HoldsAll(c: Contents, accepted: ClassId -> seq<Meta>) {
    forall t :: IsAll(c, t, accepted(t))
  }

  ghost predicate IsAll(c: Contents, t: ClassId, all: seq<Meta>) {
    At(c, t) == all && (t in c <==> all != [])
  }

  lemma {:induction false} PlusAllHolds(c: Contents, metas: seq<Meta>, before: ClassId -> seq<Meta>,
                                        after: ClassId -> seq<Meta>)
    requires HoldsAll(c, before) && forall t :: after(t) == before(t) + ForType(metas, t)
    ensures HoldsAll(PlusAll(c, metas), after)
  {
    var sum := PlusAll(c, metas);
    forall t ensures IsAll(sum, t, after(t)) {
      assert IsAll(c, t, before(t));
      PlusAllAt(c, metas, t);
    }
  }

  lemma {:induction false} HoldsAllAs(c: Contents, before: ClassId -> seq<Meta>, after: ClassId -> seq<Meta>)
    requires HoldsAll(c, before) && forall t :: after(t) == before(t)
    ensures HoldsAll(c, after)
  {
    forall t ensures IsAll(c, t, after(t)) {
      assert IsAll(c, t, before(t));
    }
  }

  ghost predicate KeepsAll(mapping: map<ClassId, MetaList>, accepted: ClassId -> seq<Meta>)
    reads mapping.Values
  {
    HoldsAll(ContentsOf(mapping), accepted) && OwnLists(mapping)
  }

  /** `mapping.update({meta.message_type: meta for meta in metas})` */
  method UpdateMapping(mapping: map<ClassId, Meta>, metas: seq<Meta>, ghost accepted: ClassId -> seq<Meta>)
    returns (updated: map<ClassId, Meta>)
    requires KeepsLast(mapping, accepted, [])
    ensures KeepsLast(updated, accepted, metas)
  {
    updated := mapping;
    for n := 0 to |metas|
      invariant KeepsLast(updated, accepted, metas[..n])
    {
      assert metas[..n + 1][..n] == metas[..n];
      updated := updated[metas[n].messageType := metas[n]];
    }
    assert metas[..|metas|] == metas;
  }

  /** Add to the list of one type, making it if there is none. */
  method AddTo(mapping: map<ClassId, MetaList>, t: ClassId, items: seq<Meta>) returns (updated: map<ClassId, MetaList>)
    requires OwnLists(mapping)
    modifies mapping.Values
    ensures OwnLists(updated) && KeepsLists(mapping, updated) && fresh(updated.Values - mapping.Values)
    ensures ContentsOf(updated) == Plus(old(ContentsOf(mapping)), t, items)
  {
    updated := mapping;
    if t !in updated {
      var list := new MetaList(items);
      updated := updated[t := list];
      assert [] + items == items;
    } else {
      updated[t].Extend(items);
    }
  }

  /** The loop of `_register_eventlisteners`. */
  method AppendListeners(mapping: map<ClassId, MetaList>, metas: seq<Meta>) returns (updated: map<ClassId, MetaList>)
    requires OwnLists(mapping)
    modifies mapping.Values
    ensures OwnLists(updated) && KeepsLists(mapping, updated) && fresh(updated.Values - mapping.Values)
    ensures ContentsOf(updated) == PlusAll(old(ContentsOf(mapping)), metas)
  {
    updated := mapping;
    for n := 0 to |metas|
      invariant OwnLists(updated) && KeepsLists(mapping, updated) && fresh(updated.Values - mapping.Values)
      invariant ContentsOf(updated) == PlusAll(old(ContentsOf(mapping)), metas[..n])
    {
      assert metas[..n + 1][..n] == metas[..n];
      updated := AddTo(updated, metas[n].messageType, [metas[n]]);
    }
    assert metas[..|metas|] == metas;
  }

  ghost function AcceptedBy(base: Option<ClassId>, history: seq<Entry>): ClassId -> seq<Meta> {
    (t: ClassId) => Accepted(base, history, t)
  }

  /** Why a registry with this base refuses a target; without a base it never does. */
  ghost function Refusal(base: Option<ClassId>, h: Hierarchy, target: Target): Option<RegisterError> {
    if base.None? then None
    else match Claims(h, base.value, target)
      case Err(e) => Some(e)
      case Ok(_) => None
  }

  lemma {:induction false} ClaimedMetas(base: Option<ClassId>, history: seq<Entry>, h: Hierarchy, target: Target,
                                        metas: seq<Meta>, t: ClassId)
    requires base.Some? && Claims(h, base.value, target).Ok? && Realizes(metas, Claims(h, base.value, target).value)
    ensures Accepted(base, history + [Handled(h, target)], t) == Accepted(base, history, t) + ForType(metas, t)
  {
    AcceptedSnoc(base, history, Handled(h, target), t);
  }

  lemma {:induction false} RefusedMetas(base: Option<ClassId>, history: seq<Entry>, h: Hierarchy, target: Target,
                                        t: ClassId)
    requires base.None? || Refusal(base, h, target).Some?
    ensures Accepted(base, history + [Handled(h, target)], t) == Accepted(base, history, t)
  {
    AcceptedSnoc(base, history, Handled(h, target), t);
  }

  /** The error that leaves `_register`, if any: a registration failure of one
      mapping is forgiven unless the other one, too, refuses the target. */
  ghost function Escaping(commandBase: Option<ClassId>, eventBase: Option<ClassId>, h: Hierarchy, target: Target)
    : Option<RegisterError>
  {
    var command, event := Refusal(commandBase, h, target), Refusal(eventBase, h, target);
    if command.Some? && !IsHandlerRegisterFail(command.value) then command
    else if event.Some? && !IsHandlerRegisterFail(event.value) then event
    else if command.Some? then event
    else None
  }

  predicate IsFailure(e: RegisterError) {
    match e
    case MessageHandlerNotFound => true
    case InvalidHandler => true
    case InvalidMessageType(_) => true
    case NotSupportedHandlerType => false
    case ValueError => false
  }

  /** Case by case: another error of the command side escapes at once; a failure of
      it leaves the event side to decide; otherwise only other errors of that escape. */
  lemma {:induction false} EscapingIs(commandBase: Option<ClassId>, eventBase: Option<ClassId>, h: Hierarchy,
                                      target: Target)
    ensures var c, e := Refusal(commandBase, h, target), Refusal(eventBase, h, target);
      Escaping(commandBase, eventBase, h, target)
        == match c
           case Some(error) => if IsFailure(error) then e else c
           case None => if e.Some? && !IsFailure(e.value) then e else None
  {
    var c, e := Refusal(commandBase, h, target), Refusal(eventBase, h, target);
    assert c.Some? ==> (IsFailure(c.value) <==> IsHandlerRegisterFail(c.value));
    assert e.Some? ==> (IsFailure(e.value) <==> IsHandlerRegisterFail(e.value));
  }

  /** Why a function is refused. */
  lemma {:induction false} FunctionRefusal(h: Hierarchy, base: ClassId, f: Func)
    ensures var refusal := Refusal(Some(base), h, Function(f));
      if f.params == [] then refusal == Some(MessageHandlerNotFound)
      else match FirstGeneric(f.params[0].annotation)
           case Some(origin) => refusal == Some(InvalidMessageType(origin))
           case None =>
             refusal == if StandsFor(h, base, f.params[0].annotation, Closure(h, Leaves(f.params[0].annotation)))
                        then None else Some(InvalidHandler)
  {
  }

  /** Why a service is refused: for its first method that raises, or because
      nothing is left. Anything that is neither a function nor a service is refused. */
  lemma {:induction false} ServiceRefusal(h: Hierarchy, base: ClassId, cls: ClassId, members: seq<Member>)
    ensures forall k :: 0 <= k < |members| && FirstRaises(members, k) ==>
      Refusal(Some(base), h, Service(cls, members)) == Some(RaisedBy(members[k]))
    ensures (forall m :: m in members ==> !MethodRaises(m)) ==>
      Refusal(Some(base), h, Service(cls, members))
        == if exists meta :: SomeGives(h, base, cls, members, meta) then None else Some(MessageHandlerNotFound)
    ensures Refusal(Some(base), h, Unsupported) == Some(NotSupportedHandlerType)
  {
    forall k | 0 <= k < |members| && FirstRaises(members, k)
      ensures MemberClaims(h, base, cls, members) == Err(RaisedBy(members[k]))
    {
      RaisesFirst(h, base, cls, members, k);
    }
    ServiceGives(h, base, cls, members, 0, Meta(0, 0, false, false, {}, None));
    if forall m :: m in members ==> !MethodRaises(m) {
      EmptyIffNoneGives(h, base, cls, members);
    }
  }

  lemma {:induction false} RaisesFirst(h: Hierarchy, base: ClassId, cls: ClassId, members: seq<Member>, k: nat)
    requires k < |members| && FirstRaises(members, k)
    ensures MemberClaims(h, base, cls, members) == Err(RaisedBy(members[k]))
  {
    ServiceGives(h, base, cls, members[..k], 0, Meta(0, 0, false, false, {}, None));
    MemberGives(h, base, cls, members[k], 0);
    assert members[..k + 1][..k] == members[..k];
    FailedMember(h, base, cls, members, k + 1);
  }

  lemma {:induction false} EmptyIffNoneGives(h: Hierarchy, base: ClassId, cls: ClassId, members: seq<Member>)
    requires MemberClaims(h, base, cls, members).Ok?
    ensures ClaimsNothing(MemberClaims(h, base, cls, members).value) <==>
      forall meta :: !SomeGives(h, base, cls, members, meta)
  {
    var claims := MemberClaims(h, base, cls, members).value;
    if c :| c in claims && c.types != {} {
      var t :| t in c.types;
      SomeClaimed(claims, t);
      var meta := PerType(claims, t)[0];
      assert meta in PerType(claims, t);
      ServiceGives(h, base, cls, members, t, meta);
    }
    if meta :| SomeGives(h, base, cls, members, meta) {
      ServiceGives(h, base, cls, members, meta.messageType, meta);
      SomeClaimed(claims, meta.messageType);
    }
  }

  /** A registration failure escapes exactly when both bases are configured and
      both mappings refuse the target for such a failure. */
  lemma {:induction false} FailureEscapesIffBothRefuse(commandBase: Option<ClassId>, eventBase: Option<ClassId>,
                                                       h: Hierarchy, target: Target)
    ensures var error := Escaping(commandBase, eventBase, h, target);
            (error.Some? && IsHandlerRegisterFail(error.value)) <==>
              (&& commandBase.Some? && Refusal(commandBase, h, target).Some?
               && eventBase.Some? && Refusal(eventBase, h, target).Some?
               && IsHandlerRegisterFail(Refusal(commandBase, h, target).value))
  {
    if commandBase.Some? && eventBase.Some? {
      var a, b := Claims(h, commandBase.value, target), Claims(h, eventBase.value, target);
      if a.Err? && !IsHandlerRegisterFail(a.error) {
        SeriousErrorsIgnoreBase(h, commandBase.value, eventBase.value, target);
      }
      if b.Err? && !IsHandlerRegisterFail(b.error) {
        SeriousErrorsIgnoreBase(h, eventBase.value, commandBase.value, target);
      }
    }
  }

  lemma {:induction false} MembersDerive(h: Hierarchy, base: ClassId, cls: ClassId, members: seq<Member>, c: Claim)
    requires MemberClaims(h, base, cls, members).Ok? && c in MemberClaims(h, base, cls, members).value
    ensures AllDerive(h, c.types, base)
  {
    var before := members[..|members| - 1];
    if c in MemberClaims(h, base, cls, before).value {
      MembersDerive(h, base, cls, before, c);
    }
  }

  /** Whatever registration gives a type a handler or listener, the type derives
      from the base as the classes stood at that registration. */
  lemma {:induction false} GivenTypeDerives(base: ClassId, entry: Entry, t: ClassId)
    requires Given(Some(base), entry, t) != []
    ensures entry.Handled? && IsSubclass(entry.h, t, base)
  {
    var claims := Claims(entry.h, base, entry.target).value;
    SomeClaimed(claims, t);
    var c :| c in claims && t in c.types;
    if entry.target.Service? {
      MembersDerive(entry.h, base, entry.target.cls, entry.target.members, c);
    }
  }

  ghost predicate GivenBySubclass(base: ClassId, entry: Entry, t: ClassId, meta: Meta) {
    entry.Handled? && IsSubclass(entry.h, t, base) && meta in Given(Some(base), entry, t)
  }

  /** Every meta a type ever had comes from a registration, and from none at
      which the type did not derive from the base. */
  lemma {:induction false} AcceptedTypesDerive(base: ClassId, history: seq<Entry>, t: ClassId, meta: Meta)
    ensures meta in Accepted(Some(base), history, t) <==>
      exists entry :: entry in history && GivenBySubclass(base, entry, t, meta)
  {
    InFlatMapIff(GivenBy(Some(base), t), history, meta);
    forall entry | entry in history && meta in Given(Some(base), entry, t) {
      GivenTypeDerives(base, entry, t);
    }
  }

  ghost predicate KeepsGuardsOf(mapping: map<ClassId, seq<GuardMeta>>, history: seq<Entry>, t: ClassId) {
    GuardsFor(history, t) == At(mapping, t)
  }

  /** The mapping holds the guards the history gives each type. */
  ghost predicate KeepsGuards(mapping: map<ClassId, seq<GuardMeta>>, history: seq<Entry>) {
    forall t :: KeepsGuardsOf(mapping, history, t)
  }

  /** No guard object the registry made is registered in two places. */
  ghost predicate Unaliased(mapping: map<ClassId, seq<GuardMeta>>) {
    forall t, u, i, j :: t in mapping && u in mapping && 0 <= i < |mapping[t]| && 0 <= j < |mapping[u]| ==>
      mapping[t][i].guard.Instance? && mapping[t][i].guard == mapping[u][j].guard ==> t == u && i == j
  }

  datatype CallableKind = IsClass | IsFunction | IsOther

  /** A callable offered as a guard; the parameters of a class are those of its
      `__call__`, with `self` in front. */
  datatype GuardCallable = GuardCallable(id: FuncId, kind: CallableKind, params: seq<Param>)

  function OwnParams(g: GuardCallable): seq<Param> {
    if g.kind.IsClass? && g.params != [] then g.params[1..] else g.params
  }

  function Itself(g: GuardCallable): GuardRef {
    if g.kind.IsFunction? then GuardFunction(g.id) else GuardClass(g.id)
  }

  /** The targets of a guard: the closure of its first parameter's annotation. */
  ghost function GuardTargets(h: Hierarchy, g: GuardCallable): Result<set<ClassId>, RegisterError> {
    if g.kind.IsOther? || OwnParams(g) == [] then Err(MessageHandlerNotFound)
    else match Gathered(h, OwnParams(g)[0].annotation)
      case Err(origin) => Err(InvalidMessageType(origin))
      case Ok(types) => Ok(types)
  }

  /** The annotation that decides: of the first parameter of a function, and of
      the one behind `self` of a class. */
  predicate Decides(g: GuardCallable, a: Annotation) {
    || (g.kind.IsFunction? && |g.params| >= 1 && a == g.params[0].annotation)
    || (g.kind.IsClass? && |g.params| >= 2 && a == g.params[1].annotation)
  }

  /** The targets are the closure of the deciding annotation; without one, or for
      an object, there is an error, and so for a generic. */
  lemma {:induction false} TargetsAreClosure(h: Hierarchy, g: GuardCallable)
    ensures forall a :: Decides(g, a) ==>
      GuardTargets(h, g) == match FirstGeneric(a)
                            case None => Ok(Closure(h, Leaves(a)))
                            case Some(origin) => Err(InvalidMessageType(origin))
    ensures (forall a :: !Decides(g, a)) ==> GuardTargets(h, g) == Err(MessageHandlerNotFound)
  {
    if g.kind.IsFunction? && |g.params| >= 1 {
      assert Decides(g, g.params[0].annotation);
    }
    if g.kind.IsClass? && |g.params| >= 2 {
      assert Decides(g, g.params[1].annotation);
    }
  }

  method GetGuardTarget(h: Hierarchy, g: GuardCallable) returns (r: Result<set<ClassId>, RegisterError>)
    ensures r == GuardTargets(h, g)
    ensures g.kind.IsClass? && |g.params| >= 2 && FirstGeneric(g.params[1].annotation) == None ==>
      r == Ok(Closure(h, Leaves(g.params[1].annotation)))
    ensures g.kind.IsFunction? && |g.params| >= 1 && FirstGeneric(g.params[0].annotation) == None ==>
      r == Ok(Closure(h, Leaves(g.params[0].annotation)))
    ensures (forall a :: !Decides(g, a)) ==> r == Err(MessageHandlerNotFound)
  {
    TargetsAreClosure(h, g);
    if g.kind.IsOther? {
      return Err(MessageHandlerNotFound);
    }
    var params := OwnParams(g);
    if params == [] {
      return Err(MessageHandlerNotFound);
    }
    var types := GatherTypes(h, params[0].annotation);
    r := if types.Ok? then Ok(types.value) else Err(InvalidMessageType(types.error));
  }

  class MessageRegistry {
    const commandBase: Option<ClassId>
    const eventBase: Option<ClassId>
    var commandMapping: map<ClassId, Meta>
    var eventMapping: map<ClassId, MetaList>
    var guardMapping: map<ClassId, seq<GuardMeta>>
    ghost var history: seq<Entry>

    constructor (commandBase: Option<ClassId>, eventBase: Option<ClassId>)
      ensures Valid() && history == [] && this.commandBase == commandBase && this.eventBase == eventBase
      ensures eventMapping == map[]
    {
      this.commandBase, this.eventBase := commandBase, eventBase;
      commandMapping, eventMapping, guardMapping, history := map[], map[], map[], [];
    }

    /** The three mappings are what the history says, whatever the order in
        which sets of types were iterated. */
    ghost predicate Consistent()
      reads this, eventMapping.Values
    {
      && KeepsLast(commandMapping, AcceptedBy(commandBase, history), [])
      && KeepsAll(eventMapping, AcceptedBy(eventBase, history))
      && KeepsGuards(guardMapping, history)
    }

    ghost predicate Valid()
      reads this, eventMapping.Values
    {
      Consistent() && Unaliased(guardMapping)
    }

    method RegisterCommandHandlers(h: Hierarchy, target: Target) returns (refusal: Option<RegisterError>)
      requires KeepsLast(commandMapping, AcceptedBy(commandBase, history), [])
      modifies this`commandMapping
      ensures refusal == Refusal(commandBase, h, target)
      ensures refusal.None? ==> KeepsLast(commandMapping, AcceptedBy(commandBase, history + [Handled(h, target)]), [])
      ensures refusal.Some? || commandBase.None? ==> commandMapping == old(commandMapping)
    {
      if commandBase.None? {
        forall t { RefusedMetas(commandBase, history, h, target, t); }
        KeepsLastAs(commandMapping, AcceptedBy(commandBase, history), [],
          AcceptedBy(commandBase, history + [Handled(h, target)]));
        return None;
      }
      var metas := GetMetas(h, commandBase.value, target);
      if metas.Err? {
        return Some(metas.error);
      }
      commandMapping := UpdateMapping(commandMapping, metas.value, AcceptedBy(commandBase, history));
      forall t { ClaimedMetas(commandBase, history, h, target, metas.value, t); }
      KeepsLastAs(commandMapping, AcceptedBy(commandBase, history), metas.value,
        AcceptedBy(commandBase, history + [Handled(h, target)]));
      return None;
    }

    method RegisterEventListeners(h: Hierarchy, target: Target) returns (refusal: Option<RegisterError>)
      requires KeepsAll(eventMapping, AcceptedBy(eventBase, history))
      modifies this`eventMapping, eventMapping.Values
      ensures refusal == Refusal(eventBase, h, target)
      ensures refusal.None? ==> KeepsAll(eventMapping, AcceptedBy(eventBase, history + [Handled(h, target)]))
      ensures refusal.Some? ==> eventMapping == old(eventMapping) && forall l :: l in eventMapping.Values ==>
        unchanged(l)
      ensures fresh(eventMapping.Values - old(eventMapping.Values))
    {
      if eventBase.None? {
        forall t { RefusedMetas(eventBase, history, h, target, t); }
        HoldsAllAs(ContentsOf(eventMapping), AcceptedBy(eventBase, history),
          AcceptedBy(eventBase, history + [Handled(h, target)]));
        return None;
      }
      var metas := GetMetas(h, eventBase.value, target);
      if metas.Err? {
        return Some(metas.error);
      }
      ghost var before := ContentsOf(eventMapping);
      eventMapping := AppendListeners(eventMapping, metas.value);
      forall t { ClaimedMetas(eventBase, history, h, target, metas.value, t); }
      PlusAllHolds(before, metas.value, AcceptedBy(eventBase, history),
        AcceptedBy(eventBase, history + [Handled(h, target)]));
      return None;
    }

    /** `_register`: all or nothing for each target. */
    method Register(h: Hierarchy, target: Target) returns (error: Option<RegisterError>)
      requires Valid()
      modifies this`commandMapping, this`eventMapping, this`history, eventMapping.Values
      ensures Valid() && fresh(eventMapping.Values - old(eventMapping.Values))
      ensures error == Escaping(commandBase, eventBase, h, target)
      ensures error.None? ==> history == old(history) + [Handled(h, target)]
      ensures error.Some? ==>
        && history == old(history) && commandMapping == old(commandMapping) && eventMapping == old(eventMapping)
        && forall l :: l in eventMapping.Values ==> unchanged(l)
    {
      var refusal := RegisterCommandHandlers(h, target);
      if refusal.Some? {
        if !IsHandlerRegisterFail(refusal.value) {
          return refusal;
        }
        error := RegisterAsListener(h, target);
      } else {
        error := TryListener(h, target);
      }
    }

    /** The `except` branch: the target may still be a listener. */
    method RegisterAsListener(h: Hierarchy, target: Target) returns (error: Option<RegisterError>)
      requires Valid() && Refusal(commandBase, h, target).Some?
      modifies this`eventMapping, this`history, eventMapping.Values
      ensures Valid() && fresh(eventMapping.Values - old(eventMapping.Values))
      ensures error == Refusal(eventBase, h, target)
      ensures error.None? ==> history == old(history) + [Handled(h, target)]
      ensures error.Some? ==> history == old(history) && eventMapping == old(eventMapping)
      ensures error.Some? ==> forall l :: l in eventMapping.Values ==> unchanged(l)
    {
      error := RegisterEventListeners(h, target);
      if error.None? {
        RefusedCommand(h, target);
        Record(Handled(h, target));
      }
    }

    /** The command handlers are in place; a registration failure for events is dropped. */
    method TryListener(h: Hierarchy, target: Target) returns (error: Option<RegisterError>)
      requires Refusal(commandBase, h, target).None?
      requires KeepsLast(commandMapping, AcceptedBy(commandBase, history + [Handled(h, target)]), [])
      requires KeepsAll(eventMapping, AcceptedBy(eventBase, history))
      requires KeepsGuards(guardMapping, history) && Unaliased(guardMapping)
      modifies this`eventMapping, this`history, eventMapping.Values
      ensures fresh(eventMapping.Values - old(eventMapping.Values))
      ensures error == Escaping(commandBase, eventBase, h, target)
      ensures error.None? ==> Valid() && history == old(history) + [Handled(h, target)]
      ensures error.Some? ==> commandBase.None? && history == old(history) && eventMapping == old(eventMapping)
      ensures error.Some? ==> forall l :: l in eventMapping.Values ==> unchanged(l)
    {
      var dropped := RegisterEventListeners(h, target);
      if dropped.Some? && !IsHandlerRegisterFail(dropped.value) {
        if commandBase.Some? {
          SeriousErrorsIgnoreBase(h, eventBase.value, commandBase.value, target);
        }
        return dropped;
      }
      if dropped.Some? {
        RefusedEvent(h, target);
      }
      Record(Handled(h, target));
      return None;
    }

    ghost method Record(entry: Entry)
      requires entry.Handled? && KeepsGuards(guardMapping, history) && Unaliased(guardMapping)
      requires KeepsLast(commandMapping, AcceptedBy(commandBase, history + [entry]), [])
      requires KeepsAll(eventMapping, AcceptedBy(eventBase, history + [entry]))
      modifies this`history
      ensures Valid() && history == old(history) + [entry]
    {
      forall t ensures KeepsGuardsOf(guardMapping, history + [entry], t) {
        assert KeepsGuardsOf(guardMapping, history, t);
        AcceptedSnoc(None, history, entry, t);
      }
      history := history + [entry];
    }

    lemma {:induction false} RefusedCommand(h: Hierarchy, target: Target)
      requires KeepsLast(commandMapping, AcceptedBy(commandBase, history), []) && Refusal(commandBase, h, target).Some?
      ensures KeepsLast(commandMapping, AcceptedBy(commandBase, history + [Handled(h, target)]), [])
    {
      forall t { RefusedMetas(commandBase, history, h, target, t); }
      KeepsLastAs(commandMapping, AcceptedBy(commandBase, history), [],
        AcceptedBy(commandBase, history + [Handled(h, target)]));
    }

    lemma {:induction false} RefusedEvent(h: Hierarchy, target: Target)
      requires KeepsAll(eventMapping, AcceptedBy(eventBase, history)) && Refusal(eventBase, h, target).Some?
      ensures KeepsAll(eventMapping, AcceptedBy(eventBase, history + [Handled(h, target)]))
    {
      forall t { RefusedMetas(eventBase, history, h, target, t); }
      HoldsAllAs(ContentsOf(eventMapping), AcceptedBy(eventBase, history),
        AcceptedBy(eventBase, history + [Handled(h, target)]));
    }

    method AppendGuard(t: ClassId, shared: Option<GuardRef>, pre: Option<FuncId>, post: Option<FuncId>)
      returns (guard: GuardRef)
      requires Unaliased(guardMapping) && (shared.Some? ==> !shared.value.Instance?)
      modifies this`guardMapping
      ensures guardMapping == WithGuard(old(guardMapping), t, guard) && Unaliased(guardMapping)
      ensures MadeFor(guard, shared, pre, post) && (guard.Instance? ==> fresh(guard.guard))
    {
      if shared.Some? {
        guard := shared.value;
      } else {
        var made := new Guard(pre, post);
        guard := Instance(made);
      }
      StaysUnaliased(guardMapping, t, guard);
      guardMapping := WithGuard(guardMapping, t, guard);
    }

    /** One meta per target, in any order of the set: a new `Guard` for each, or
        the given class or function for all. */
    method AppendGuards(targets: set<ClassId>, shared: Option<GuardRef>, pre: Option<FuncId>, post: Option<FuncId>)
      returns (ghost refs: map<ClassId, GuardRef>)
      requires Valid() && (shared.Some? ==> !shared.value.Instance?)
      modifies this`guardMapping, this`history
      ensures Valid() && history == old(history) + [Guarded(refs)] && refs.Keys == targets
      ensures forall t :: t in refs ==>
        MadeFor(refs[t], shared, pre, post) && (refs[t].Instance? ==> fresh(refs[t].guard))
    {
      refs := map[];
      var rest := targets;
      BeginGuards(guardMapping, history);
      while rest != {}
        invariant rest <= targets && refs.Keys == targets - rest && history == old(history)
        invariant KeepsGuards(guardMapping, history + [Guarded(refs)]) && Unaliased(guardMapping)
        invariant forall t :: t in refs ==>
          MadeFor(refs[t], shared, pre, post) && (refs[t].Instance? ==> fresh(refs[t].guard))
        decreases rest
      {
        var t :| t in rest;
        ghost var before := guardMapping;
        var guard := AppendGuard(t, shared, pre, post);
        ExtendGuards(before, history, refs, t, guard);
        refs := refs[t := guard];
        rest := rest - {t};
      }
      KeepsHandlers(Guarded(refs));
      history := history + [Guarded(refs)];
    }

    lemma {:induction false} KeepsHandlers(entry: Entry)
      requires entry.Guarded?
      requires KeepsLast(commandMapping, AcceptedBy(commandBase, history), [])
      requires KeepsAll(eventMapping, AcceptedBy(eventBase, history))
      ensures KeepsLast(commandMapping, AcceptedBy(commandBase, history + [entry]), [])
      ensures KeepsAll(eventMapping, AcceptedBy(eventBase, history + [entry]))
    {
      forall t { AcceptedSnoc(commandBase, history, entry, t); }
      forall t { AcceptedSnoc(eventBase, history, entry, t); }
      KeepsLastAs(commandMapping, AcceptedBy(commandBase, history), [], AcceptedBy(commandBase, history + [entry]));
      HoldsAllAs(ContentsOf(eventMapping), AcceptedBy(eventBase, history), AcceptedBy(eventBase, history + [entry]));
    }

    /** `pre_handle`: every target gets a guard object of its own. */
    method PreHandle(h: Hierarchy, g: GuardCallable)
      returns (error: Option<RegisterError>, ghost refs: map<ClassId, GuardRef>)
      requires Valid()
      modifies this`guardMapping, this`history
      ensures Valid()
      ensures GuardTargets(h, g).Err? ==>
        error == Some(GuardTargets(h, g).error) && history == old(history) && guardMapping == old(guardMapping)
      ensures GuardTargets(h, g).Ok? ==>
        (&& error == None
         && refs.Keys == GuardTargets(h, g).value && history == old(history) + [Guarded(refs)]
         && forall t :: t in refs ==>
              && refs[t].Instance? && fresh(refs[t].guard)
              && refs[t].guard.preHandle == Some(g.id) && refs[t].guard.postHandle == None)
    {
      refs := map[];
      var targets := GetGuardTarget(h, g);
      if targets.Err? {
        return Some(targets.error), refs;
      }
      refs := AppendGuards(targets.value, None, Some(g.id), None);
      error := None;
    }

    /** `post_handle`, likewise. */
    method PostHandle(h: Hierarchy, g: GuardCallable)
      returns (error: Option<RegisterError>, ghost refs: map<ClassId, GuardRef>)
      requires Valid()
      modifies this`guardMapping, this`history
      ensures Valid()
      ensures GuardTargets(h, g).Err? ==>
        error == Some(GuardTargets(h, g).error) && history == old(history) && guardMapping == old(guardMapping)
      ensures GuardTargets(h, g).Ok? ==>
        (&& error == None
         && refs.Keys == GuardTargets(h, g).value && history == old(history) + [Guarded(refs)]
         && forall t :: t in refs ==>
              && refs[t].Instance? && fresh(refs[t].guard)
              && refs[t].guard.preHandle == None && refs[t].guard.postHandle == Some(g.id))
    {
      refs := map[];
      var targets := GetGuardTarget(h, g);
      if targets.Err? {
        return Some(targets.error), refs;
      }
      refs := AppendGuards(targets.value, None, None, Some(g.id));
      error := None;
    }

    /** `add_guards` for one guard: a class is shared by all its targets, and so
        is a plain function, which is not a guard. A guard object is neither a
        class nor a function, and is refused. */
    method AddGuard(h: Hierarchy, g: GuardCallable)
      returns (error: Option<RegisterError>, ghost refs: map<ClassId, GuardRef>)
      requires Valid()
      modifies this`guardMapping, this`history
      ensures Valid()
      ensures g.kind.IsOther? ==> error == Some(MessageHandlerNotFound)
      ensures GuardTargets(h, g).Err? ==>
        error == Some(GuardTargets(h, g).error) && history == old(history) && guardMapping == old(guardMapping)
      ensures GuardTargets(h, g).Ok? ==>
        (&& error == None
         && refs.Keys == GuardTargets(h, g).value && history == old(history) + [Guarded(refs)]
         && forall t :: t in refs ==> refs[t] == if g.kind.IsClass? then GuardClass(g.id) else GuardFunction(g.id))
      ensures g.kind.IsClass? && |g.params| >= 2 && FirstGeneric(g.params[1].annotation) == None ==>
        error == None && refs.Keys == Closure(h, Leaves(g.params[1].annotation))
    {
      refs := map[];
      var targets := GetGuardTarget(h, g);
      if targets.Err? {
        return Some(targets.error), refs;
      }
      refs := AppendGuards(targets.value, Some(Itself(g)), None, None);
      error := None;
    }
  }

  /** What was registered itself, or an object with the given handles. */
  predicate MadeFor(ref: GuardRef, shared: Option<GuardRef>, pre: Option<FuncId>, post: Option<FuncId>) {
    if shared.Some? then ref == shared.value
    else ref.Instance? && ref.guard.preHandle == pre && ref.guard.postHandle == post
  }

  function WithGuard(mapping: map<ClassId, seq<GuardMeta>>, t: ClassId, guard: GuardRef): map<ClassId, seq<GuardMeta>> {
    Plus(mapping, t, [GuardMeta(t, guard)])
  }

  lemma {:induction false} BeginGuards(mapping: map<ClassId, seq<GuardMeta>>, history: seq<Entry>)
    requires KeepsGuards(mapping, history)
    ensures KeepsGuards(mapping, history + [Guarded(map[])])
  {
    forall t ensures KeepsGuardsOf(mapping, history + [Guarded(map[])], t) {
      assert KeepsGuardsOf(mapping, history, t);
      AcceptedSnoc(None, history, Guarded(map[]), t);
    }
  }

  lemma {:induction false} ExtendGuards(mapping: map<ClassId, seq<GuardMeta>>, history: seq<Entry>,
                                        refs: map<ClassId, GuardRef>, t: ClassId, guard: GuardRef)
    requires KeepsGuards(mapping, history + [Guarded(refs)]) && t !in refs
    ensures KeepsGuards(WithGuard(mapping, t, guard), history + [Guarded(refs[t := guard])])
  {
    var updated, longer := WithGuard(mapping, t, guard), history + [Guarded(refs[t := guard])];
    forall u ensures KeepsGuardsOf(updated, longer, u) {
      assert KeepsGuardsOf(mapping, history + [Guarded(refs)], u);
      AcceptedSnoc(None, history, Guarded(refs), u);
      AcceptedSnoc(None, history, Guarded(refs[t := guard]), u);
    }
  }

  lemma {:induction false} StaysUnaliased(mapping: map<ClassId, seq<GuardMeta>>, t: ClassId, guard: GuardRef)
    requires Unaliased(mapping)
    requires guard.Instance? ==> forall u, i :: u in mapping && 0 <= i < |mapping[u]| ==> mapping[u][i].guard != guard
    ensures Unaliased(WithGuard(mapping, t, guard))
  {
  }
}
