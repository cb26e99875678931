/**
 * `classify(superclazz, props)` of v0.0.1: builds the new prototype with
 * `new superclazz()`, strips that object's own properties, and falls back to
 * the script's single `noop` function when `initialize` is missing.
 */
module Classify {
  import opened Basics
  import opened ArgNames
  import opened JsHeap
  import opened Interp
  import opened Members

  /** `function noop() {}`. */
  function NoopCode(): Code {
    Source(FunctionText(" noop", "", " {}"), [])
  }

  /** Loading the script creates `noop` once; every later definition shares it. */
  function Load(h: Heap): (r: (Heap, Ref))
    ensures r.1 == |h| && CodeOf(r.0, Obj(r.1)) == Some(NoopCode())
  {
    AllocFunction(h, NoopCode())
  }

  /** `props.initialize || noop`, wrapped when its first parameter is `$super`. */
  function Initializer(h: Heap, superclazz: Val, init: Val, noop: Ref): Result<(Heap, Val), Exception> {
    var clazz := if Truthy(init) then init else Obj(noop);
    match ArgumentNamesOf(h, clazz)
    case None => Err(TypeError("cannot read property '1' of null"))
    case Some(names) =>
      if DeclaresSuper(names) then
        var (h1, c) := AllocFunction(h, InitWrapper(clazz, superclazz));
        Ok((h1, Obj(c)))
      else Ok((h, clazz))
  }

  /** `v` with every own property deleted. */
  function WithoutOwn(h: Heap, v: Val): (h': Heap)
    ensures |h'| == |h|
  {
    if v.Obj? && v.ref < |h| then h[v.ref := h[v.ref].(own := map[])] else h
  }

  /** Everything decided before the members are copied. */
  datatype Stage = Stage(heap: Heap, props: Val, clazz: Val, proto: Val, superproto: Val)

  /** The builder up to the `each(props, ...)` loop. */
  function Prepare(h: Heap, args: seq<Val>, noop: Ref, fuel: nat): Result<Stage, Exception> {
    if |args| == 0 || !Truthy(args[0]) then Err(Error("Super class not defined"))
    else
      var (superclazz, given) := Arguments(args);
      if IsFunction(h, given) then
        match Call(h, given, Undefined, [PrototypeOf(h, superclazz)], fuel)
        case Threw(e) => Err(e)
        case Done(h1, props) => ClassFor(h1, superclazz, props, noop, fuel)
      else ClassFor(h, superclazz, given, noop, fuel)
  }

  /** From reading `props.initialize` to reading `superclazz.prototype` as the super source. */
  function ClassFor(h: Heap, superclazz: Val, props: Val, noop: Ref, fuel: nat): Result<Stage, Exception> {
    match GetV(h, props, "initialize")
    case None => Err(TypeError("cannot read property 'initialize'"))
    case Some(init) =>
      match Initializer(h, superclazz, init, noop)
      case Err(e) => Err(e)
      case Ok((h1, clazz)) =>
        match Construct(h1, superclazz, [], fuel)
        case Threw(e) => Err(e)
        case Done(h2, proto) =>
          var h3 := Relink(h2, clazz, proto);
          Ok(Stage(h3, props, clazz, proto, PrototypeOf(h3, superclazz)))
  }

  /** `clazzConstructor.prototype = proto`, the deletion loop, then `proto.constructor = clazzConstructor`. */
  function Relink(h: Heap, clazz: Val, proto: Val): Heap {
    Put(WithoutOwn(Put(h, clazz, "prototype", proto), proto), proto, "constructor", clazz)
  }

  /**
   * `classify(args...)` with the member mapping enumerated in the order
   * `keys`, `noop` being the script's shared function: the heap afterwards
   * and the class constructor, or what it throws.
   */
  function Build(h: Heap, args: seq<Val>, keys: seq<string>, noop: Ref, fuel: nat): Result<(Heap, Val), Exception> {
    match Prepare(h, args, noop, fuel)
    case Err(e) => Err(e)
    case Ok(st) =>
      match Populate(st.heap, st.proto, st.props, keys, Fixed(st.superproto))
      case Err(e) => Err(e)
      case Ok(h') => Ok((h', st.clazz))
  }

  /** `for (var key in proto) if (proto.hasOwnProperty(key)) delete proto[key];`, in place. */
  method DeleteOwn(realm: Realm, proto: Val)
    modifies realm
    ensures realm.heap == WithoutOwn(old(realm.heap), proto)
  {
    if proto.Obj? && proto.ref < |realm.heap| {
      var r := proto.ref;
      while realm.heap[r].own != map[]
        invariant |realm.heap| == |old(realm.heap)|
        invariant realm.heap == old(realm.heap)[r := old(realm.heap)[r].(own := realm.heap[r].own)]
        decreases realm.heap[r].own.Keys
      {
        var key :| key in realm.heap[r].own;
        realm.heap := Delete(realm.heap, proto, key);
      }
    }
  }

  /** `classify(args...)` run in place on the realm. */
  method Define(realm: Realm, args: seq<Val>, keys: seq<string>, noop: Ref, fuel: nat)
    returns (outcome: Result<Val, Exception>)
    modifies realm
    ensures match Build(old(realm.heap), args, keys, noop, fuel)
      case Ok((h', clazz)) => outcome == Ok(clazz) && realm.heap == h'
      case Err(e) => outcome == Err(e)
  {
    if |args| == 0 || !Truthy(args[0]) {
      return Err(Error("Super class not defined"));
    }
    var superclazz, props := Arguments(args).0, Arguments(args).1;
    if IsFunction(realm.heap, props) {
      match Call(realm.heap, props, Undefined, [PrototypeOf(realm.heap, superclazz)], fuel)
      case Threw(e) =>
        return Err(e);
      case Done(h1, v) =>
        realm.heap, props := h1, v;
    }
    var init := GetV(realm.heap, props, "initialize");
    if init.None? {
      return Err(TypeError("cannot read property 'initialize'"));
    }
    var clazz := if Truthy(init.value) then init.value else Obj(noop);
    var names := ArgumentNamesOf(realm.heap, clazz);
    if names.None? {
      return Err(TypeError("cannot read property '1' of null"));
    }
    if DeclaresSuper(names.value) {
      var (h2, c) := AllocFunction(realm.heap, InitWrapper(clazz, superclazz));
      realm.heap, clazz := h2, Obj(c);
    }
    var proto;
    match Construct(realm.heap, superclazz, [], fuel)
    case Threw(e) =>
      return Err(e);
    case Done(h3, p) =>
      realm.heap, proto := Put(h3, clazz, "prototype", p), p;
    DeleteOwn(realm, proto);
    realm.heap := Put(realm.heap, proto, "constructor", clazz);
    var superproto := PrototypeOf(realm.heap, superclazz);
    var filled := Fill(realm, proto, props, keys, Fixed(superproto));
    if filled.Err? {
      return Err(filled.error);
    }
    outcome := Ok(clazz);
  }

  // ---------------------------------------------------------------------
  // Properties
  // ---------------------------------------------------------------------

  /** The definition fails with "Super class not defined" exactly when the first argument is falsy. */
  lemma MissingSuperclass(h: Heap, args: seq<Val>, keys: seq<string>, noop: Ref, fuel: nat)
    ensures Build(h, args, keys, noop, fuel) == Err(Error("Super class not defined"))
        <==> |args| == 0 || !Truthy(args[0])
  {
    if |args| > 0 && Truthy(args[0]) {
      var (superclazz, given) := Arguments(args);
      var h1, props := h, given;
      if IsFunction(h, given) {
        CallNoError(h, given, Undefined, [PrototypeOf(h, superclazz)], fuel);
        if Call(h, given, Undefined, [PrototypeOf(h, superclazz)], fuel).Done? {
          h1, props := Call(h, given, Undefined, [PrototypeOf(h, superclazz)], fuel).heap,
            Call(h, given, Undefined, [PrototypeOf(h, superclazz)], fuel).value;
        }
      }
      if GetV(h1, props, "initialize").Some? {
        var init := GetV(h1, props, "initialize").value;
        if Initializer(h1, superclazz, init, noop).Ok? {
          ConstructNoError(Initializer(h1, superclazz, init, noop).value.0, superclazz, [], fuel);
        }
      }
      if Prepare(h, args, noop, fuel).Ok? {
        var st := Prepare(h, args, noop, fuel).value;
        PopulateErrors(st.heap, st.proto, st.props, keys, Fixed(st.superproto));
        forall k: string
          ensures Error("No super method found for '" + k + "'") != Error("Super class not defined")
        {
          assert ("No super method found for '" + k + "'")[0] == 'N';
        }
      }
    }
  }

  /** A single argument is the member mapping of a direct subclass of `Object`. */
  lemma OneArgument(h: Heap, props: Val, keys: seq<string>, noop: Ref, fuel: nat)
    requires Truthy(props)
    ensures Build(h, [props], keys, noop, fuel) == Build(h, [Obj(ObjectConstructor), props], keys, noop, fuel)
  {
  }

  /** A factory is called with `superclazz.prototype`, and what it returns is the member mapping. */
  lemma Factory(h: Heap, superclazz: Val, factory: Val, keys: seq<string>, noop: Ref, fuel: nat)
    requires Truthy(superclazz) && IsFunction(h, factory)
    ensures var made := Call(h, factory, Undefined, [PrototypeOf(h, superclazz)], fuel);
      (made.Threw? ==> Build(h, [superclazz, factory], keys, noop, fuel) == Err(made.exc))
      && (made.Done? && !IsFunction(made.heap, made.value) ==>
            Build(h, [superclazz, factory], keys, noop, fuel) == Build(made.heap, [superclazz, made.value], keys, noop, fuel))
  {
  }

  /** `noop` declares no parameters, so it is never wrapped. */
  lemma NoopNames(h: Heap, noop: Ref)
    requires CodeOf(h, Obj(noop)) == Some(NoopCode())
    ensures ArgumentNamesOf(h, Obj(noop)) == Some([""]) && !DeclaresSuper([""])
  {
    ParameterlessNames(" noop", " {}");
  }

  /**
   * After relinking, the prototype's only own property is `constructor`, and
   * the constructor's `prototype` is the prototype.
   */
  ghost predicate Relinked(h: Heap, clazz: Val, proto: Val) {
    (proto.Obj? && proto.ref < |h| ==> h[proto.ref].own == map["constructor" := clazz])
    && (clazz.Obj? && clazz.ref < |h| && clazz != proto ==>
          "prototype" in h[clazz.ref].own && h[clazz.ref].own["prototype"] == proto)
  }

  /** Relinking changes own properties only, and leaves the two objects linked. */
  lemma RelinkShape(h: Heap, clazz: Val, proto: Val)
    ensures |Relink(h, clazz, proto)| == |h| && Relinked(Relink(h, clazz, proto), clazz, proto)
    ensures forall r :: 0 <= r < |h| ==>
      Relink(h, clazz, proto)[r].call == h[r].call && Relink(h, clazz, proto)[r].proto == h[r].proto
    ensures forall r :: 0 <= r < |h| && Obj(r) != clazz && Obj(r) != proto ==> Relink(h, clazz, proto)[r] == h[r]
  {
  }

  /** The three kinds of class constructor. */
  lemma InitializerShape(h: Heap, superclazz: Val, init: Val, noop: Ref)
    requires CodeOf(h, Obj(noop)) == Some(NoopCode())
    ensures Initializer(h, superclazz, init, noop).Ok? <==> !Truthy(init) || ArgumentNamesOf(h, init).Some?
    ensures Initializer(h, superclazz, init, noop).Ok? ==>
      var (h1, clazz) := Initializer(h, superclazz, init, noop).value;
      |h| <= |h1| && h1[..|h|] == h
      && (!Truthy(init) ==> clazz == Obj(noop))
      && (Truthy(init) && DeclaresSuper(ArgumentNamesOf(h, init).value) ==>
            clazz == Obj(|h|) && CodeOf(h1, clazz) == Some(InitWrapper(init, superclazz)))
      && (Truthy(init) && !DeclaresSuper(ArgumentNamesOf(h, init).value) ==> clazz == init)
  {
    NoopNames(h, noop);
    assert h[..|h|] == h;
  }

  /**
   * The state when the loop starts: the constructor is `noop` when
   * `initialize` is missing, a wrapper when it declares `$super`, and
   * `initialize` itself otherwise; the prototype is what `new superclazz()`
   * gave, its own properties replaced by the sole `constructor`.
   */
  lemma ClassForShape(h: Heap, superclazz: Val, props: Val, noop: Ref, fuel: nat)
    requires CodeOf(h, Obj(noop)) == Some(NoopCode())
    requires ClassFor(h, superclazz, props, noop, fuel).Ok?
    ensures GetV(h, props, "initialize").Some?
    ensures var st := ClassFor(h, superclazz, props, noop, fuel).value;
      var init := GetV(h, props, "initialize").value;
      st.props == props && st.superproto == PrototypeOf(st.heap, superclazz)
      && (!Truthy(init) ==> st.clazz == Obj(noop))
      && (Truthy(init) ==> ArgumentNamesOf(h, init).Some?)
      && (Truthy(init) && DeclaresSuper(ArgumentNamesOf(h, init).value) ==>
            st.clazz == Obj(|h|) && CodeOf(st.heap, st.clazz) == Some(InitWrapper(init, superclazz)))
      && (Truthy(init) && !DeclaresSuper(ArgumentNamesOf(h, init).value) ==> st.clazz == init)
      && Relinked(st.heap, st.clazz, st.proto)
  {
    var init := GetV(h, props, "initialize").value;
    InitializerShape(h, superclazz, init, noop);
    var (h1, clazz) := Initializer(h, superclazz, init, noop).value;
    var made := Construct(h1, superclazz, [], fuel);
    ConstructKeepsCode(h1, superclazz, [], fuel);
    RelinkShape(made.heap, clazz, made.value);
    var st := ClassFor(h, superclazz, props, noop, fuel).value;
    assert st == Stage(Relink(made.heap, clazz, made.value), props, clazz, made.value,
                       PrototypeOf(Relink(made.heap, clazz, made.value), superclazz));
    if Truthy(init) && DeclaresSuper(ArgumentNamesOf(h, init).value) {
      assert st.heap[|h|].call == made.heap[|h|].call == h1[|h|].call;
    }
  }

  /** `new Object()`: the object `new` allocates, then the fresh one `Object` returns. */
  lemma ObjectConstructs(h: Heap, fuel: nat)
    requires |h| >= 3 && h[..3] == BaseHeap() && fuel >= 2
    ensures Construct(h, Obj(ObjectConstructor), [], fuel)
      == Done(h + [Object(Some(ObjectPrototype), map[], None), Object(Some(ObjectPrototype), map[], None)], Obj(|h| + 1))
  {
    assert h[ObjectConstructor] == h[..3][ObjectConstructor];
  }

  /**
   * A one-argument definition without `initialize` returns `noop` itself and
   * stores the new prototype in `noop.prototype`.
   */
  lemma NoopClass(h: Heap, props: Val, keys: seq<string>, noop: Ref, fuel: nat)
    requires |h| >= 3 && h[..3] == BaseHeap() && 3 <= noop < |h| && CodeOf(h, Obj(noop)) == Some(NoopCode())
    requires fuel >= 2 && !IsFunction(h, props)
    requires GetV(h, props, "initialize").Some? && !Truthy(GetV(h, props, "initialize").value)
    requires Build(h, [props], keys, noop, fuel).Ok?
    ensures Prepare(h, [props], noop, fuel).Ok?
    ensures var (h', clazz) := Build(h, [props], keys, noop, fuel).value;
      clazz == Obj(noop) && Prepare(h, [props], noop, fuel).value.proto == Obj(|h| + 1)
      && |h| + 2 <= |h'| && h'[..3] == BaseHeap() && CodeOf(h', Obj(noop)) == Some(NoopCode())
      && PrototypeOf(h', clazz) == Obj(|h| + 1)
  {
    NoopNames(h, noop);
    ObjectConstructs(h, fuel);
    var h2 := h + [Object(Some(ObjectPrototype), map[], None), Object(Some(ObjectPrototype), map[], None)];
    var proto := Obj(|h| + 1);
    RelinkShape(h2, Obj(noop), proto);
    var st := Prepare(h, [props], noop, fuel).value;
    assert st.heap == Relink(h2, Obj(noop), proto) && st.clazz == Obj(noop) && st.proto == proto;
    PopulateFrame(st.heap, proto, props, keys, Fixed(st.superproto));
    var h' := Build(h, [props], keys, noop, fuel).value.0;
    assert h'[noop] == st.heap[noop];
    forall r | 0 <= r < 3
      ensures h'[r] == BaseHeap()[r]
    {
      assert h'[r] == st.heap[r] == h2[r] == h[..3][r];
    }
  }

  /**
   * The shared `noop`: two one-argument definitions without `initialize`
   * return the very same constructor, and the second one replaces the first
   * class's prototype with its own.
   */
  lemma SharedDefaultConstructor(h: Heap, props1: Val, keys1: seq<string>, props2: Val, keys2: seq<string>,
                                 noop: Ref, fuel: nat)
    requires |h| >= 3 && h[..3] == BaseHeap() && 3 <= noop < |h| && CodeOf(h, Obj(noop)) == Some(NoopCode())
    requires fuel >= 2 && !IsFunction(h, props1)
    requires GetV(h, props1, "initialize").Some? && !Truthy(GetV(h, props1, "initialize").value)
    requires Build(h, [props1], keys1, noop, fuel).Ok?
    requires var h1 := Build(h, [props1], keys1, noop, fuel).value.0;
      !IsFunction(h1, props2)
      && GetV(h1, props2, "initialize").Some? && !Truthy(GetV(h1, props2, "initialize").value)
      && Build(h1, [props2], keys2, noop, fuel).Ok?
    ensures var (h1, c1) := Build(h, [props1], keys1, noop, fuel).value;
      var (h2, c2) := Build(h1, [props2], keys2, noop, fuel).value;
      c1 == c2 && PrototypeOf(h2, c1) != PrototypeOf(h1, c1)
  {
    NoopClass(h, props1, keys1, noop, fuel);
    var h1 := Build(h, [props1], keys1, noop, fuel).value.0;
    NoopClass(h1, props2, keys2, noop, fuel);
  }

  /** `new noop(...)` runs nothing: the instance has no own properties at all. */
  lemma NoopInstance(h: Heap, noop: Ref, args: seq<Val>, fuel: nat)
    requires CodeOf(h, Obj(noop)) == Some(NoopCode()) && fuel >= 2
    ensures Construct(h, Obj(noop), args, fuel)
      == Done(h + [Object(Some(ConstructedProto(h, Obj(noop))), map[], None)], Obj(|h|))
  {
    var h1 := h + [Object(Some(ConstructedProto(h, Obj(noop))), map[], None)];
    assert CodeOf(h1, Obj(noop)) == CodeOf(h, Obj(noop));
    assert NoopCode().body == [];
    assert Exec(h1, [], Obj(|h|), args, fuel - 2) == Done(h1, Undefined);
    assert Call(h1, Obj(noop), Obj(|h|), args, fuel - 1) == Done(h1, Undefined);
  }

  /**
   * A superclass whose `new` yields a new object linked to its `prototype`:
   * one whose body returns nothing, or the realm's own `Object`, whose `new`
   * yields the fresh object `Object` returns.
   */
  ghost predicate PlainSuperclass(h: Heap, superclazz: Val) {
    (Initializes(h, superclazz) || (superclazz == Obj(ObjectConstructor) && |h| >= 3 && h[..3] == BaseHeap()))
    && PrototypeOf(h, superclazz).Obj?
  }

  /** The direct call the instanceof lemmas are about: such a superclass, no factory. */
  ghost predicate Plain(h: Heap, args: seq<Val>, noop: Ref) {
    CodeOf(h, Obj(noop)) == Some(NoopCode())
    && |args| >= 1 && Truthy(args[0]) && Closed(h)
    && Below(Arguments(args).0, |h|) && Below(Arguments(args).1, |h|)
    && !IsFunction(h, Arguments(args).1)
    && PlainSuperclass(h, Arguments(args).0)
  }

  /**
   * Before the loop: the prototype `new superclazz()` gives is a new object
   * linked to `superclazz.prototype`, and the class's `prototype` is it.
   */
  lemma StagePrototype(h: Heap, superclazz: Val, props: Val, noop: Ref, fuel: nat)
    requires CodeOf(h, Obj(noop)) == Some(NoopCode()) && Closed(h) && Below(props, |h|)
    requires PlainSuperclass(h, superclazz)
    requires ClassFor(h, superclazz, props, noop, fuel).Ok?
    ensures var st := ClassFor(h, superclazz, props, noop, fuel).value;
      var sp := PrototypeOf(h, superclazz).ref;
      st.proto.Obj? && sp < |h| <= st.proto.ref < |st.heap| && st.heap[st.proto.ref].proto == Some(sp)
      && CodeOf(st.heap, superclazz) == CodeOf(h, superclazz)
      && (st.clazz.Obj? ==>
            st.clazz.ref < st.proto.ref && "prototype" in st.heap[st.clazz.ref].own
            && st.heap[st.clazz.ref].own["prototype"] == st.proto)
  {
    if props.Obj? {
      LookupClosed(h, props.ref, "initialize");
    }
    var init := GetV(h, props, "initialize").value;
    InitializerShape(h, superclazz, init, noop);
    var (h1, clazz) := Initializer(h, superclazz, init, noop).value;
    SuperclassConstructs(h, h1, superclazz, fuel);
    var made := Construct(h1, superclazz, [], fuel);
    RelinkShape(made.heap, clazz, made.value);
  }

  /**
   * `new superclazz()`, run after objects were appended to `h`: a new object,
   * linked to `superclazz.prototype` as it was in `h`. It is the object `new`
   * allocates, except for `Object`, whose `new` yields the one after it.
   */
  lemma SuperclassConstructs(h: Heap, h1: Heap, superclazz: Val, fuel: nat)
    requires Closed(h) && PlainSuperclass(h, superclazz)
    requires |h| <= |h1| && h1[..|h|] == h
    ensures var made := Construct(h1, superclazz, [], fuel);
      var sp := PrototypeOf(h, superclazz).ref;
      made.Done? ==>
        sp < |h| && made.value.Obj? && |h1| <= made.value.ref < |made.heap|
        && made.heap[made.value.ref].proto == Some(sp)
        && made.heap[superclazz.ref].call == h[superclazz.ref].call
        && (Initializes(h, superclazz) ==> made.value == Obj(|h1|))
  {
    var s := superclazz.ref;
    LookupClosed(h, s, "prototype");
    assert SameBelow(h, h1, |h|);
    assert h1[s] == h1[..|h|][s];
    LookupBelow(h, h1, |h|, s, "prototype");
    ConstructKeepsCode(h1, superclazz, [], fuel);
    if Initializes(h, superclazz) {
      assert Initializes(h1, superclazz);
      ConstructSelf(h1, superclazz, [], fuel);
    } else if fuel >= 2 {
      assert h1[..3] == h[..3];
      ObjectConstructs(h1, fuel);
      assert h[ObjectConstructor] == h[..3][ObjectConstructor];
    }
  }

  /**
   * After the loop as before it: the prototype is linked to
   * `superclazz.prototype`, and the class's `prototype` is it.
   */
  lemma PrototypeLinked(h: Heap, args: seq<Val>, keys: seq<string>, noop: Ref, fuel: nat)
    requires Plain(h, args, noop) && Build(h, args, keys, noop, fuel).Ok?
    ensures Prepare(h, args, noop, fuel).Ok?
    ensures var p := Prepare(h, args, noop, fuel).value.proto;
      var (h', clazz) := Build(h, args, keys, noop, fuel).value;
      var sp := PrototypeOf(h, Arguments(args).0).ref;
      p.Obj? && sp < |h| <= p.ref < |h'| && h'[p.ref].proto == Some(sp)
      && CodeOf(h', Arguments(args).0) == CodeOf(h, Arguments(args).0)
      && (clazz.Obj? ==>
            clazz.ref < p.ref && "prototype" in h'[clazz.ref].own && h'[clazz.ref].own["prototype"] == p)
  {
    var (superclazz, props) := Arguments(args);
    StagePrototype(h, superclazz, props, noop, fuel);
    var st := Prepare(h, args, noop, fuel).value;
    PopulateFrame(st.heap, st.proto, props, keys, Fixed(st.superproto));
    var h' := Build(h, args, keys, noop, fuel).value.0;
    assert h'[st.proto.ref].proto == st.heap[st.proto.ref].proto;
    if superclazz.Obj? {
      assert h'[superclazz.ref].call == st.heap[superclazz.ref].call;
    }
    if st.clazz.Obj? {
      assert h'[st.clazz.ref] == st.heap[st.clazz.ref];
    }
  }

  /**
   * `new clazz(...)` on the defined class: the object `new` allocates is an
   * instance of the class and of the superclass, as long as running the
   * constructor leaves both `prototype` properties where the definition put
   * them.
   */
  lemma InstancesInherit(h: Heap, args: seq<Val>, keys: seq<string>, noop: Ref, fuel: nat,
                         cargs: seq<Val>, cfuel: nat)
    requires Plain(h, args, noop) && Build(h, args, keys, noop, fuel).Ok?
    ensures var (h', clazz) := Build(h, args, keys, noop, fuel).value;
      var superclazz := Arguments(args).0;
      var made := Construct(h', clazz, cargs, cfuel);
      made.Done? && CodeOf(h', clazz).Some? && !CodeOf(h', clazz).value.Bound?
      && PrototypeOf(made.heap, clazz) == PrototypeOf(h', clazz)
      && PrototypeOf(made.heap, superclazz) == PrototypeOf(h, superclazz)
      ==> InstanceOf(made.heap, Obj(|h'|), clazz) == Some(true)
          && InstanceOf(made.heap, Obj(|h'|), superclazz) == Some(true)
  {
    PrototypeLinked(h, args, keys, noop, fuel);
    var superclazz := Arguments(args).0;
    var p := Prepare(h, args, noop, fuel).value.proto.ref;
    var (h', clazz) := Build(h, args, keys, noop, fuel).value;
    if CodeOf(h', clazz).Some? && !CodeOf(h', clazz).value.Bound? {
      NewInstanceInherits(h', clazz.ref, p, superclazz.ref, PrototypeOf(h, superclazz).ref, cargs, cfuel);
    }
  }

  /**
   * `new clazz(...)` on the defined class yields no instance of another class
   * whose prototype is newer than the superclass's: a sibling defined later.
   */
  lemma NotSiblingInstance(h: Heap, args: seq<Val>, keys: seq<string>, noop: Ref, fuel: nat,
                           cargs: seq<Val>, cfuel: nat, sibling: Ref, q: Ref)
    requires Plain(h, args, noop) && Build(h, args, keys, noop, fuel).Ok?
    ensures Prepare(h, args, noop, fuel).Ok? && Prepare(h, args, noop, fuel).value.proto.Obj?
    ensures var (h', clazz) := Build(h, args, keys, noop, fuel).value;
      var p := Prepare(h, args, noop, fuel).value.proto.ref;
      var made := Construct(h', clazz, cargs, cfuel);
      made.Done? && CodeOf(h', clazz).Some? && !CodeOf(h', clazz).value.Bound?
      && IsFunction(made.heap, Obj(sibling)) && Lookup(made.heap, sibling, "prototype") == Obj(q)
      && q != p && PrototypeOf(h, Arguments(args).0).ref < q
      ==> InstanceOf(made.heap, Obj(|h'|), Obj(sibling)) == Some(false)
  {
    PrototypeLinked(h, args, keys, noop, fuel);
    var p := Prepare(h, args, noop, fuel).value.proto.ref;
    var (h', clazz) := Build(h, args, keys, noop, fuel).value;
    if CodeOf(h', clazz).Some? && !CodeOf(h', clazz).value.Bound? {
      NewNotInstanceOfNewer(h', clazz.ref, p, PrototypeOf(h, Arguments(args).0).ref, cargs, cfuel, sibling, q);
    }
  }
}
