/**
 * `clutility(superclazz, props)` of v0.0.2: builds a constructor whose
 * prototype inherits from `superclazz.prototype` without running the
 * superclass constructor, then copies the members onto that prototype.
 */
module Clutility {
  import opened Basics
  import opened ArgNames
  import opened JsHeap
  import opened Interp
  import opened Members

  /**
   * The class constructor: a fresh function that applies the superclass
   * when `initialize` is missing, a `$super` wrapper around it when its first
   * parameter is `$super`, and `initialize` itself otherwise.
   */
  function Initializer(h: Heap, superclazz: Val, init: Val): Result<(Heap, Val), Exception> {
    if !Truthy(init) then
      var (h1, c) := AllocFunction(h, DefaultInit(superclazz));
      Ok((h1, Obj(c)))
    else match ArgumentNamesOf(h, init)
      case None => Err(TypeError("cannot read property '1' of null"))
      case Some(names) =>
        if DeclaresSuper(names) then
          var (h1, c) := AllocFunction(h, InitWrapper(init, superclazz));
          Ok((h1, Obj(c)))
        else Ok((h, init))
  }

  /** `tmpConstuctor`, whose body stores the class constructor in `this.constructor`. */
  function TmpConstructor(clazz: Val): Code {
    Source(FunctionText("", "", " { this.constructor = clazzConstructor; }"), [Assign("constructor", Const(clazz))])
  }

  /** Everything decided before the members are copied. */
  datatype Stage = Stage(heap: Heap, superclazz: Val, props: Val, clazz: Val, proto: Val)

  /** The builder up to the `each(props, ...)` loop. */
  function Prepare(h: Heap, args: seq<Val>, fuel: nat): Result<Stage, Exception> {
    if |args| == 0 || !Truthy(args[0]) then Err(Error("Super class not defined"))
    else
      var (superclazz, given) := Arguments(args);
      if IsFunction(h, given) then
        match Call(h, given, Undefined, [PrototypeOf(h, superclazz)], fuel)
        case Threw(e) => Err(e)
        case Done(h1, props) => ClassFor(h1, superclazz, props, fuel)
      else ClassFor(h, superclazz, given, fuel)
  }

  /** From reading `props.initialize` to storing the new prototype in the class constructor. */
  function ClassFor(h: Heap, superclazz: Val, props: Val, fuel: nat): Result<Stage, Exception> {
    match GetV(h, props, "initialize")
    case None => Err(TypeError("cannot read property 'initialize'"))
    case Some(init) =>
      match Initializer(h, superclazz, init)
      case Err(e) => Err(e)
      case Ok((h1, clazz)) => SetUpPrototype(h1, superclazz, props, clazz, fuel)
  }

  /** `clazzConstructor.prototype = new tmpConstuctor()`, with `tmpConstuctor.prototype = superclazz.prototype`. */
  function SetUpPrototype(h: Heap, superclazz: Val, props: Val, clazz: Val, fuel: nat): Result<Stage, Exception> {
    var (h1, tmp) := AllocFunction(h, TmpConstructor(clazz));
    var h2 := Put(h1, Obj(tmp), "prototype", PrototypeOf(h1, superclazz));
    match Construct(h2, Obj(tmp), [], fuel)
    case Threw(e) => Err(e)
    case Done(h3, proto) => Ok(Stage(Put(h3, clazz, "prototype", proto), superclazz, props, clazz, proto))
  }

  /**
   * `clutility(args...)` with the member mapping enumerated in the order
   * `keys`: the heap afterwards and the class constructor, or what it throws.
   */
  function Build(h: Heap, args: seq<Val>, keys: seq<string>, fuel: nat): Result<(Heap, Val), Exception> {
    match Prepare(h, args, fuel)
    case Err(e) => Err(e)
    case Ok(st) =>
      match Populate(st.heap, st.proto, st.props, keys, ThroughClass(st.superclazz))
      case Err(e) => Err(e)
      case Ok(h') => Ok((h', st.clazz))
  }

  /** `clutility(args...)` run in place on the realm. */
  method Define(realm: Realm, args: seq<Val>, keys: seq<string>, fuel: nat) returns (outcome: Result<Val, Exception>)
    modifies realm
    ensures match Build(old(realm.heap), args, keys, fuel)
      case Ok((h', clazz)) => outcome == Ok(clazz) && realm.heap == h'
      case Err(e) => outcome == Err(e)
  {
    if |args| == 0 || !Truthy(args[0]) {
      return Err(Error("Super class not defined"));
    }
    var superclazz, props := Arguments(args).0, Arguments(args).1;
    if IsFunction(realm.heap, props) {
      match Call(realm.heap, props, Undefined, [PrototypeOf(realm.heap, superclazz)], fuel)
      case Threw(e) =>
        return Err(e);
      case Done(h1, v) =>
        realm.heap, props := h1, v;
    }
    var init := GetV(realm.heap, props, "initialize");
    if init.None? {
      return Err(TypeError("cannot read property 'initialize'"));
    }
    var clazz := init.value;
    if !Truthy(clazz) {
      var (h2, c) := AllocFunction(realm.heap, DefaultInit(superclazz));
      realm.heap, clazz := h2, Obj(c);
    } else {
      var names := ArgumentNamesOf(realm.heap, clazz);
      if names.None? {
        return Err(TypeError("cannot read property '1' of null"));
      }
      if DeclaresSuper(names.value) {
        var (h2, c) := AllocFunction(realm.heap, InitWrapper(clazz, superclazz));
        realm.heap, clazz := h2, Obj(c);
      }
    }
    var (h3, tmp) := AllocFunction(realm.heap, TmpConstructor(clazz));
    realm.heap := Put(h3, Obj(tmp), "prototype", PrototypeOf(h3, superclazz));
    var proto;
    match Construct(realm.heap, Obj(tmp), [], fuel)
    case Threw(e) =>
      return Err(e);
    case Done(h5, p) =>
      realm.heap, proto := Put(h5, clazz, "prototype", p), p;
    var filled := Fill(realm, proto, props, keys, ThroughClass(superclazz));
    if filled.Err? {
      return Err(filled.error);
    }
    outcome := Ok(clazz);
  }

  // ---------------------------------------------------------------------
  // Properties
  // ---------------------------------------------------------------------

  /**
   * `new tmpConstuctor()` gives one new object, linked to `superclazz.prototype`
   * (or `Object.prototype` when that is no object), whose only own property
   * is `constructor`, the class constructor.
   */
  lemma TmpConstructed(h2: Heap, clazz: Val, superclazz: Val, fuel: nat)
    requires Below(superclazz, |h2|) && fuel >= 4
    ensures var (h3, tmp) := AllocFunction(h2, TmpConstructor(clazz));
      var h4 := Put(h3, Obj(tmp), "prototype", PrototypeOf(h3, superclazz));
      Construct(h4, Obj(tmp), [], fuel)
        == Done(h4 + [Object(Some(ConstructedProto(h2, superclazz)), map["constructor" := clazz], None)], Obj(|h4|))
  {
    var (h3, tmp) := AllocFunction(h2, TmpConstructor(clazz));
    var h4 := Put(h3, Obj(tmp), "prototype", PrototypeOf(h3, superclazz));
    if superclazz.Obj? {
      LookupBelow(h2, h3, |h2|, superclazz.ref, "prototype");
    }
    assert PrototypeOf(h3, superclazz) == PrototypeOf(h2, superclazz);
    assert ConstructedProto(h4, Obj(tmp)) == ConstructedProto(h2, superclazz);
    var (h5, o) := Alloc(h4, Object(Some(ConstructedProto(h2, superclazz)), map[], None));
    var body := [Assign("constructor", Const(clazz))];
    assert Eval(h5, Const(clazz), Obj(o), [], fuel - 3) == Done(h5, clazz);
    assert Exec(Put(h5, Obj(o), "constructor", clazz), body[1..], Obj(o), [], fuel - 3) == Done(Put(h5, Obj(o), "constructor", clazz), Undefined);
    assert Exec(h5, body, Obj(o), [], fuel - 2) == Done(Put(h5, Obj(o), "constructor", clazz), Undefined);
    assert Call(h5, Obj(tmp), Obj(o), [], fuel - 1) == Done(Put(h5, Obj(o), "constructor", clazz), Undefined);
    assert Put(h5, Obj(o), "constructor", clazz) == h4 + [Object(Some(ConstructedProto(h2, superclazz)), map["constructor" := clazz], None)];
  }

  /**
   * The three kinds of class constructor; a new one is a fresh function
   * object, and the heap stays closed.
   */
  lemma InitializerShape(h: Heap, superclazz: Val, init: Val)
    requires Closed(h) && Below(init, |h|)
    ensures Truthy(init) && ArgumentNamesOf(h, init).None?
      ==> Initializer(h, superclazz, init) == Err(TypeError("cannot read property '1' of null"))
    ensures !Truthy(init) || ArgumentNamesOf(h, init).Some? ==>
      match Initializer(h, superclazz, init)
      case Err(_) => false
      case Ok((h1, clazz)) =>
        Closed(h1) && |h| <= |h1| && h1[..|h|] == h && Below(clazz, |h1|)
        && (!Truthy(init) ==> clazz == Obj(|h|) && CodeOf(h1, clazz) == Some(DefaultInit(superclazz)))
        && (Truthy(init) && DeclaresSuper(ArgumentNamesOf(h, init).value)
            ==> clazz == Obj(|h|) && CodeOf(h1, clazz) == Some(InitWrapper(init, superclazz)))
        && (Truthy(init) && !DeclaresSuper(ArgumentNamesOf(h, init).value) ==> clazz == init && h1 == h)
  {
    if !Truthy(init) {
      AllocFunctionClosed(h, DefaultInit(superclazz));
    } else if ArgumentNamesOf(h, init).Some? && DeclaresSuper(ArgumentNamesOf(h, init).value) {
      AllocFunctionClosed(h, InitWrapper(init, superclazz));
    } else {
      assert h[..|h|] == h;
    }
  }

  /**
   * The prototype `st.proto` set up over the heap `h`: a new object linked to
   * `superclazz.prototype` holding only `constructor`, stored as the class
   * constructor's `prototype`; no object of `h` but the constructor changes.
   */
  ghost predicate PrototypeSetUp(h: Heap, superclazz: Val, st: Stage) {
    Closed(st.heap) && |h| <= |st.heap|
    && st.proto.Obj? && |h| <= st.proto.ref < |st.heap|
    && st.heap[st.proto.ref] == Object(Some(ConstructedProto(h, superclazz)), map["constructor" := st.clazz], None)
    && (st.clazz.Obj? ==>
          st.clazz.ref < st.proto.ref && "prototype" in st.heap[st.clazz.ref].own
          && st.heap[st.clazz.ref].own["prototype"] == st.proto)
    && (st.clazz.Obj? && st.clazz.ref < |h| ==>
          st.heap[st.clazz.ref] == h[st.clazz.ref].(own := h[st.clazz.ref].own["prototype" := st.proto]))
    && (forall r :: 0 <= r < |h| && Obj(r) != st.clazz ==> st.heap[r] == h[r])
  }

  /** What the builder has set up when the loop starts, for `initialize` read as `init`. */
  ghost predicate StageShape(h: Heap, superclazz: Val, props: Val, init: Val, st: Stage) {
    st.superclazz == superclazz && st.props == props && PrototypeSetUp(h, superclazz, st)
    && (!Truthy(init) ==> st.clazz == Obj(|h|) && CodeOf(st.heap, st.clazz) == Some(DefaultInit(superclazz)))
    && (Truthy(init) && ArgumentNamesOf(h, init).Some? && DeclaresSuper(ArgumentNamesOf(h, init).value)
        ==> st.clazz == Obj(|h|) && CodeOf(st.heap, st.clazz) == Some(InitWrapper(init, superclazz)))
    && (Truthy(init) && ArgumentNamesOf(h, init).Some? && !DeclaresSuper(ArgumentNamesOf(h, init).value)
        ==> st.clazz == init)
  }

  /** Setting up the prototype over a closed heap succeeds with enough fuel. */
  lemma SetUpShape(h: Heap, superclazz: Val, props: Val, clazz: Val, fuel: nat)
    requires Closed(h) && Below(superclazz, |h|) && Below(clazz, |h|) && fuel >= 4
    ensures SetUpPrototype(h, superclazz, props, clazz, fuel).Ok?
    ensures var st := SetUpPrototype(h, superclazz, props, clazz, fuel).value;
      st.superclazz == superclazz && st.props == props && st.clazz == clazz && PrototypeSetUp(h, superclazz, st)
  {
    TmpConstructed(h, clazz, superclazz, fuel);
    var (h1, tmp) := AllocFunction(h, TmpConstructor(clazz));
    AllocFunctionClosed(h, TmpConstructor(clazz));
    var pr := PrototypeOf(h1, superclazz);
    if superclazz.Obj? {
      LookupClosed(h1, superclazz.ref, "prototype");
    }
    var h2 := Put(h1, Obj(tmp), "prototype", pr);
    PutClosed(h1, Obj(tmp), "prototype", pr);
    var pobj := Object(Some(ConstructedProto(h, superclazz)), map["constructor" := clazz], None);
    AllocClosed(h2, pobj);
    var h3 := h2 + [pobj];
    PutClosed(h3, clazz, "prototype", Obj(|h2|));
    var st := SetUpPrototype(h, superclazz, props, clazz, fuel).value;
    assert st == Stage(Put(h3, clazz, "prototype", Obj(|h2|)), superclazz, props, clazz, Obj(|h2|));
    forall r | 0 <= r < |h| && Obj(r) != clazz
      ensures st.heap[r] == h[r]
    {
      assert h1[r] == h1[..|h|][r];
    }
  }

  /** A prototype set up over an extension of `h` is set up over `h` too. */
  lemma PrototypeSetUpOver(h: Heap, h1: Heap, superclazz: Val, st: Stage)
    requires PrototypeSetUp(h1, superclazz, st) && |h| <= |h1| && h1[..|h|] == h && Below(superclazz, |h|)
    ensures PrototypeSetUp(h, superclazz, st)
  {
    if superclazz.Obj? {
      LookupBelow(h, h1, |h|, superclazz.ref, "prototype");
    }
    forall r | 0 <= r < |h|
      ensures h1[r] == h[r]
    {
      assert h1[r] == h1[..|h|][r];
    }
  }

  /** With a readable `initialize`, the stage is set up as the constructor kind says. */
  lemma StageFor(h: Heap, superclazz: Val, props: Val, init: Val, fuel: nat)
    requires Closed(h) && Below(superclazz, |h|) && Below(init, |h|) && fuel >= 4
    requires !Truthy(init) || ArgumentNamesOf(h, init).Some?
    ensures Initializer(h, superclazz, init).Ok?
    ensures var (h1, clazz) := Initializer(h, superclazz, init).value;
      SetUpPrototype(h1, superclazz, props, clazz, fuel).Ok?
      && StageShape(h, superclazz, props, init, SetUpPrototype(h1, superclazz, props, clazz, fuel).value)
  {
    InitializerShape(h, superclazz, init);
    var (h1, clazz) := Initializer(h, superclazz, init).value;
    SetUpShape(h1, superclazz, props, clazz, fuel);
    var st := SetUpPrototype(h1, superclazz, props, clazz, fuel).value;
    PrototypeSetUpOver(h, h1, superclazz, st);
  }

  /** Once the member mapping is known, the builder gets to the loop unless `initialize` is unreadable. */
  lemma ClassForShape(h: Heap, superclazz: Val, props: Val, fuel: nat)
    requires Closed(h) && Below(superclazz, |h|) && Below(props, |h|) && fuel >= 4
    ensures match GetV(h, props, "initialize")
      case None => ClassFor(h, superclazz, props, fuel) == Err(TypeError("cannot read property 'initialize'"))
      case Some(init) =>
        (Truthy(init) && ArgumentNamesOf(h, init).None? ==>
           ClassFor(h, superclazz, props, fuel) == Err(TypeError("cannot read property '1' of null")))
        && (!Truthy(init) || ArgumentNamesOf(h, init).Some? ==>
              ClassFor(h, superclazz, props, fuel).Ok?
              && StageShape(h, superclazz, props, init, ClassFor(h, superclazz, props, fuel).value))
  {
    if GetV(h, props, "initialize").Some? {
      var init := GetV(h, props, "initialize").value;
      if props.Obj? {
        LookupClosed(h, props.ref, "initialize");
      }
      if !Truthy(init) || ArgumentNamesOf(h, init).Some? {
        StageFor(h, superclazz, props, init, fuel);
      }
    }
  }

  /** The definition fails with "Super class not defined" exactly when the first argument is falsy. */
  lemma MissingSuperclass(h: Heap, args: seq<Val>, keys: seq<string>, fuel: nat)
    ensures Build(h, args, keys, fuel) == Err(Error("Super class not defined"))
        <==> |args| == 0 || !Truthy(args[0])
  {
    if |args| > 0 && Truthy(args[0]) {
      var (superclazz, given) := Arguments(args);
      var h1, props := h, given;
      if IsFunction(h, given) {
        CallNoError(h, given, Undefined, [PrototypeOf(h, superclazz)], fuel);
        if Call(h, given, Undefined, [PrototypeOf(h, superclazz)], fuel).Done? {
          h1, props := Call(h, given, Undefined, [PrototypeOf(h, superclazz)], fuel).heap,
            Call(h, given, Undefined, [PrototypeOf(h, superclazz)], fuel).value;
        }
      }
      if GetV(h1, props, "initialize").Some? {
        var init := GetV(h1, props, "initialize").value;
        if Initializer(h1, superclazz, init).Ok? {
          var (h2, clazz) := Initializer(h1, superclazz, init).value;
          var (h3, tmp) := AllocFunction(h2, TmpConstructor(clazz));
          ConstructNoError(Put(h3, Obj(tmp), "prototype", PrototypeOf(h3, superclazz)), Obj(tmp), [], fuel);
        }
      }
      if Prepare(h, args, fuel).Ok? {
        var st := Prepare(h, args, fuel).value;
        PopulateErrors(st.heap, st.proto, st.props, keys, ThroughClass(st.superclazz));
        forall k: string
          ensures Error("No super method found for '" + k + "'") != Error("Super class not defined")
        {
          assert ("No super method found for '" + k + "'")[0] == 'N';
        }
      }
    }
  }

  /** A single argument is the member mapping of a direct subclass of `Object`. */
  lemma OneArgument(h: Heap, props: Val, keys: seq<string>, fuel: nat)
    requires Truthy(props)
    ensures Build(h, [props], keys, fuel) == Build(h, [Obj(ObjectConstructor), props], keys, fuel)
  {
  }

  /** A factory is called with `superclazz.prototype`, and what it returns is the member mapping. */
  lemma Factory(h: Heap, superclazz: Val, factory: Val, keys: seq<string>, fuel: nat)
    requires Truthy(superclazz) && IsFunction(h, factory)
    ensures var made := Call(h, factory, Undefined, [PrototypeOf(h, superclazz)], fuel);
      (made.Threw? ==> Build(h, [superclazz, factory], keys, fuel) == Err(made.exc))
      && (made.Done? && !IsFunction(made.heap, made.value) ==>
            Build(h, [superclazz, factory], keys, fuel) == Build(made.heap, [superclazz, made.value], keys, fuel))
  {
  }

  /**
   * The loop starts in the situation the population lemmas require, unless
   * `initialize` is the superclass itself or the superclass finds its
   * `prototype` only by inheritance.
   */
  lemma StageInputs(h: Heap, superclazz: Val, props: Val, init: Val, st: Stage)
    requires Closed(h) && Below(superclazz, |h|) && Below(props, |h|)
    requires StageShape(h, superclazz, props, init, st) && st.clazz != superclazz
    requires !superclazz.Obj? || HasOwn(h, superclazz, "prototype")
    ensures Inputs(st.heap, st.proto.ref, props, ThroughClass(superclazz))
  {
    if superclazz.Obj? {
      assert st.heap[superclazz.ref] == h[superclazz.ref];
    }
  }

  /**
   * The common call: a truthy superclass, a member mapping that is no
   * factory, arguments that refer into a closed heap, and enough fuel for
   * `new tmpConstuctor()`.
   */
  ghost predicate Usual(h: Heap, args: seq<Val>, fuel: nat) {
    |args| >= 1 && Truthy(args[0]) && Closed(h) && fuel >= 4
    && Below(Arguments(args).0, |h|) && Below(Arguments(args).1, |h|)
    && !IsFunction(h, Arguments(args).1)
  }

  /** The common call with a readable `initialize` that is not the superclass itself. */
  ghost predicate Regular(h: Heap, args: seq<Val>, fuel: nat) {
    Usual(h, args, fuel)
    && var (superclazz, props) := Arguments(args);
    && (!superclazz.Obj? || HasOwn(h, superclazz, "prototype"))
    && GetV(h, props, "initialize").Some?
    && var init := GetV(h, props, "initialize").value;
    && (!Truthy(init) || ArgumentNamesOf(h, init).Some?)
    && init != superclazz
  }

  /**
   * In a regular call the class is defined unless a member's decision, judged
   * when the loop starts, is a throw; then the first such member's exception
   * is thrown. Otherwise the constructor's `prototype` is the new object,
   * linked to `superclazz.prototype`, holding `constructor` and the members
   * as decided, and no older object but the constructor has changed.
   */
  lemma Defined(h: Heap, args: seq<Val>, keys: seq<string>, fuel: nat)
    requires Regular(h, args, fuel)
    ensures var (superclazz, props) := Arguments(args);
      ClassFor(h, superclazz, props, fuel).Ok? &&
      var st := ClassFor(h, superclazz, props, fuel).value;
      var src := ThroughClass(superclazz);
      Prepare(h, args, fuel) == Ok(st)
      && StageShape(h, superclazz, props, GetV(h, props, "initialize").value, st)
      && (Build(h, args, keys, fuel).Err? <==> exists i :: 0 <= i < |keys| && Plan(st.heap, props, keys[i], src).Err?)
      && match Build(h, args, keys, fuel)
        case Err(e) =>
          exists i :: 0 <= i < |keys| && Plan(st.heap, props, keys[i], src) == Err(e)
            && forall j :: 0 <= j < i ==> Plan(st.heap, props, keys[j], src).Ok?
        case Ok((h', clazz)) =>
          var p := st.proto.ref;
          clazz == st.clazz && Closed(h') && p < |h'|
          && h'[p].proto == Some(ConstructedProto(h, superclazz))
          && (clazz.Obj? ==> "prototype" in h'[clazz.ref].own && h'[clazz.ref].own["prototype"] == Obj(p))
          && (forall k :: k in keys ==>
                Plan(st.heap, props, k, src).Ok? && Placed(st.heap, h', p, k, Plan(st.heap, props, k, src).value))
          && (forall k :: k !in keys ==> Placed(st.heap, h', p, k, Skip))
          && (forall r :: 0 <= r < |h| && Obj(r) != clazz ==> h'[r] == h[r])
  {
    var (superclazz, props) := Arguments(args);
    ClassForShape(h, superclazz, props, fuel);
    var st := ClassFor(h, superclazz, props, fuel).value;
    var init := GetV(h, props, "initialize").value;
    StageInputs(h, superclazz, props, init, st);
    PopulateOutcome(st.heap, st.proto.ref, props, keys, ThroughClass(superclazz));
  }

  /**
   * When `keys` holds every own key of the member mapping, as the for-in over
   * it does, a definition that does not throw puts every own member but
   * `initialize` on the prototype, itself or wrapped.
   */
  lemma EveryMemberDefined(h: Heap, args: seq<Val>, keys: seq<string>, fuel: nat)
    requires Regular(h, args, fuel) && Build(h, args, keys, fuel).Ok?
    requires forall k :: HasOwn(h, Arguments(args).1, k) ==> k in keys
    ensures Prepare(h, args, fuel).Ok?
    ensures var props := Arguments(args).1;
      var h' := Build(h, args, keys, fuel).value.0;
      var p := Prepare(h, args, fuel).value.proto.ref;
      p < |h'| && forall k :: k != "initialize" && HasOwn(h, props, k) ==> HoldsMember(h', p, k, Lookup(h, props.ref, k))
  {
    Defined(h, args, keys, fuel);
    var (superclazz, props) := Arguments(args);
    var st := Prepare(h, args, fuel).value;
    var init := GetV(h, props, "initialize").value;
    if props.Obj? {
      PlainObjectNames();
      assert ArgumentNamesOf(h, props) == None;
      assert st.heap[props.ref] == h[props.ref];
    }
    StageInputs(h, superclazz, props, init, st);
    EveryMemberPlaced(st.heap, st.proto.ref, props, keys, ThroughClass(superclazz));
  }

  /**
   * `new clazz(...)` on the defined class: the object `new` allocates is an
   * instance of the class and of the superclass, as long as running the
   * constructor leaves both `prototype` properties where the definition put
   * them.
   */
  lemma InstancesInherit(h: Heap, args: seq<Val>, keys: seq<string>, fuel: nat, cargs: seq<Val>, cfuel: nat)
    requires Regular(h, args, fuel) && Build(h, args, keys, fuel).Ok?
    requires IsFunction(h, Arguments(args).0) && PrototypeOf(h, Arguments(args).0).Obj?
    ensures var (h', clazz) := Build(h, args, keys, fuel).value;
      var superclazz := Arguments(args).0;
      var made := Construct(h', clazz, cargs, cfuel);
      made.Done? && CodeOf(h', clazz).Some? && !CodeOf(h', clazz).value.Bound?
      && PrototypeOf(made.heap, clazz) == PrototypeOf(h', clazz)
      && PrototypeOf(made.heap, superclazz) == PrototypeOf(h, superclazz)
      ==> InstanceOf(made.heap, Obj(|h'|), clazz) == Some(true)
          && InstanceOf(made.heap, Obj(|h'|), superclazz) == Some(true)
  {
    Defined(h, args, keys, fuel);
    var superclazz := Arguments(args).0;
    var st := Prepare(h, args, fuel).value;
    var (h', clazz) := Build(h, args, keys, fuel).value;
    var sp := PrototypeOf(h, superclazz).ref;
    assert h'[superclazz.ref] == h[superclazz.ref];
    LookupClosed(h, superclazz.ref, "prototype");
    if CodeOf(h', clazz).Some? && !CodeOf(h', clazz).value.Bound? {
      NewInstanceInherits(h', clazz.ref, st.proto.ref, superclazz.ref, sp, cargs, cfuel);
    }
  }

  /**
   * Two classes defined without `initialize` get two different constructors,
   * and defining the second leaves the first one's prototype where it was.
   */
  lemma DistinctDefaultConstructors(h: Heap, args1: seq<Val>, keys1: seq<string>,
                                    args2: seq<Val>, keys2: seq<string>, fuel: nat)
    requires Regular(h, args1, fuel) && !Truthy(GetV(h, Arguments(args1).1, "initialize").value)
    requires Build(h, args1, keys1, fuel).Ok?
    requires var h1 := Build(h, args1, keys1, fuel).value.0;
      Regular(h1, args2, fuel) && !Truthy(GetV(h1, Arguments(args2).1, "initialize").value)
      && Build(h1, args2, keys2, fuel).Ok?
    ensures var (h1, c1) := Build(h, args1, keys1, fuel).value;
      var (h2, c2) := Build(h1, args2, keys2, fuel).value;
      c1 != c2 && PrototypeOf(h2, c1) == PrototypeOf(h1, c1)
  {
    Defined(h, args1, keys1, fuel);
    var (h1, c1) := Build(h, args1, keys1, fuel).value;
    Defined(h1, args2, keys2, fuel);
    var (h2, c2) := Build(h1, args2, keys2, fuel).value;
    assert c1.ref < |h1|;
    assert h2[c1.ref] == h1[c1.ref];
  }
}
