/**
 * What both builders share: the normalisation of their arguments and the
 * filling of the new prototype (the `each(props, ...)` loop):
 * every own key of the member mapping except `initialize` is copied onto the
 * prototype; a function whose first declared parameter is `$super` is
 * replaced by a wrapper that hands it the super implementation, and the
 * definition fails when there is none.
 */
module Members {
  import opened Basics
  import opened ArgNames
  import opened JsHeap

  /** `arguments.length == 1 ? ...`: the superclass and the member mapping actually used. */
  function Arguments(args: seq<Val>): (r: (Val, Val))
    ensures |args| == 1 ==> r == (Obj(ObjectConstructor), args[0])
    ensures |args| >= 2 ==> r == (args[0], args[1])
  {
    var props := if |args| == 1 then args[0] else if |args| >= 2 then args[1] else Undefined;
    var superclazz := if |args| > 1 then args[0] else Obj(ObjectConstructor);
    (superclazz, props)
  }

  /** Where a `$super` method's super implementation is read from. */
  datatype SuperSource =
    | ThroughClass(superclazz: Val)  // `superclazz.prototype[key]`, read afresh for each key
    | Fixed(superproto: Val)         // `superproto[key]`, with `superproto` read before the loop

  /** The super implementation for `key`; `None` when reading it throws. */
  function SuperMember(h: Heap, src: SuperSource, key: string): Option<Val> {
    match src
    case ThroughClass(c) => GetV(h, PrototypeOf(h, c), key)
    case Fixed(p) => GetV(h, p, key)
  }

  /** What the callback of `each` decides for one key. */
  datatype Placement =
    | Skip                                    // `initialize`, or a key `props` only inherits
    | Copy(value: Val)                        // proto[key] = member
    | Wrap(member: Val, supermethod: Val)     // proto[key] = a `$super` wrapper of member

  /** The decision for `key`, or what the callback throws. */
  function Plan(h: Heap, props: Val, key: string, src: SuperSource): Result<Placement, Exception> {
    if key == "initialize" || !HasOwn(h, props, key) then Ok(Skip)
    else
      var member := Lookup(h, props.ref, key);
      if !IsFunction(h, member) then Ok(Copy(member))
      else match ArgumentNamesOf(h, member)
        case None => Err(TypeError("cannot read property '1' of null"))
        case Some(names) =>
          if !DeclaresSuper(names) then Ok(Copy(member))
          else match SuperMember(h, src, key)
            case None => Err(TypeError("cannot read property '" + key + "' of undefined"))
            case Some(supermethod) =>
              if !Truthy(supermethod) || !IsFunction(h, supermethod) then
                Err(Error("No super method found for '" + key + "'"))
              else Ok(Wrap(member, supermethod))
  }

  /** The callback of `each` for one key: the heap after it, or what it throws. */
  function Install(h: Heap, proto: Val, props: Val, key: string, src: SuperSource): Result<Heap, Exception> {
    match Plan(h, props, key, src)
    case Err(e) => Err(e)
    case Ok(Skip) => Ok(h)
    case Ok(Copy(v)) => Ok(Put(h, proto, key, v))
    case Ok(Wrap(member, supermethod)) =>
      var (h1, w) := AllocFunction(h, MethodWrapper(member, supermethod));
      Ok(Put(h1, proto, key, Obj(w)))
  }

  /** The whole loop over the keys, in enumeration order; the first throw ends it. */
  function Populate(h: Heap, proto: Val, props: Val, keys: seq<string>, src: SuperSource): Result<Heap, Exception>
    decreases |keys|
  {
    if keys == [] then Ok(h)
    else match Populate(h, proto, props, keys[..|keys| - 1], src)
      case Err(e) => Err(e)
      case Ok(h1) => Install(h1, proto, props, keys[|keys| - 1], src)
  }

  /** A throw ends the loop: keys after the failing one change nothing. */
  lemma {:induction false} ErrorPersists(h: Heap, proto: Val, props: Val, keys: seq<string>, n: nat, src: SuperSource)
    requires n <= |keys| && Populate(h, proto, props, keys[..n], src).Err?
    ensures Populate(h, proto, props, keys, src) == Populate(h, proto, props, keys[..n], src)
    decreases |keys| - n
  {
    if n < |keys| {
      assert keys[..n + 1][..n] == keys[..n];
      ErrorPersists(h, proto, props, keys, n + 1, src);
    } else {
      assert keys[..n] == keys;
    }
  }

  /** The `each` callback as the builders run it: `proto[key]` is written in place. */
  method InstallKey(realm: Realm, proto: Val, props: Val, key: string, src: SuperSource)
    returns (outcome: Result<(), Exception>)
    modifies realm
    ensures match Install(old(realm.heap), proto, props, key, src)
      case Ok(h') => outcome == Ok(()) && realm.heap == h'
      case Err(e) => outcome == Err(e)
  {
    if key == "initialize" || !HasOwn(realm.heap, props, key) {
      return Ok(());
    }
    var member := Lookup(realm.heap, props.ref, key);
    if IsFunction(realm.heap, member) {
      var names := ArgumentNamesOf(realm.heap, member);
      if names.None? {
        return Err(TypeError("cannot read property '1' of null"));
      }
      if DeclaresSuper(names.value) {
        var supermethod := SuperMember(realm.heap, src, key);
        if supermethod.None? {
          return Err(TypeError("cannot read property '" + key + "' of undefined"));
        }
        if !Truthy(supermethod.value) || !IsFunction(realm.heap, supermethod.value) {
          return Err(Error("No super method found for '" + key + "'"));
        }
        var (h1, w) := AllocFunction(realm.heap, MethodWrapper(member, supermethod.value));
        realm.heap := Put(h1, proto, key, Obj(w));
        return Ok(());
      }
    }
    realm.heap := Put(realm.heap, proto, key, member);
    outcome := Ok(());
  }

  /** One more key: the callback runs on the heap the earlier keys left. */
  lemma PopulateNext(h: Heap, proto: Val, props: Val, keys: seq<string>, i: nat, src: SuperSource, h1: Heap)
    requires i < |keys| && Populate(h, proto, props, keys[..i], src) == Ok(h1)
    ensures Populate(h, proto, props, keys[..i + 1], src) == Install(h1, proto, props, keys[i], src)
  {
    assert keys[..i + 1][..i] == keys[..i] && keys[..i + 1][i] == keys[i];
  }

  /** The whole `each(props, ...)` loop, run in place on the realm. */
  method Fill(realm: Realm, proto: Val, props: Val, keys: seq<string>, src: SuperSource)
    returns (outcome: Result<(), Exception>)
    modifies realm
    ensures match Populate(old(realm.heap), proto, props, keys, src)
      case Ok(h') => outcome == Ok(()) && realm.heap == h'
      case Err(e) => outcome == Err(e)
  {
    var i := 0;
    while i < |keys|
      invariant 0 <= i <= |keys|
      invariant Populate(old(realm.heap), proto, props, keys[..i], src) == Ok(realm.heap)
    {
      PopulateNext(old(realm.heap), proto, props, keys, i, src, realm.heap);
      var step := InstallKey(realm, proto, props, keys[i], src);
      if step.Err? {
        ErrorPersists(old(realm.heap), proto, props, keys, i + 1, src);
        return step;
      }
      i := i + 1;
    }
    assert keys[..|keys|] == keys;
    outcome := Ok(());
  }

  // ---------------------------------------------------------------------
  // What the loop does, judged on the heap it starts from
  // ---------------------------------------------------------------------

  /** The super implementations are read from objects older than the prototype being filled. */
  predicate SourceBelow(h: Heap, src: SuperSource, bound: nat) {
    match src
    case ThroughClass(c) => Below(c, bound) && Below(PrototypeOf(h, c), bound)
    case Fixed(p) => Below(p, bound)
  }

  /**
   * The situation of both builders before the loop: the prototype `proto` is
   * newer than the mapping and than where super implementations are found.
   */
  ghost predicate Inputs(h: Heap, proto: Ref, props: Val, src: SuperSource) {
    Closed(h) && proto < |h| && Below(props, proto) && SourceBelow(h, src, proto)
  }

  /** `h'` is `h` with only the own properties of `proto` changed and new objects appended. */
  predicate Extends(h: Heap, h': Heap, proto: Ref) {
    proto < |h| <= |h'|
    && (forall r :: 0 <= r < |h| && r != proto ==> h'[r] == h[r])
    && h'[proto].proto == h[proto].proto && h'[proto].call == h[proto].call
  }

  /** What `proto[key]` holds after the loop, for a key with the given decision. */
  predicate Placed(h: Heap, h': Heap, proto: Ref, key: string, plan: Placement)
    requires proto < |h| && proto < |h'|
  {
    match plan
    case Skip =>
      (key in h'[proto].own <==> key in h[proto].own)
      && (key in h[proto].own ==> h'[proto].own[key] == h[proto].own[key])
    case Copy(v) => key in h'[proto].own && h'[proto].own[key] == v
    case Wrap(member, supermethod) =>
      key in h'[proto].own && h'[proto].own[key].Obj? && |h| <= h'[proto].own[key].ref
      && CodeOf(h', h'[proto].own[key]) == Some(MethodWrapper(member, supermethod))
  }

  lemma ExtendsSameBelow(h: Heap, h': Heap, proto: Ref)
    requires Extends(h, h', proto)
    ensures SameBelow(h, h', proto)
  {
    assert forall r :: 0 <= r < proto ==> h'[..proto][r] == h[..proto][r];
  }

  /** Values of a closed heap mean the same in any extension of it. */
  lemma CodeStable(h: Heap, h': Heap, proto: Ref, v: Val)
    requires Extends(h, h', proto) && Below(v, |h|)
    ensures CodeOf(h', v) == CodeOf(h, v) && ArgumentNamesOf(h', v) == ArgumentNamesOf(h, v)
  {
  }

  /** Filling `proto` does not change the decision for any key. */
  lemma PlanStable(h: Heap, h': Heap, proto: Ref, props: Val, key: string, src: SuperSource)
    requires Inputs(h, proto, props, src) && Extends(h, h', proto)
    ensures Plan(h', props, key, src) == Plan(h, props, key, src)
  {
    ExtendsSameBelow(h, h', proto);
    if key != "initialize" && HasOwn(h, props, key) {
      var member := Lookup(h, props.ref, key);
      LookupBelow(h, h', proto, props.ref, key);
      LookupClosed(h, props.ref, key);
      CodeStable(h, h', proto, member);
      match src
      case ThroughClass(c) =>
        if c.Obj? {
          LookupBelow(h, h', proto, c.ref, "prototype");
        }
        var pr := PrototypeOf(h, c);
        if pr.Obj? {
          LookupBelow(h, h', proto, pr.ref, key);
          LookupClosed(h, pr.ref, key);
          CodeStable(h, h', proto, Lookup(h, pr.ref, key));
        }
      case Fixed(p) =>
        if p.Obj? {
          LookupBelow(h, h', proto, p.ref, key);
          LookupClosed(h, p.ref, key);
          CodeStable(h, h', proto, Lookup(h, p.ref, key));
        }
    }
  }

  /** Writing `proto[key]` and appending objects leaves every other key where it was placed. */
  lemma PlacedKept(h: Heap, h1: Heap, h2: Heap, proto: Ref, key: string, x: Val, k: string, plan: Placement)
    requires proto < |h| <= |h1| <= |h2| && k != key
    requires h2[..|h1|] == h1[proto := h1[proto].(own := h1[proto].own[key := x])]
    requires Placed(h, h1, proto, k, plan)
    ensures Placed(h, h2, proto, k, plan)
  {
    assert h2[proto] == h2[..|h1|][proto];
    if plan.Wrap? {
      var w := h1[proto].own[k].ref;
      assert h2[w] == h2[..|h1|][w];
    }
  }

  /** One callback keeps the shape of the heap and places its key as decided. */
  lemma InstallStep(h: Heap, h1: Heap, proto: Ref, props: Val, key: string, src: SuperSource, h2: Heap)
    requires Inputs(h, proto, props, src) && Extends(h, h1, proto) && Closed(h1)
    requires Install(h1, Obj(proto), props, key, src) == Ok(h2)
    ensures Plan(h, props, key, src).Ok?
    ensures Extends(h, h2, proto) && Closed(h2)
    ensures Plan(h, props, key, src).value.Skip? ==> h2 == h1
    ensures !Plan(h, props, key, src).value.Skip? ==> Placed(h, h2, proto, key, Plan(h, props, key, src).value)
    ensures forall k, plan :: k != key && Placed(h, h1, proto, k, plan) ==> Placed(h, h2, proto, k, plan)
  {
    PlanStable(h, h1, proto, props, key, src);
    match Plan(h, props, key, src).value
    case Skip =>
    case Copy(v) =>
      LookupClosed(h, props.ref, key);
      PutClosed(h1, Obj(proto), key, v);
      assert h2[..|h1|] == h1[proto := h1[proto].(own := h1[proto].own[key := v])];
      forall k, plan | k != key && Placed(h, h1, proto, k, plan)
        ensures Placed(h, h2, proto, k, plan)
      {
        PlacedKept(h, h1, h2, proto, key, v, k, plan);
      }
    case Wrap(member, supermethod) =>
      var (h0, w) := AllocFunction(h1, MethodWrapper(member, supermethod));
      AllocFunctionClosed(h1, MethodWrapper(member, supermethod));
      PutClosed(h0, Obj(proto), key, Obj(w));
      assert h2 == Put(h0, Obj(proto), key, Obj(w));
      assert h2[..|h1|] == h1[proto := h1[proto].(own := h1[proto].own[key := Obj(w)])];
      assert h2[w] == h0[w];
      forall k, plan | k != key && Placed(h, h1, proto, k, plan)
        ensures Placed(h, h2, proto, k, plan)
      {
        PlacedKept(h, h1, h2, proto, key, Obj(w), k, plan);
      }
  }

  /** What a loop over `keys` that did not throw leaves, judged on the heap it starts from. */
  ghost predicate Populated(h: Heap, h': Heap, proto: Ref, props: Val, keys: seq<string>, src: SuperSource)
    requires proto < |h|
  {
    Extends(h, h', proto) && Closed(h')
    && (forall k :: k in keys ==> Plan(h, props, k, src).Ok? && Placed(h, h', proto, k, Plan(h, props, k, src).value))
    && (forall k :: k !in keys ==> Placed(h, h', proto, k, Skip))
  }

  /** A loop that does not throw places every key as decided and leaves every other key alone. */
  lemma {:induction false} PopulateSucceeds(h: Heap, proto: Ref, props: Val, keys: seq<string>, src: SuperSource)
    requires Inputs(h, proto, props, src)
    ensures Populate(h, Obj(proto), props, keys, src).Ok? ==>
      Populated(h, Populate(h, Obj(proto), props, keys, src).value, proto, props, keys, src)
    decreases |keys|
  {
    if keys != [] && Populate(h, Obj(proto), props, keys, src).Ok? {
      var n := |keys|;
      var ks, key := keys[..n - 1], keys[n - 1];
      assert keys == ks + [key];
      PopulateSucceeds(h, proto, props, ks, src);
      var h1 := Populate(h, Obj(proto), props, ks, src).value;
      var h2 := Install(h1, Obj(proto), props, key, src).value;
      InstallStep(h, h1, proto, props, key, src, h2);
      forall k | k in keys
        ensures Plan(h, props, k, src).Ok? && Placed(h, h2, proto, k, Plan(h, props, k, src).value)
      {
        if k != key {
          assert k in ks;
        }
      }
    }
  }

  /**
   * The loop throws exactly when the decision for some key, judged on the
   * heap it starts from, is a throw, and then with the first such key's
   * exception.
   */
  lemma {:induction false} PopulateFails(h: Heap, proto: Ref, props: Val, keys: seq<string>, src: SuperSource)
    requires Inputs(h, proto, props, src)
    ensures Populate(h, Obj(proto), props, keys, src).Err?
        <==> exists i :: 0 <= i < |keys| && Plan(h, props, keys[i], src).Err?
    ensures Populate(h, Obj(proto), props, keys, src).Err? ==>
      exists i :: 0 <= i < |keys| && Plan(h, props, keys[i], src) == Err(Populate(h, Obj(proto), props, keys, src).error)
        && forall j :: 0 <= j < i ==> Plan(h, props, keys[j], src).Ok?
    decreases |keys|
  {
    if keys != [] {
      var n := |keys|;
      var ks, key := keys[..n - 1], keys[n - 1];
      assert keys == ks + [key];
      assert forall j :: 0 <= j < n - 1 ==> keys[j] == ks[j];
      PopulateFails(h, proto, props, ks, src);
      match Populate(h, Obj(proto), props, ks, src)
      case Err(e) =>
        var i :| 0 <= i < |ks| && Plan(h, props, ks[i], src) == Err(e)
          && forall j :: 0 <= j < i ==> Plan(h, props, ks[j], src).Ok?;
        assert keys[i] == ks[i];
      case Ok(h1) =>
        PopulateSucceeds(h, proto, props, ks, src);
        PlanStable(h, h1, proto, props, key, src);
        forall j | 0 <= j < n - 1
          ensures Plan(h, props, keys[j], src).Ok?
        {
          assert keys[j] in ks;
        }
        if Plan(h, props, key, src).Err? {
          assert Populate(h, Obj(proto), props, keys, src) == Err(Plan(h, props, key, src).error);
          assert Plan(h, props, keys[n - 1], src).Err?;
        } else {
          assert Populate(h, Obj(proto), props, keys, src).Ok?;
        }
    }
  }

  /**
   * The loop, judged on the heap it starts from: it throws exactly when the
   * decision for some key is a throw, and then with the first such key's
   * exception; otherwise every key is placed as decided and every other own
   * property of the prototype is left alone.
   */
  lemma PopulateOutcome(h: Heap, proto: Ref, props: Val, keys: seq<string>, src: SuperSource)
    requires Inputs(h, proto, props, src)
    ensures Populate(h, Obj(proto), props, keys, src).Err?
        <==> exists i :: 0 <= i < |keys| && Plan(h, props, keys[i], src).Err?
    ensures match Populate(h, Obj(proto), props, keys, src)
      case Err(e) =>
        exists i :: 0 <= i < |keys| && Plan(h, props, keys[i], src) == Err(e)
          && forall j :: 0 <= j < i ==> Plan(h, props, keys[j], src).Ok?
      case Ok(h') =>
        Extends(h, h', proto) && Closed(h')
        && (forall k :: k in keys ==> Plan(h, props, k, src).Ok? && Placed(h, h', proto, k, Plan(h, props, k, src).value))
        && (forall k :: k !in keys ==> Placed(h, h', proto, k, Skip))
  {
    PopulateSucceeds(h, proto, props, keys, src);
    PopulateFails(h, proto, props, keys, src);
  }

  /** The only `Error` the loop throws is the missing super method, naming its key. */
  lemma {:induction false} PopulateErrors(h: Heap, proto: Val, props: Val, keys: seq<string>, src: SuperSource)
    ensures match Populate(h, proto, props, keys, src)
      case Ok(_) => true
      case Err(e) => e.TypeError? || exists k :: k in keys && e == Error("No super method found for '" + k + "'")
    decreases |keys|
  {
    if keys != [] {
      var ks, key := keys[..|keys| - 1], keys[|keys| - 1];
      assert keys == ks + [key];
      PopulateErrors(h, proto, props, ks, src);
      match Populate(h, proto, props, ks, src)
      case Err(e) =>
        if !e.TypeError? {
          var k :| k in ks && e == Error("No super method found for '" + k + "'");
          assert k in keys;
        }
      case Ok(h1) =>
        if Install(h1, proto, props, key, src).Err? {
          MissingSuperMethod(h1, props, key, src);
          assert key in keys;
        }
    }
  }

  /** `h'` differs from `h` only in the own properties of `proto` and in appended objects. */
  predicate Frame(h: Heap, h': Heap, proto: Val) {
    |h| <= |h'| && (forall r :: 0 <= r < |h| && Obj(r) != proto ==> h'[r] == h[r])
    && (forall r :: 0 <= r < |h| ==> h'[r].proto == h[r].proto && h'[r].call == h[r].call)
  }

  lemma InstallFrame(h: Heap, proto: Val, props: Val, key: string, src: SuperSource)
    ensures Install(h, proto, props, key, src).Ok? ==> Frame(h, Install(h, proto, props, key, src).value, proto)
  {
    match Plan(h, props, key, src)
    case Err(_) =>
    case Ok(Skip) =>
    case Ok(Copy(v)) =>
    case Ok(Wrap(member, supermethod)) =>
      var (h0, w) := AllocFunction(h, MethodWrapper(member, supermethod));
      assert forall r :: 0 <= r < |h| ==> h0[r] == h0[..|h|][r] == h[r];
  }

  /** Whatever it reads, the loop writes only to the prototype and to objects it allocates. */
  lemma {:induction false} PopulateFrame(h: Heap, proto: Val, props: Val, keys: seq<string>, src: SuperSource)
    ensures Populate(h, proto, props, keys, src).Ok? ==> Frame(h, Populate(h, proto, props, keys, src).value, proto)
    decreases |keys|
  {
    if keys != [] {
      var ks, key := keys[..|keys| - 1], keys[|keys| - 1];
      PopulateFrame(h, proto, props, ks, src);
      if Populate(h, proto, props, ks, src).Ok? {
        InstallFrame(Populate(h, proto, props, ks, src).value, proto, props, key, src);
      }
    }
  }

  /**
   * "No super method found" is thrown for exactly the own `$super` members
   * whose super implementation is falsy or no function.
   */
  lemma MissingSuperMethod(h: Heap, props: Val, key: string, src: SuperSource)
    ensures Plan(h, props, key, src) == Err(Error("No super method found for '" + key + "'")) <==>
      key != "initialize" && HasOwn(h, props, key)
      && IsFunction(h, Lookup(h, props.ref, key)) && ArgumentNamesOf(h, Lookup(h, props.ref, key)).Some?
      && DeclaresSuper(ArgumentNamesOf(h, Lookup(h, props.ref, key)).value)
      && SuperMember(h, src, key).Some?
      && (!Truthy(SuperMember(h, src, key).value) || !IsFunction(h, SuperMember(h, src, key).value))
  {
  }

  /**
   * A member is wrapped exactly when it is an own `$super` function with a
   * super implementation that is a function; every other own member but
   * `initialize` is copied as it is, unless reading its names throws.
   */
  lemma Placements(h: Heap, props: Val, key: string, src: SuperSource)
    ensures Plan(h, props, key, src).Ok? && Plan(h, props, key, src).value.Wrap? <==>
      key != "initialize" && HasOwn(h, props, key)
      && IsFunction(h, Lookup(h, props.ref, key)) && ArgumentNamesOf(h, Lookup(h, props.ref, key)).Some?
      && DeclaresSuper(ArgumentNamesOf(h, Lookup(h, props.ref, key)).value)
      && SuperMember(h, src, key).Some? && IsFunction(h, SuperMember(h, src, key).value)
    ensures Plan(h, props, key, src) == Ok(Skip) <==> key == "initialize" || !HasOwn(h, props, key)
    ensures Plan(h, props, key, src).Ok? && Plan(h, props, key, src).value.Copy? ==>
      Plan(h, props, key, src).value.value == Lookup(h, props.ref, key)
    ensures Plan(h, props, key, src).Ok? && Plan(h, props, key, src).value.Wrap? ==>
      Plan(h, props, key, src).value == Wrap(Lookup(h, props.ref, key), SuperMember(h, src, key).value)
  {
  }

  /** `proto[key]` holds `member` itself or a `$super` wrapper around it. */
  predicate HoldsMember(h: Heap, proto: Ref, key: string, member: Val)
    requires proto < |h|
  {
    key in h[proto].own
    && (h[proto].own[key] == member
        || (CodeOf(h, h[proto].own[key]).Some? && CodeOf(h, h[proto].own[key]).value.MethodWrapper?
            && CodeOf(h, h[proto].own[key]).value.member == member))
  }

  /**
   * When `keys` holds every own key of `props`, as a for-in over it does, a
   * loop that does not throw puts every own member but `initialize` on the
   * prototype, itself or wrapped.
   */
  lemma EveryMemberPlaced(h: Heap, proto: Ref, props: Val, keys: seq<string>, src: SuperSource)
    requires Inputs(h, proto, props, src) && Populate(h, Obj(proto), props, keys, src).Ok?
    requires forall k :: HasOwn(h, props, k) ==> k in keys
    ensures var h' := Populate(h, Obj(proto), props, keys, src).value;
      proto < |h'| && forall k :: k != "initialize" && HasOwn(h, props, k) ==> HoldsMember(h', proto, k, Lookup(h, props.ref, k))
  {
    PopulateOutcome(h, proto, props, keys, src);
    var h' := Populate(h, Obj(proto), props, keys, src).value;
    forall k | k != "initialize" && HasOwn(h, props, k)
      ensures HoldsMember(h', proto, k, Lookup(h, props.ref, k))
    {
      Placements(h, props, k, src);
    }
  }
}
