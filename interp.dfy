/**
 * Calling and constructing functions: the behaviour of the code the builders
 * generate (default initializer, `$super` wrappers, `bind`) and of the small
 * user bodies the model admits. Every step spends one unit of `fuel`; a run
 * that exhausts it ends in `OutOfFuel`, which stands for "did not finish".
 */
module Interp {
  import opened Basics
  import opened JsHeap

  datatype Outcome<+T> = Done(heap: Heap, value: T) | Threw(exc: Exception)

  /** `bind(target, scope)`: a new function object that calls `target` with `this` fixed to `scope`. */
  function AllocBound(h: Heap, target: Val, scope: Val): (r: (Heap, Ref))
    ensures r.1 == |h| && |r.0| == |h| + 1 && r.0[..|h|] == h
    ensures CodeOf(r.0, Obj(r.1)) == Some(Bound(target, scope))
  {
    Alloc(h, Object(Some(FunctionPrototype), map[], Some(Bound(target, scope))))
  }

  /** `f.apply(thisv, args)`. */
  function Call(h: Heap, f: Val, thisv: Val, args: seq<Val>, fuel: nat): Outcome<Val>
    decreases fuel
  {
    if fuel == 0 then Threw(OutOfFuel)
    else match CodeOf(h, f)
      case None => Threw(TypeError("not a function"))
      case Some(code) =>
        match code
        case Source(_, body) => Exec(h, body, thisv, args, fuel - 1)
        case DefaultInit(superclazz) =>
          (match Call(h, superclazz, thisv, args, fuel - 1)
           case Threw(e) => Threw(e)
           case Done(h1, _) => Done(h1, Undefined))
        case InitWrapper(base, superclazz) =>
          var (h1, b) := AllocBound(h, superclazz, thisv);
          (match Call(h1, base, thisv, [Obj(b)] + args, fuel - 1)
           case Threw(e) => Threw(e)
           case Done(h2, _) => Done(h2, Undefined))
        case MethodWrapper(member, supermethod) =>
          var (h1, b) := AllocBound(h, supermethod, thisv);
          Call(h1, member, thisv, [Obj(b)] + args, fuel - 1)
        case Bound(target, scope) => Call(h, target, scope, args, fuel - 1)
        case ObjectFunction =>
          if |args| > 0 && args[0].Obj? then Done(h, args[0])
          else
            var (h1, o) := Alloc(h, Object(Some(ObjectPrototype), map[], None));
            Done(h1, Obj(o))
  }

  /** Runs statements; the value is what a `return` gives, else undefined. */
  function Exec(h: Heap, body: seq<Stmt>, thisv: Val, args: seq<Val>, fuel: nat): Outcome<Val>
    decreases fuel
  {
    if body == [] then Done(h, Undefined)
    else if fuel == 0 then Threw(OutOfFuel)
    else match body[0]
      case Return(e) => Eval(h, e, thisv, args, fuel - 1)
      case Discard(e) =>
        (match Eval(h, e, thisv, args, fuel - 1)
         case Threw(x) => Threw(x)
         case Done(h1, _) => Exec(h1, body[1..], thisv, args, fuel - 1))
      case Assign(key, e) =>
        match Eval(h, e, thisv, args, fuel - 1)
        case Threw(x) => Threw(x)
        case Done(h1, v) =>
          if thisv.Undefined? || thisv.Null? then Threw(TypeError("cannot set property of " + key))
          else Exec(Put(h1, thisv, key, v), body[1..], thisv, args, fuel - 1)
  }

  function Eval(h: Heap, e: Expr, thisv: Val, args: seq<Val>, fuel: nat): Outcome<Val>
    decreases fuel
  {
    if fuel == 0 then Threw(OutOfFuel)
    else match e
      case Arg(i) => Done(h, if i < |args| then args[i] else Undefined)
      case Const(v) => Done(h, v)
      case This => Done(h, thisv)
      case Field(target, key) =>
        (match Eval(h, target, thisv, args, fuel - 1)
         case Threw(x) => Threw(x)
         case Done(h1, o) =>
           match GetV(h1, o, key)
           case None => Threw(TypeError("cannot read property " + key))
           case Some(v) => Done(h1, v))
      case Scale(operand, factor) =>
        (match Eval(h, operand, thisv, args, fuel - 1)
         case Threw(x) => Threw(x)
         case Done(h1, v) => Done(h1, Times(v, factor)))
      case CallValue(callee, actuals) =>
        (match Eval(h, callee, thisv, args, fuel - 1)
         case Threw(x) => Threw(x)
         case Done(h1, f) =>
           match EvalList(h1, actuals, thisv, args, fuel - 1)
           case Threw(x) => Threw(x)
           case Done(h2, vs) => Call(h2, f, Undefined, vs, fuel - 1))
      case CallMember(target, key, actuals) =>
        (match Eval(h, target, thisv, args, fuel - 1)
         case Threw(x) => Threw(x)
         case Done(h1, o) =>
           match GetV(h1, o, key)
           case None => Threw(TypeError("cannot read property " + key))
           case Some(f) =>
             match EvalList(h1, actuals, thisv, args, fuel - 1)
             case Threw(x) => Threw(x)
             case Done(h2, vs) => Call(h2, f, o, vs, fuel - 1))
      case ObjectLiteral(entries) =>
        match EvalEntries(h, entries, thisv, args, fuel - 1)
        case Threw(x) => Threw(x)
        case Done(h1, own) =>
          var (h2, o) := Alloc(h1, Object(Some(ObjectPrototype), own, None));
          Done(h2, Obj(o))
  }

  function EvalList(h: Heap, es: seq<Expr>, thisv: Val, args: seq<Val>, fuel: nat): Outcome<seq<Val>>
    decreases fuel
  {
    if es == [] then Done(h, [])
    else if fuel == 0 then Threw(OutOfFuel)
    else match Eval(h, es[0], thisv, args, fuel - 1)
      case Threw(x) => Threw(x)
      case Done(h1, v) =>
        match EvalList(h1, es[1..], thisv, args, fuel - 1)
        case Threw(x) => Threw(x)
        case Done(h2, vs) => Done(h2, [v] + vs)
  }

  /** The entries of an object literal, in order; a later key overwrites an earlier one. */
  function EvalEntries(h: Heap, entries: seq<(string, Expr)>, thisv: Val, args: seq<Val>, fuel: nat)
    : Outcome<map<string, Val>>
    decreases fuel
  {
    if entries == [] then Done(h, map[])
    else if fuel == 0 then Threw(OutOfFuel)
    else
      var last := entries[|entries| - 1];
      match EvalEntries(h, entries[..|entries| - 1], thisv, args, fuel - 1)
      case Threw(x) => Threw(x)
      case Done(h1, own) =>
        match Eval(h1, last.1, thisv, args, fuel - 1)
        case Threw(x) => Threw(x)
        case Done(h2, v) => Done(h2, own[last.0 := v])
  }

  /** The object `new c(...)` allocates links to `c.prototype`, or to `Object.prototype` when that is no object. */
  function ConstructedProto(h: Heap, c: Val): Ref {
    match PrototypeOf(h, c)
    case Obj(p) => p
    case _ => ObjectPrototype
  }

  /**
   * `new c(args)`: a fresh object linked to `c.prototype`, on which `c` runs;
   * an object `c` returns replaces it. A bound function constructs its target.
   */
  function Construct(h: Heap, c: Val, args: seq<Val>, fuel: nat): Outcome<Val>
    decreases fuel
  {
    if fuel == 0 then Threw(OutOfFuel)
    else match CodeOf(h, c)
      case None => Threw(TypeError("not a constructor"))
      case Some(code) =>
        if code.Bound? then Construct(h, code.target, args, fuel - 1)
        else
          var (h1, o) := Alloc(h, Object(Some(ConstructedProto(h, c)), map[], None));
          match Call(h1, c, Obj(o), args, fuel - 1)
          case Threw(x) => Threw(x)
          case Done(h2, v) => Done(h2, if v.Obj? then v else Obj(o))
  }

  // ---------------------------------------------------------------------
  // Properties
  // ---------------------------------------------------------------------

  /** The run did not end in an `Error`: only engine errors come from running code. */
  predicate NoError<T>(o: Outcome<T>) {
    o.Threw? ==> !o.exc.Error?
  }

  /** No generated wrapper and no modelled body throws an `Error` of its own. */
  lemma {:induction false} CallNoError(h: Heap, f: Val, thisv: Val, args: seq<Val>, fuel: nat)
    ensures NoError(Call(h, f, thisv, args, fuel))
    decreases fuel
  {
    if fuel > 0 && CodeOf(h, f).Some? {
      match CodeOf(h, f).value
      case Source(_, body) => ExecNoError(h, body, thisv, args, fuel - 1);
      case DefaultInit(superclazz) => CallNoError(h, superclazz, thisv, args, fuel - 1);
      case InitWrapper(base, superclazz) =>
        var (h1, b) := AllocBound(h, superclazz, thisv);
        CallNoError(h1, base, thisv, [Obj(b)] + args, fuel - 1);
      case MethodWrapper(member, supermethod) =>
        var (h1, b) := AllocBound(h, supermethod, thisv);
        CallNoError(h1, member, thisv, [Obj(b)] + args, fuel - 1);
      case Bound(target, scope) => CallNoError(h, target, scope, args, fuel - 1);
      case ObjectFunction =>
    }
  }

  lemma {:induction false} ExecNoError(h: Heap, body: seq<Stmt>, thisv: Val, args: seq<Val>, fuel: nat)
    ensures NoError(Exec(h, body, thisv, args, fuel))
    decreases fuel
  {
    if body != [] && fuel > 0 {
      match body[0]
      case Return(e) => EvalNoError(h, e, thisv, args, fuel - 1);
      case Discard(e) =>
        EvalNoError(h, e, thisv, args, fuel - 1);
        if Eval(h, e, thisv, args, fuel - 1).Done? {
          ExecNoError(Eval(h, e, thisv, args, fuel - 1).heap, body[1..], thisv, args, fuel - 1);
        }
      case Assign(key, e) =>
        EvalNoError(h, e, thisv, args, fuel - 1);
        match Eval(h, e, thisv, args, fuel - 1) {
          case Threw(_) =>
          case Done(h1, v) => ExecNoError(Put(h1, thisv, key, v), body[1..], thisv, args, fuel - 1);
        }
    }
  }

  lemma {:induction false} EvalNoError(h: Heap, e: Expr, thisv: Val, args: seq<Val>, fuel: nat)
    ensures NoError(Eval(h, e, thisv, args, fuel))
    decreases fuel
  {
    if fuel > 0 {
      match e
      case Arg(_) =>
      case Const(_) =>
      case This =>
      case Field(target, _) => EvalNoError(h, target, thisv, args, fuel - 1);
      case Scale(operand, _) => EvalNoError(h, operand, thisv, args, fuel - 1);
      case CallValue(callee, actuals) =>
        EvalNoError(h, callee, thisv, args, fuel - 1);
        match Eval(h, callee, thisv, args, fuel - 1) {
          case Threw(_) =>
          case Done(h1, f) =>
            EvalListNoError(h1, actuals, thisv, args, fuel - 1);
            match EvalList(h1, actuals, thisv, args, fuel - 1) {
              case Threw(_) =>
              case Done(h2, vs) => CallNoError(h2, f, Undefined, vs, fuel - 1);
            }
        }
      case CallMember(target, key, actuals) =>
        EvalNoError(h, target, thisv, args, fuel - 1);
        match Eval(h, target, thisv, args, fuel - 1) {
          case Threw(_) =>
          case Done(h1, o) =>
            if GetV(h1, o, key).Some? {
              EvalListNoError(h1, actuals, thisv, args, fuel - 1);
              match EvalList(h1, actuals, thisv, args, fuel - 1) {
                case Threw(_) =>
                case Done(h2, vs) => CallNoError(h2, GetV(h1, o, key).value, o, vs, fuel - 1);
              }
            }
        }
      case ObjectLiteral(entries) => EvalEntriesNoError(h, entries, thisv, args, fuel - 1);
    }
  }

  lemma {:induction false} EvalListNoError(h: Heap, es: seq<Expr>, thisv: Val, args: seq<Val>, fuel: nat)
    ensures NoError(EvalList(h, es, thisv, args, fuel))
    decreases fuel
  {
    if es != [] && fuel > 0 {
      EvalNoError(h, es[0], thisv, args, fuel - 1);
      match Eval(h, es[0], thisv, args, fuel - 1)
      case Threw(_) =>
      case Done(h1, _) => EvalListNoError(h1, es[1..], thisv, args, fuel - 1);
    }
  }

  lemma {:induction false} EvalEntriesNoError(h: Heap, entries: seq<(string, Expr)>, thisv: Val, args: seq<Val>, fuel: nat)
    ensures NoError(EvalEntries(h, entries, thisv, args, fuel))
    decreases fuel
  {
    if entries != [] && fuel > 0 {
      EvalEntriesNoError(h, entries[..|entries| - 1], thisv, args, fuel - 1);
      match EvalEntries(h, entries[..|entries| - 1], thisv, args, fuel - 1)
      case Threw(_) =>
      case Done(h1, _) => EvalNoError(h1, entries[|entries| - 1].1, thisv, args, fuel - 1);
    }
  }

  lemma {:induction false} ConstructNoError(h: Heap, c: Val, args: seq<Val>, fuel: nat)
    ensures NoError(Construct(h, c, args, fuel))
    decreases fuel
  {
    if fuel > 0 && CodeOf(h, c).Some? {
      var code := CodeOf(h, c).value;
      if code.Bound? {
        ConstructNoError(h, code.target, args, fuel - 1);
      } else {
        var (h1, o) := Alloc(h, Object(Some(ConstructedProto(h, c)), map[], None));
        CallNoError(h1, c, Obj(o), args, fuel - 1);
      }
    }
  }

  /**
   * Running code changes properties and appends objects, but never the code
   * or the prototype link of an existing object.
   */
  predicate KeepsCode<T>(h: Heap, o: Outcome<T>) {
    o.Done? ==> |h| <= |o.heap| && forall r :: 0 <= r < |h| ==> o.heap[r].call == h[r].call && o.heap[r].proto == h[r].proto
  }

  lemma {:induction false} CallKeepsCode(h: Heap, f: Val, thisv: Val, args: seq<Val>, fuel: nat)
    ensures KeepsCode(h, Call(h, f, thisv, args, fuel))
    decreases fuel
  {
    if fuel > 0 && CodeOf(h, f).Some? {
      match CodeOf(h, f).value
      case Source(_, body) => ExecKeepsCode(h, body, thisv, args, fuel - 1);
      case DefaultInit(superclazz) => CallKeepsCode(h, superclazz, thisv, args, fuel - 1);
      case InitWrapper(base, superclazz) =>
        var (h1, b) := AllocBound(h, superclazz, thisv);
        CallKeepsCode(h1, base, thisv, [Obj(b)] + args, fuel - 1);
        assert forall r :: 0 <= r < |h| ==> h1[r] == h1[..|h|][r];
      case MethodWrapper(member, supermethod) =>
        var (h1, b) := AllocBound(h, supermethod, thisv);
        CallKeepsCode(h1, member, thisv, [Obj(b)] + args, fuel - 1);
        assert forall r :: 0 <= r < |h| ==> h1[r] == h1[..|h|][r];
      case Bound(target, scope) => CallKeepsCode(h, target, scope, args, fuel - 1);
      case ObjectFunction =>
    }
  }

  lemma {:induction false} ExecKeepsCode(h: Heap, body: seq<Stmt>, thisv: Val, args: seq<Val>, fuel: nat)
    ensures KeepsCode(h, Exec(h, body, thisv, args, fuel))
    decreases fuel
  {
    if body != [] && fuel > 0 {
      match body[0]
      case Return(e) => EvalKeepsCode(h, e, thisv, args, fuel - 1);
      case Discard(e) =>
        EvalKeepsCode(h, e, thisv, args, fuel - 1);
        if Eval(h, e, thisv, args, fuel - 1).Done? {
          ExecKeepsCode(Eval(h, e, thisv, args, fuel - 1).heap, body[1..], thisv, args, fuel - 1);
        }
      case Assign(key, e) =>
        EvalKeepsCode(h, e, thisv, args, fuel - 1);
        match Eval(h, e, thisv, args, fuel - 1) {
          case Threw(_) =>
          case Done(h1, v) => ExecKeepsCode(Put(h1, thisv, key, v), body[1..], thisv, args, fuel - 1);
        }
    }
  }

  lemma {:induction false} EvalKeepsCode(h: Heap, e: Expr, thisv: Val, args: seq<Val>, fuel: nat)
    ensures KeepsCode(h, Eval(h, e, thisv, args, fuel))
    decreases fuel
  {
    if fuel > 0 {
      match e
      case Arg(_) =>
      case Const(_) =>
      case This =>
      case Field(target, _) => EvalKeepsCode(h, target, thisv, args, fuel - 1);
      case Scale(operand, _) => EvalKeepsCode(h, operand, thisv, args, fuel - 1);
      case CallValue(callee, actuals) =>
        EvalKeepsCode(h, callee, thisv, args, fuel - 1);
        match Eval(h, callee, thisv, args, fuel - 1) {
          case Threw(_) =>
          case Done(h1, f) =>
            EvalListKeepsCode(h1, actuals, thisv, args, fuel - 1);
            match EvalList(h1, actuals, thisv, args, fuel - 1) {
              case Threw(_) =>
              case Done(h2, vs) => CallKeepsCode(h2, f, Undefined, vs, fuel - 1);
            }
        }
      case CallMember(target, key, actuals) =>
        EvalKeepsCode(h, target, thisv, args, fuel - 1);
        match Eval(h, target, thisv, args, fuel - 1) {
          case Threw(_) =>
          case Done(h1, o) =>
            if GetV(h1, o, key).Some? {
              EvalListKeepsCode(h1, actuals, thisv, args, fuel - 1);
              match EvalList(h1, actuals, thisv, args, fuel - 1) {
                case Threw(_) =>
                case Done(h2, vs) => CallKeepsCode(h2, GetV(h1, o, key).value, o, vs, fuel - 1);
              }
            }
        }
      case ObjectLiteral(entries) => EvalEntriesKeepsCode(h, entries, thisv, args, fuel - 1);
    }
  }

  lemma {:induction false} EvalListKeepsCode(h: Heap, es: seq<Expr>, thisv: Val, args: seq<Val>, fuel: nat)
    ensures KeepsCode(h, EvalList(h, es, thisv, args, fuel))
    decreases fuel
  {
    if es != [] && fuel > 0 {
      EvalKeepsCode(h, es[0], thisv, args, fuel - 1);
      match Eval(h, es[0], thisv, args, fuel - 1)
      case Threw(_) =>
      case Done(h1, _) => EvalListKeepsCode(h1, es[1..], thisv, args, fuel - 1);
    }
  }

  lemma {:induction false} EvalEntriesKeepsCode(h: Heap, entries: seq<(string, Expr)>, thisv: Val, args: seq<Val>, fuel: nat)
    ensures KeepsCode(h, EvalEntries(h, entries, thisv, args, fuel))
    decreases fuel
  {
    if entries != [] && fuel > 0 {
      EvalEntriesKeepsCode(h, entries[..|entries| - 1], thisv, args, fuel - 1);
      match EvalEntries(h, entries[..|entries| - 1], thisv, args, fuel - 1)
      case Threw(_) =>
      case Done(h1, _) => EvalKeepsCode(h1, entries[|entries| - 1].1, thisv, args, fuel - 1);
    }
  }

  lemma {:induction false} ConstructKeepsCode(h: Heap, c: Val, args: seq<Val>, fuel: nat)
    ensures KeepsCode(h, Construct(h, c, args, fuel))
    decreases fuel
  {
    if fuel > 0 && CodeOf(h, c).Some? {
      var code := CodeOf(h, c).value;
      if code.Bound? {
        ConstructKeepsCode(h, code.target, args, fuel - 1);
      } else {
        var (h1, o) := Alloc(h, Object(Some(ConstructedProto(h, c)), map[], None));
        CallKeepsCode(h1, c, Obj(o), args, fuel - 1);
      }
    }
  }

  /** `new c(...)` on a function that is no bound function links the object it allocates to `c.prototype`. */
  lemma ConstructLinks(h: Heap, c: Val, args: seq<Val>, fuel: nat)
    requires CodeOf(h, c).Some? && !CodeOf(h, c).value.Bound?
    ensures var made := Construct(h, c, args, fuel);
      made.Done? ==>
        |h| < |made.heap| && made.heap[|h|].proto == Some(ConstructedProto(h, c))
        && forall r :: 0 <= r < |h| ==> made.heap[r].call == h[r].call && made.heap[r].proto == h[r].proto
  {
    if fuel > 0 {
      var (h1, o) := Alloc(h, Object(Some(ConstructedProto(h, c)), map[], None));
      CallKeepsCode(h1, c, Obj(o), args, fuel - 1);
    }
  }

  /**
   * `new c(args)` with a default initializer: a new object linked to
   * `c.prototype`, on which the superclass runs with exactly `args`.
   */
  lemma ConstructDefault(h: Heap, c: Val, superclazz: Val, args: seq<Val>, fuel: nat)
    requires CodeOf(h, c) == Some(DefaultInit(superclazz)) && fuel >= 2
    ensures var h1 := h + [Object(Some(ConstructedProto(h, c)), map[], None)];
      Construct(h, c, args, fuel) ==
        match Call(h1, superclazz, Obj(|h|), args, fuel - 2)
        case Threw(e) => Threw(e)
        case Done(h2, _) => Done(h2, Obj(|h|))
  {
    var h1 := h + [Object(Some(ConstructedProto(h, c)), map[], None)];
    assert CodeOf(h1, c) == CodeOf(h, c);
  }

  /**
   * `new c(args)` with a `$super` initializer wrapper: a new object linked to
   * `c.prototype`; the user's initializer runs on it with, prepended to
   * `args`, the superclass bound to that same object.
   */
  lemma ConstructWrapped(h: Heap, c: Val, base: Val, superclazz: Val, args: seq<Val>, fuel: nat)
    requires CodeOf(h, c) == Some(InitWrapper(base, superclazz)) && fuel >= 2
    ensures var h1 := h + [Object(Some(ConstructedProto(h, c)), map[], None)];
      var h2 := h1 + [Object(Some(FunctionPrototype), map[], Some(Bound(superclazz, Obj(|h|))))];
      Construct(h, c, args, fuel) ==
        match Call(h2, base, Obj(|h|), [Obj(|h| + 1)] + args, fuel - 2)
        case Threw(e) => Threw(e)
        case Done(h3, _) => Done(h3, Obj(|h|))
  {
    var h1 := h + [Object(Some(ConstructedProto(h, c)), map[], None)];
    assert CodeOf(h1, c) == CodeOf(h, c);
  }

  /** The superclass handed to a `$super` initializer runs on the instance, whatever `this` it is called with. */
  lemma BoundRunsOnScope(h: Heap, b: Val, target: Val, scope: Val, thisv: Val, args: seq<Val>, fuel: nat)
    requires CodeOf(h, b) == Some(Bound(target, scope)) && fuel >= 1
    ensures Call(h, b, thisv, args, fuel) == Call(h, target, scope, args, fuel - 1)
  {
  }

  /** Calling a `$super` method wrapper calls the member with the super method bound to the same `this` first. */
  lemma MethodWrapperCall(h: Heap, w: Val, member: Val, supermethod: Val, thisv: Val, args: seq<Val>, fuel: nat)
    requires CodeOf(h, w) == Some(MethodWrapper(member, supermethod)) && fuel >= 1
    ensures Call(h, w, thisv, args, fuel)
      == Call(h + [Object(Some(FunctionPrototype), map[], Some(Bound(supermethod, thisv)))], member, thisv,
              [Obj(|h|)] + args, fuel - 1)
  {
  }

  /** A body without `return` statements. */
  predicate NoReturn(body: seq<Stmt>) {
    forall i :: 0 <= i < |body| ==> !body[i].Return?
  }

  /** A body without `return` gives back `undefined`. */
  lemma {:induction false} ExecNoReturn(h: Heap, body: seq<Stmt>, thisv: Val, args: seq<Val>, fuel: nat)
    requires NoReturn(body)
    ensures Exec(h, body, thisv, args, fuel).Done? ==> Exec(h, body, thisv, args, fuel).value == Undefined
    decreases fuel
  {
    if body != [] && fuel > 0 {
      assert NoReturn(body[1..]) by {
        forall i | 0 <= i < |body[1..]| ensures !body[1..][i].Return? {
          assert body[1..][i] == body[i + 1];
        }
      }
      match body[0]
      case Discard(e) =>
        var made := Eval(h, e, thisv, args, fuel - 1);
        if made.Done? {
          ExecNoReturn(made.heap, body[1..], thisv, args, fuel - 1);
        }
      case Assign(key, e) =>
        var made := Eval(h, e, thisv, args, fuel - 1);
        if made.Done? && !(thisv.Undefined? || thisv.Null?) {
          ExecNoReturn(Put(made.heap, thisv, key, made.value), body[1..], thisv, args, fuel - 1);
        }
    }
  }

  /** A constructor that returns nothing: an initializer or one of the two generated initializers. */
  predicate Initializes(h: Heap, c: Val) {
    match CodeOf(h, c)
    case Some(Source(_, body)) => NoReturn(body)
    case Some(DefaultInit(_)) => true
    case Some(InitWrapper(_, _)) => true
    case _ => false
  }

  /** `new c(...)` on such a constructor yields the object it allocated, linked to `c.prototype`. */
  lemma ConstructSelf(h: Heap, c: Val, args: seq<Val>, fuel: nat)
    requires Initializes(h, c)
    ensures var made := Construct(h, c, args, fuel);
      made.Done? ==>
        made.value == Obj(|h|) && |h| < |made.heap| && made.heap[|h|].proto == Some(ConstructedProto(h, c))
  {
    if fuel > 0 {
      var (h1, o) := Alloc(h, Object(Some(ConstructedProto(h, c)), map[], None));
      assert CodeOf(h1, c) == CodeOf(h, c);
      if fuel > 1 {
        match CodeOf(h, c).value
        case Source(_, body) => ExecNoReturn(h1, body, Obj(o), args, fuel - 2);
        case DefaultInit(_) =>
        case InitWrapper(_, _) =>
      }
      ConstructLinks(h, c, args, fuel);
    }
  }

  /**
   * `new clazz(args)` for a constructor whose `prototype` is `p`, linked to
   * `superclazz.prototype`: the object `new` allocates is an instance of the
   * class and of the superclass, as long as the constructor's run leaves the
   * two `prototype` properties in place.
   */
  lemma NewInstanceInherits(h: Heap, clazz: Ref, p: Ref, superclazz: Ref, sp: Ref, args: seq<Val>, fuel: nat)
    requires clazz < |h| && Lookup(h, clazz, "prototype") == Obj(p)
    requires CodeOf(h, Obj(clazz)).Some? && !CodeOf(h, Obj(clazz)).value.Bound?
    requires superclazz < |h| && IsFunction(h, Obj(superclazz)) && p < |h| && h[p].proto == Some(sp) && sp < p
    ensures var made := Construct(h, Obj(clazz), args, fuel);
      made.Done? && PrototypeOf(made.heap, Obj(clazz)) == Obj(p) && PrototypeOf(made.heap, Obj(superclazz)) == Obj(sp) ==>
        InstanceOf(made.heap, Obj(|h|), Obj(clazz)) == Some(true)
        && InstanceOf(made.heap, Obj(|h|), Obj(superclazz)) == Some(true)
  {
    var made := Construct(h, Obj(clazz), args, fuel);
    ConstructLinks(h, Obj(clazz), args, fuel);
    if made.Done? && PrototypeOf(made.heap, Obj(clazz)) == Obj(p) && PrototypeOf(made.heap, Obj(superclazz)) == Obj(sp) {
      InheritsThrough(made.heap, clazz, p, superclazz, sp, |h|);
    }
  }

  /**
   * `new clazz(args)` for a constructor whose `prototype` is `p`, linked to
   * `p1`: the object `new` allocates is no instance of a class whose
   * `prototype` is not `p` and newer than `p1`.
   */
  lemma NewNotInstanceOfNewer(h: Heap, clazz: Ref, p: Ref, p1: Ref, args: seq<Val>, fuel: nat, c: Ref, q: Ref)
    requires clazz < |h| && Lookup(h, clazz, "prototype") == Obj(p)
    requires CodeOf(h, Obj(clazz)).Some? && !CodeOf(h, Obj(clazz)).value.Bound?
    requires p < |h| && h[p].proto == Some(p1) && p1 < p
    ensures var made := Construct(h, Obj(clazz), args, fuel);
      made.Done? && IsFunction(made.heap, Obj(c)) && Lookup(made.heap, c, "prototype") == Obj(q) && q != p && p1 < q
      ==> InstanceOf(made.heap, Obj(|h|), Obj(c)) == Some(false)
  {
    var made := Construct(h, Obj(clazz), args, fuel);
    ConstructLinks(h, Obj(clazz), args, fuel);
    if made.Done? && IsFunction(made.heap, Obj(c)) && Lookup(made.heap, c, "prototype") == Obj(q) && q != p && p1 < q {
      NotInstanceOfNewer(made.heap, |h|, p, p1, c, q);
    }
  }
}
