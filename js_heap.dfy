/**
 * The part of a JavaScript realm the class builders touch: values, objects
 * with a prototype link and own properties, function objects carrying their
 * code, property lookup along the prototype chain and `instanceof`.
 *
 * The heap is a sequence of objects and a reference is an index into it. A
 * prototype link is followed only when it points to an older object (a
 * smaller index); every heap built here allocates a prototype before the
 * objects that link to it, so on those heaps the guard never cuts a chain.
 */
module JsHeap {
  import opened Basics
  import opened ArgNames

  type Ref = nat

  datatype Val =
    | Undefined
    | Null
    | Bool(b: bool)
    | Num(n: real)
    | NaN
    | Str(s: string)
    | Obj(ref: Ref)

  /** JavaScript's `!!v`. */
  predicate Truthy(v: Val) {
    match v
    case Undefined => false
    case Null => false
    case Bool(b) => b
    case Num(n) => n != 0.0
    case NaN => false
    case Str(s) => s != ""
    case Obj(_) => true
  }

  /** `v * factor`; operands other than numbers are not converted and give NaN. */
  function Times(v: Val, factor: real): Val {
    if v.Num? then Num(v.n * factor) else NaN
  }

  /** What a throw carries out of the builders and the code they generate. */
  datatype Exception =
    | Error(message: string)     // `new Error(message)`
    | TypeError(reason: string)  // raised by the engine itself
    | OutOfFuel                  // the interpreter's step budget ran out

  /** Expressions of user-written function bodies. */
  datatype Expr =
    | Arg(index: nat)                              // arguments[index], undefined past the end
    | Const(v: Val)
    | This
    | Field(target: Expr, key: string)             // target.key
    | Scale(operand: Expr, factor: real)           // operand * factor (also `/ d` as `* (1/d)`)
    | CallValue(callee: Expr, args: seq<Expr>)     // callee(args...), with `this` undefined
    | CallMember(target: Expr, key: string, args: seq<Expr>)  // target.key(args...)
    | ObjectLiteral(entries: seq<(string, Expr)>)  // { key: value, ... }

  /** Statements of user-written function bodies. */
  datatype Stmt =
    | Assign(key: string, value: Expr)  // this.key = value;
    | Discard(e: Expr)                  // e;
    | Return(e: Expr)                   // return e;

  /** The behaviour behind a function object. */
  datatype Code =
    | Source(text: string, body: seq<Stmt>)   // written by the user
    | DefaultInit(superclazz: Val)            // function(){ superclazz.apply(this, arguments); }
    | InitWrapper(base: Val, superclazz: Val) // the `$super` wrapper of an initializer
    | MethodWrapper(member: Val, supermethod: Val)  // the `$super` wrapper of a method
    | Bound(target: Val, scope: Val)          // bind(target, scope), either path of `bind`
    | ObjectFunction                          // the built-in `Object`

  datatype Object = Object(proto: Option<Ref>, own: map<string, Val>, call: Option<Code>)

  type Heap = seq<Object>

  /** The realm's object store, which the builders update in place. */
  class Realm {
    var heap: Heap

    constructor (h: Heap)
      ensures heap == h
    {
      heap := h;
    }
  }

  const ObjectPrototype: Ref := 0
  const FunctionPrototype: Ref := 1
  const ObjectConstructor: Ref := 2

  /** `Object.prototype`, `Function.prototype` and `Object`. */
  function BaseHeap(): (h: Heap)
    ensures |h| == 3
  {
    [ Object(None, map["constructor" := Obj(ObjectConstructor)], None),
      Object(Some(ObjectPrototype), map[], Some(Source(FunctionText(" ", "", " { [native code] }"), []))),
      Object(Some(FunctionPrototype), map["prototype" := Obj(ObjectPrototype)], Some(ObjectFunction)) ]
  }

  /** The code of a value when it is a function: `typeof v === "function"`. */
  function CodeOf(h: Heap, v: Val): Option<Code> {
    if v.Obj? && v.ref < |h| then h[v.ref].call else None
  }

  /** `isFunction` of both builders. */
  predicate IsFunction(h: Heap, v: Val) {
    CodeOf(h, v).Some?
  }

  /** `fn.toString()` of the code the builders generate and of the built-ins. */
  function CodeText(code: Code): string {
    match code
    case Source(text, _) => text
    case DefaultInit(_) => FunctionText("", "", "{ superclazz.apply(this, arguments); }")
    case InitWrapper(_, _) =>
      FunctionText("", "", " { baseClazzConstructor.apply(this, [bind(superclazz, this)].concat(slice.call(arguments))); }")
    case MethodWrapper(_, _) =>
      FunctionText("", "", " { return member.apply(this, [bind(supermethod, this)].concat(slice.call(arguments))); }")
    case Bound(_, _) => FunctionText(" ", "", " { [native code] }")
    case ObjectFunction => FunctionText(" Object", "", " { [native code] }")
  }

  /**
   * `v.toString()`: the source text of a function, a string itself, and for
   * other values a text that does not begin with `function` (the decimal form
   * of a number is not modelled). `undefined` and `null` throw.
   */
  function ToText(h: Heap, v: Val): Option<string> {
    match v
    case Undefined => None
    case Null => None
    case Bool(b) => Some(if b then "true" else "false")
    case Num(_) => Some("0")
    case NaN => Some("NaN")
    case Str(s) => Some(s)
    case Obj(_) =>
      match CodeOf(h, v)
      case Some(code) => Some(CodeText(code))
      case None => Some("[object Object]")
  }

  /**
   * `extractFunctionArgumentNames(v)`: `None` when `toString` or the indexing
   * of the failed match throws.
   */
  function ArgumentNamesOf(h: Heap, v: Val): Option<seq<string>> {
    match ToText(h, v)
    case None => None
    case Some(text) => ArgumentNames(text)
  }

  /** `v[key]` on an object: its own property, else the prototype's, and so on. */
  function Lookup(h: Heap, r: Ref, key: string): Val
    decreases r
  {
    if r >= |h| then Undefined
    else if key in h[r].own then h[r].own[key]
    else match h[r].proto
      case Some(p) => if p < r then Lookup(h, p, key) else Undefined
      case None => Undefined
  }

  /**
   * `v[key]` on any value: `None` when `v` is undefined or null (a TypeError);
   * properties of the primitive wrappers are not modelled.
   */
  function GetV(h: Heap, v: Val, key: string): Option<Val> {
    match v
    case Undefined => None
    case Null => None
    case Obj(r) => Some(Lookup(h, r, key))
    case _ => Some(Undefined)
  }

  /** `ctor.prototype` for a value known not to be undefined or null. */
  function PrototypeOf(h: Heap, ctor: Val): Val {
    if ctor.Obj? then Lookup(h, ctor.ref, "prototype") else Undefined
  }

  /** `v.hasOwnProperty(key)`; primitives are taken to have no own properties. */
  predicate HasOwn(h: Heap, v: Val, key: string) {
    v.Obj? && v.ref < |h| && key in h[v.ref].own
  }

  /** `v[key] = x` on an object; on a primitive the (non-strict) assignment is lost. */
  function Put(h: Heap, v: Val, key: string, x: Val): (h': Heap)
    ensures |h'| == |h|
  {
    if v.Obj? && v.ref < |h| then h[v.ref := h[v.ref].(own := h[v.ref].own[key := x])] else h
  }

  /** `delete v[key]` on an object. */
  function Delete(h: Heap, v: Val, key: string): (h': Heap)
    ensures |h'| == |h|
  {
    if v.Obj? && v.ref < |h| then h[v.ref := h[v.ref].(own := h[v.ref].own - {key})] else h
  }

  /** A new object at the end of the heap. */
  function Alloc(h: Heap, obj: Object): (r: (Heap, Ref))
    ensures r.0 == h + [obj] && r.1 == |h|
  {
    (h + [obj], |h|)
  }

  /**
   * A function expression: the function object and the fresh object its
   * `prototype` property holds, whose `constructor` points back at it.
   */
  function AllocFunction(h: Heap, code: Code): (r: (Heap, Ref))
    ensures r.1 == |h| && |r.0| == |h| + 2 && r.0[..|h|] == h
    ensures r.0[|h|] == Object(Some(FunctionPrototype), map["prototype" := Obj(|h| + 1)], Some(code))
    ensures r.0[|h| + 1] == Object(Some(ObjectPrototype), map["constructor" := Obj(|h|)], None)
  {
    var f := |h|;
    (h + [Object(Some(FunctionPrototype), map["prototype" := Obj(f + 1)], Some(code)),
          Object(Some(ObjectPrototype), map["constructor" := Obj(f)], None)], f)
  }

  /** The objects met walking up the prototype chain of `r`, nearest first. */
  function Ancestors(h: Heap, r: Ref): (chain: seq<Ref>)
    ensures forall i :: 0 <= i < |chain| ==> chain[i] < r
    decreases r
  {
    if r < |h| && h[r].proto.Some? && h[r].proto.value < r then
      var p := h[r].proto.value;
      [p] + Ancestors(h, p)
    else []
  }

  /**
   * `v instanceof c`: `None` (a TypeError) when `c` is not a function, `false`
   * for a primitive `v` before `c.prototype` is read, and `None` when that
   * `prototype` is not an object.
   */
  function InstanceOf(h: Heap, v: Val, c: Val): Option<bool> {
    if !IsFunction(h, c) then None
    else if !v.Obj? then Some(false)
    else match Lookup(h, c.ref, "prototype")
      case Obj(p) => Some(v.Obj? && p in Ancestors(h, v.ref))
      case _ => None
  }

  /** `v` is no reference, or one to an object older than `bound`. */
  predicate Below(v: Val, bound: nat) {
    v.Obj? ==> v.ref < bound
  }

  /** Every property value of the heap refers into the heap. */
  ghost predicate Closed(h: Heap) {
    forall r, k :: 0 <= r < |h| && k in h[r].own ==> Below(h[r].own[k], |h|)
  }

  /** Two heaps agree on every object older than `bound`. */
  predicate SameBelow(h: Heap, h': Heap, bound: nat) {
    bound <= |h| && bound <= |h'| && h[..bound] == h'[..bound]
  }

  // ---------------------------------------------------------------------
  // Properties
  // ---------------------------------------------------------------------

  /** A lookup from an object reads only that object and older ones. */
  lemma {:induction false} LookupBelow(h: Heap, h': Heap, bound: nat, r: Ref, key: string)
    requires SameBelow(h, h', bound) && r < bound
    ensures Lookup(h', r, key) == Lookup(h, r, key)
    decreases r
  {
    assert h[r] == h[..bound][r] == h'[..bound][r] == h'[r];
    match h[r].proto
    case Some(p) =>
      if p < r && key !in h[r].own {
        LookupBelow(h, h', bound, p, key);
      }
    case None =>
  }

  /** The chain of an object is made of that object's elders only, so it too is kept. */
  lemma {:induction false} AncestorsBelow(h: Heap, h': Heap, bound: nat, r: Ref)
    requires SameBelow(h, h', bound) && r < bound
    ensures Ancestors(h', r) == Ancestors(h, r)
    decreases r
  {
    assert h[r] == h[..bound][r] == h'[..bound][r] == h'[r];
    if h[r].proto.Some? && h[r].proto.value < r {
      AncestorsBelow(h, h', bound, h[r].proto.value);
    }
  }

  /**
   * Lookup finds an own property first, else the value of the first object up
   * the prototype chain that has the key, and `undefined` when none has it.
   */
  lemma {:induction false} LookupIsFirstOnChain(h: Heap, r: Ref, key: string)
    requires r < |h|
    ensures key in h[r].own ==> Lookup(h, r, key) == h[r].own[key]
    ensures key !in h[r].own && Lookup(h, r, key) != Undefined ==>
      exists i :: 0 <= i < |Ancestors(h, r)| && key in h[Ancestors(h, r)[i]].own
        && Lookup(h, r, key) == h[Ancestors(h, r)[i]].own[key]
    ensures var chain := Ancestors(h, r);
      key !in h[r].own && (forall i :: 0 <= i < |chain| ==> key !in h[chain[i]].own) ==>
        Lookup(h, r, key) == Undefined
    ensures var chain := Ancestors(h, r);
      key !in h[r].own ==>
        forall i :: 0 <= i < |chain| && key in h[chain[i]].own && (forall j :: 0 <= j < i ==> key !in h[chain[j]].own) ==>
          Lookup(h, r, key) == h[chain[i]].own[key]
    decreases r
  {
    var chain := Ancestors(h, r);
    if key !in h[r].own {
      if Lookup(h, r, key) != Undefined {
        LookupFoundOnChain(h, r, key);
      }
      if forall i :: 0 <= i < |chain| ==> key !in h[chain[i]].own {
        LookupNoHolder(h, r, key);
      }
      forall i | 0 <= i < |chain| && key in h[chain[i]].own && (forall j :: 0 <= j < i ==> key !in h[chain[j]].own)
        ensures Lookup(h, r, key) == h[chain[i]].own[key]
      {
        LookupFirstHolder(h, r, key, i);
      }
    }
  }

  /** A lookup the object cannot answer itself, if not `undefined`, is the value of some object up its chain. */
  lemma {:induction false} LookupFoundOnChain(h: Heap, r: Ref, key: string)
    requires r < |h| && key !in h[r].own && Lookup(h, r, key) != Undefined
    ensures exists i :: 0 <= i < |Ancestors(h, r)| && key in h[Ancestors(h, r)[i]].own
                        && Lookup(h, r, key) == h[Ancestors(h, r)[i]].own[key]
    decreases r
  {
    var p := h[r].proto.value;
    var chain := Ancestors(h, r);
    var rest := Ancestors(h, p);
    assert chain == [p] + rest && chain[0] == p;
    assert Lookup(h, r, key) == Lookup(h, p, key);
    if key !in h[p].own {
      LookupFoundOnChain(h, p, key);
      var i :| 0 <= i < |rest| && key in h[rest[i]].own && Lookup(h, p, key) == h[rest[i]].own[key];
      assert chain[i + 1] == rest[i];
    }
  }

  /** A lookup of a key that neither the object nor any object up its chain has is `undefined`. */
  lemma {:induction false} LookupNoHolder(h: Heap, r: Ref, key: string)
    requires r < |h| && key !in h[r].own
    requires forall i :: 0 <= i < |Ancestors(h, r)| ==> key !in h[Ancestors(h, r)[i]].own
    ensures Lookup(h, r, key) == Undefined
    decreases r
  {
    if h[r].proto.Some? && h[r].proto.value < r {
      var p := h[r].proto.value;
      var chain := Ancestors(h, r);
      var rest := Ancestors(h, p);
      assert chain == [p] + rest;
      assert chain[0] == p;
      forall i | 0 <= i < |rest|
        ensures key !in h[rest[i]].own
      {
        assert rest[i] == chain[i + 1];
      }
      LookupNoHolder(h, p, key);
    }
  }

  /** A lookup the object cannot answer itself gives the value of the first holder up its chain. */
  lemma {:induction false} LookupFirstHolder(h: Heap, r: Ref, key: string, i: nat)
    requires r < |h| && key !in h[r].own
    requires i < |Ancestors(h, r)| && key in h[Ancestors(h, r)[i]].own
    requires forall j :: 0 <= j < i ==> key !in h[Ancestors(h, r)[j]].own
    ensures Lookup(h, r, key) == h[Ancestors(h, r)[i]].own[key]
    decreases r
  {
    var p := h[r].proto.value;
    var chain := Ancestors(h, r);
    var rest := Ancestors(h, p);
    assert chain == [p] + rest && chain[0] == p;
    if i > 0 {
      assert chain[i] == rest[i - 1];
      forall j | 0 <= j < i - 1
        ensures key !in h[rest[j]].own
      {
        assert rest[j] == chain[j + 1];
      }
      LookupFirstHolder(h, p, key, i - 1);
    }
  }

  /** What a lookup finds in a closed heap refers into the heap. */
  lemma {:induction false} LookupClosed(h: Heap, r: Ref, key: string)
    requires Closed(h)
    ensures Below(Lookup(h, r, key), |h|)
    decreases r
  {
    if r < |h| && key !in h[r].own && h[r].proto.Some? && h[r].proto.value < r {
      LookupClosed(h, h[r].proto.value, key);
    }
  }

  /** Storing a value that refers into the heap keeps it closed. */
  lemma PutClosed(h: Heap, v: Val, key: string, x: Val)
    requires Closed(h) && Below(x, |h|)
    ensures Closed(Put(h, v, key, x))
  {
  }

  /** Appending an object whose properties refer into the heap it joins keeps the heap closed. */
  lemma AllocClosed(h: Heap, obj: Object)
    requires Closed(h) && forall k :: k in obj.own ==> Below(obj.own[k], |h| + 1)
    ensures Closed(Alloc(h, obj).0)
  {
    var h' := Alloc(h, obj).0;
    forall r, k | 0 <= r < |h'| && k in h'[r].own
      ensures Below(h'[r].own[k], |h'|)
    {
      if r < |h| {
        assert h'[r] == h[r];
      }
    }
  }

  /** A new function object and its prototype object refer only to each other. */
  lemma AllocFunctionClosed(h: Heap, code: Code)
    requires Closed(h)
    ensures Closed(AllocFunction(h, code).0)
  {
    var h' := AllocFunction(h, code).0;
    forall r, k | 0 <= r < |h'| && k in h'[r].own
      ensures Below(h'[r].own[k], |h'|)
    {
      if r < |h| {
        assert h'[r] == h'[..|h|][r] == h[r];
      }
    }
  }

  /** The prototype chain of `r` continues with the chain of every object on it. */
  lemma {:induction false} AncestorsStep(h: Heap, r: Ref, q: Ref, p: Ref)
    requires q in Ancestors(h, r) && q < |h| && h[q].proto == Some(p) && p < q
    ensures p in Ancestors(h, r)
    decreases r
  {
    var r1 := h[r].proto.value;
    assert Ancestors(h, r) == [r1] + Ancestors(h, r1);
    if q == r1 {
      assert Ancestors(h, q) == [p] + Ancestors(h, p);
    } else {
      AncestorsStep(h, r1, q, p);
    }
  }

  /**
   * An object linked directly to `p` has on its chain only `p` and objects
   * older than `p`: nothing newer than `p` makes it an instance.
   */
  lemma NewerNotAncestor(h: Heap, x: Ref, p: Ref, q: Ref)
    requires x < |h| && h[x].proto == Some(p) && p < x && p < q
    ensures q !in Ancestors(h, x)
  {
    assert Ancestors(h, x) == [p] + Ancestors(h, p);
  }

  /**
   * A constructor whose `prototype` is an object `p` linked to the
   * superclass's `prototype`: objects linked to `p` are its instances, and its
   * instances are the superclass's.
   */
  lemma InheritsThrough(h: Heap, clazz: Ref, p: Ref, superclazz: Ref, sp: Ref, x: Ref)
    requires clazz < |h| && Lookup(h, clazz, "prototype") == Obj(p)
    requires superclazz < |h| && Lookup(h, superclazz, "prototype") == Obj(sp)
    requires IsFunction(h, Obj(superclazz)) && p < |h| && h[p].proto == Some(sp) && sp < p
    ensures IsFunction(h, Obj(clazz)) && x < |h| && h[x].proto == Some(p) && p < x
      ==> InstanceOf(h, Obj(x), Obj(clazz)) == Some(true)
    ensures InstanceOf(h, Obj(x), Obj(clazz)) == Some(true) ==> InstanceOf(h, Obj(x), Obj(superclazz)) == Some(true)
  {
    if x < |h| && h[x].proto == Some(p) && p < x {
      assert Ancestors(h, x) == [p] + Ancestors(h, p);
    }
    if InstanceOf(h, Obj(x), Obj(clazz)) == Some(true) {
      AncestorsStep(h, x, p, sp);
    }
  }
  /**
   * An object whose chain starts `p`, `p1` is no instance of a class whose
   * prototype is not `p` and newer than `p1`: a sibling class defined later.
   */
  lemma NotInstanceOfNewer(h: Heap, x: Ref, p: Ref, p1: Ref, c: Ref, q: Ref)
    requires x < |h| && h[x].proto == Some(p) && p < x && h[p].proto == Some(p1) && p1 < p
    requires IsFunction(h, Obj(c)) && Lookup(h, c, "prototype") == Obj(q) && q != p && p1 < q
    ensures InstanceOf(h, Obj(x), Obj(c)) == Some(false)
  {
    assert Ancestors(h, x) == [p] + Ancestors(h, p);
    NewerNotAncestor(h, p, p1, q);
  }
}
