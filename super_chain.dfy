/**
 * How `$super` method wrappers chain through several levels: each wrapper
 * binds the super method it captured at definition time to the receiver, so
 * a call walks down the levels one by one on the same object.
 */
module SuperChain {
  import opened Basics
  import opened JsHeap
  import opened Interp

  /** `function($super, x) { $super(x * factor); }` */
  function ScaledSuperBody(factor: real): seq<Stmt> {
    [Discard(CallValue(Arg(0), [Scale(Arg(1), factor)]))]
  }

  /** `function(x) { this.value = x; }` */
  function SetterBody(): seq<Stmt> {
    [Assign("value", Arg(0))]
  }

  /** `f`'s code is user source with the given body. */
  predicate HasBody(h: Heap, f: Val, body: seq<Stmt>) {
    CodeOf(h, f).Some? && CodeOf(h, f).value.Source? && CodeOf(h, f).value.body == body
  }

  /** The bound function a wrapper allocates for its `$super`. */
  function BoundObject(supermethod: Val, thisv: Val): Object {
    Object(Some(FunctionPrototype), map[], Some(Bound(supermethod, thisv)))
  }

  /** A setter stores its argument in `value` on the receiver and changes nothing else. */
  lemma SetterStores(h: Heap, s: Val, d: Ref, x: Val, fuel: nat)
    requires HasBody(h, s, SetterBody()) && d < |h| && fuel >= 3
    ensures Call(h, s, Obj(d), [x], fuel) == Done(h[d := h[d].(own := h[d].own["value" := x])], Undefined)
  {
    var body := SetterBody();
    assert body[1..] == [];
    assert Eval(h, Arg(0), Obj(d), [x], fuel - 2) == Done(h, x);
    var h' := Put(h, Obj(d), "value", x);
    assert Exec(h', body[1..], Obj(d), [x], fuel - 2) == Done(h', Undefined);
    assert Exec(h, body, Obj(d), [x], fuel - 1) == Done(h', Undefined);
  }

  /**
   * A wrapped `function($super, x) { $super(x * factor); }` runs the super
   * method it was built with on the same receiver, with the scaled argument.
   */
  lemma ScaledSuperCall(h: Heap, w: Val, member: Val, supermethod: Val, thisv: Val, x: Val, factor: real, fuel: nat)
    requires CodeOf(h, w) == Some(MethodWrapper(member, supermethod)) && HasBody(h, member, ScaledSuperBody(factor))
    requires fuel >= 7
    ensures Call(h, w, thisv, [x], fuel) ==
      match Call(h + [BoundObject(supermethod, thisv)], supermethod, thisv, [Times(x, factor)], fuel - 5)
      case Threw(e) => Threw(e)
      case Done(h', _) => Done(h', Undefined)
  {
    var h1 := h + [BoundObject(supermethod, thisv)];
    var b := |h|;
    assert CodeOf(h1, member) == CodeOf(h, member);
    var args := [Obj(b)] + [x];
    var body := ScaledSuperBody(factor);
    assert body[1..] == [];
    assert Eval(h1, Arg(0), thisv, args, fuel - 4) == Done(h1, Obj(b));
    assert Eval(h1, Scale(Arg(1), factor), thisv, args, fuel - 5) == Done(h1, Times(x, factor));
    var actuals := [Scale(Arg(1), factor)];
    assert actuals[0] == Scale(Arg(1), factor) && actuals[1..] == [];
    assert EvalList(h1, actuals[1..], thisv, args, fuel - 5) == Done(h1, []);
    assert [Times(x, factor)] + [] == [Times(x, factor)];
    assert EvalList(h1, actuals, thisv, args, fuel - 4) == Done(h1, [Times(x, factor)]);
    assert Call(h1, Obj(b), Undefined, [Times(x, factor)], fuel - 4)
      == Call(h1, supermethod, thisv, [Times(x, factor)], fuel - 5);
    var inner := Call(h1, supermethod, thisv, [Times(x, factor)], fuel - 5);
    assert Eval(h1, body[0].e, thisv, args, fuel - 3) == inner;
    if inner.Done? {
      assert Exec(inner.heap, body[1..], thisv, args, fuel - 3) == Done(inner.heap, Undefined);
    }
    assert Call(h1, member, thisv, args, fuel - 1) == Exec(h1, body, thisv, args, fuel - 2);
  }

  /** The three `set` methods of the `Num`, `Doubler`, `DoublerNeutralizer` chain, as the builder lays them out. */
  predicate NeutralizerLayout(h: Heap, neutralizerSet: Val, halve: Val, doublerSet: Val, double: Val, numSet: Val) {
    CodeOf(h, neutralizerSet) == Some(MethodWrapper(halve, doublerSet)) && HasBody(h, halve, ScaledSuperBody(0.5))
    && CodeOf(h, doublerSet) == Some(MethodWrapper(double, numSet)) && HasBody(h, double, ScaledSuperBody(2.0))
    && HasBody(h, numSet, SetterBody())
  }

  /**
   * `d.set(6)` on a `DoublerNeutralizer`: halved, then doubled by `Doubler`'s
   * `set`, then stored by `Num`'s: the value is 6 again, and only the two
   * bound functions are new.
   */
  lemma NeutralizedSet(h: Heap, neutralizerSet: Val, halve: Val, doublerSet: Val, double: Val, numSet: Val,
                       d: Ref, fuel: nat)
    requires NeutralizerLayout(h, neutralizerSet, halve, doublerSet, double, numSet) && d < |h| && fuel >= 13
    ensures var made := Call(h, neutralizerSet, Obj(d), [Num(6.0)], fuel);
      made.Done? && |made.heap| == |h| + 2 && made.heap[d].own == h[d].own["value" := Num(6.0)]
  {
    ScaledSuperCall(h, neutralizerSet, halve, doublerSet, Obj(d), Num(6.0), 0.5, fuel);
    var h1 := h + [BoundObject(doublerSet, Obj(d))];
    assert CodeOf(h1, doublerSet) == CodeOf(h, doublerSet) && CodeOf(h1, double) == CodeOf(h, double);
    assert CodeOf(h1, numSet) == CodeOf(h, numSet);
    ScaledSuperCall(h1, doublerSet, double, numSet, Obj(d), Num(3.0), 2.0, fuel - 5);
    var h2 := h1 + [BoundObject(numSet, Obj(d))];
    assert CodeOf(h2, numSet) == CodeOf(h, numSet);
    SetterStores(h2, numSet, d, Num(6.0), fuel - 10);
  }
}
