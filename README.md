# clutility / classify in Dafny

A model of the minimalistic JavaScript class builder in its two published
variants, with proofs about it:

- `clutility(superclazz, props)` (v0.0.2, `dist/clutility.js`) links the new
  prototype to `superclazz.prototype` through a throw-away constructor, and
  without `initialize` it uses a fresh initializer that applies the superclass;
- `classify(superclazz, props)` (v0.0.1, `dist/classify.js`) takes
  `new superclazz()` as the prototype, deletes its own properties, and without
  `initialize` falls back to the script's single `noop` function.

Both variants normalise their arguments, call a member factory with the
superclass prototype, wrap any function whose first declared parameter is
`$super`, and fill the prototype key by key, failing at definition time when a
`$super` method has no super implementation.

The JavaScript world they act on is modelled as a heap of objects
(`JsHeap`): an object is a prototype link, a map of own properties and,
for a function object, its code. References are indices, and a prototype
link is only followed to an older object. Property lookup and `instanceof`
are walks along that chain. Running code (`Interp`) covers the code the
builders generate (the default initializer, the two `$super` wrappers,
`bind`), the built-in `Object`, and user function bodies written in a small
statement language. Each step spends fuel.

Files:

- `basics.dfy`: `Option` and `Result`.
- `arg_names.dfy` (`ArgNames`): `extractFunctionArgumentNames`, i.e. the comment and whitespace stripper, the header match and the comma split.
- `js_heap.dfy` (`JsHeap`): values, objects, the `Realm` whose heap the builders update in place, lookup, `instanceof`, `isFunction`.
- `interp.dfy` (`Interp`): calling and constructing functions.
- `members.dfy` (`Members`): argument normalisation and the member-population loop, which both variants share.
- `clutility.dfy` (`Clutility`): the v0.0.2 builder.
- `classify.dfy` (`Classify`): the v0.0.1 builder.
- `super_chain.dfy` (`SuperChain`): how `$super` method wrappers chain through several levels.

Each builder is written twice:

- a specification function `Build(h, args, keys, ...)` gives the heap afterwards and the class constructor, or the exception;
- a `method Define` runs the builder in place on a `Realm`, with the population loop as `Members.Fill` and classify's deletion loop as `Classify.DeleteOwn`, and is proved to agree with `Build`.

The for-in enumeration order of the member mapping is the parameter `keys`.

At these points the code behaves as follows:

- The code throws `Error("Super class not defined")` for any falsy first argument. That includes a call with no arguments and a single falsy member mapping, not only a superclass explicitly passed as falsy.
- A `$super` initializer is wrapped without any check that the superclass exists or is callable. Only `$super` members of the prototype are checked.
- The builder is not free of side effects:
  - it sets `prototype` on the function given as `initialize` (and, in v0.0.1, on the shared `noop`);
  - the member factory may change the heap.
- The throws that the code raises without a named error of its own are modelled as `TypeError` outcomes:
  - reading `initialize` of `null` or `undefined`;
  - the header match failing on a source that does not start with `function`, which makes `[1]` read from `null`;
  - reading the super member when the superclass's `prototype` is `undefined` or `null`. For any other primitive the read gives `undefined`, and the loop throws "No super method found" instead.
  - `new superclazz()` in v0.0.1 on a superclass that is not a constructor, as in `classify(5, {...})` (`dist/classify.js:44`).

## Model

| member | source | states |
|---|---|---|
| ArgNames.LineEnd | dist/clutility.js:87 | `//.*$` stops at the first line terminator after the comment start, or at the end |
| ArgNames.CommentClose | dist/clutility.js:87 | the lazy block-comment match ends at the first `*/` at or after its start, and `None` means there is none |
| ArgNames.Strip | dist/clutility.js:87 | the text after removing comments and whitespace has no whitespace left, is never longer, and only holds characters of the input |
| ArgNames.IndexOf | dist/clutility.js:88 | the first index holding the character, or `None` when none does |
| ArgNames.MatchHeader | dist/clutility.js:88 | a match needs a text starting `function`; group 1 holds no `)` and no whitespace |
| ArgNames.Split | dist/clutility.js:89 | `split(/,/)` gives at least one piece, no piece holds a comma, and pieces only hold characters of the input |
| ArgNames.ArgumentNames | dist/clutility.js:84-90 | when the header matches, the names are a non-empty list of whitespace-free names |
| ArgNames.JoinSplit | dist/clutility.js:89 | re-joining the pieces with commas gives back the text |
| ArgNames.SplitJoin | dist/clutility.js:89 | splitting comma-free pieces joined with commas gives back the pieces |
| ArgNames.StripConcat | dist/clutility.js:87 | text without `/` is stripped piecewise, since no comment straddles the seam |
| ArgNames.StripKeepsPlainText | dist/clutility.js:87 | text with neither whitespace nor `/` is left as it is |
| ArgNames.StripPlainPrefix | dist/clutility.js:87 | a plain prefix passes through stripping unchanged |
| ArgNames.StripAround | dist/clutility.js:87 | stripping around a single non-space, non-`/` delimiter strips both sides separately |
| ArgNames.StripHeader | dist/clutility.js:87 | a function header is stripped part by part, keeping its parentheses |
| ArgNames.StripBlockComment | dist/clutility.js:87 | a block comment, from slash-star to the first star-slash, is removed whole and nothing after it is touched |
| ArgNames.StripLineComment | dist/clutility.js:87 | a line comment is removed up to its line terminator, and the terminator goes as whitespace |
| ArgNames.StripAfterBlockComment | dist/clutility.js:87 | after `/`-free text, a block comment vanishes from the stripped result |
| ArgNames.StripAfterLineComment | dist/clutility.js:87 | after `/`-free text, a line comment and its terminator vanish from the stripped result |
| ArgNames.MatchOfHeader | dist/clutility.js:88 | group 1 of the header match is exactly the text between the first `(` and the next `)` |
| ArgNames.HeaderNames | dist/clutility.js:84-90 | the names of `function <name>(<params>)...` are the parameter list with whitespace removed, split on commas |
| ArgNames.ParameterlessNames | dist/clutility.js:84-90 | a parameterless function yields `[""]` and is never taken for a `$super` function |
| ArgNames.CommentedParameters | dist/clutility.js:84-90 | a block comment in the parameter list, even one holding `)` or `,`, leaves the names those of the list without it |
| ArgNames.LineCommentedParameters | dist/clutility.js:84-90 | a line comment in the parameter list leaves the names those of the list without it |
| ArgNames.CommentedDeclaredNames | dist/clutility.js:84-90 | declared plain names read back exactly with a block comment anywhere in the list, so `function($super /* parent */, x)` still declares `$super` |
| ArgNames.NoHeader | dist/clutility.js:88 | a text starting with a plain word other than `function` has no header match, so reading its names throws |
| ArgNames.PlainObjectNames | dist/clutility.js:84-90 | the text of a plain object, `[object Object]`, has no names: reading them throws |
| ArgNames.JoinPlain | dist/clutility.js:88-89 | plain names joined with commas hold nothing that stripping or the header match looks at |
| ArgNames.DeclaredNames | dist/clutility.js:84-90 | round trip: the names read back from a function declaring plain names `p1,...,pn` are exactly those names |
| JsHeap.LookupIsFirstOnChain | dist/clutility.js:68 | `o[key]` is the own property if there is one, else the value of the first object up the prototype chain that has the key, and `undefined` when no object on the chain has it |
| JsHeap.LookupFoundOnChain | dist/clutility.js:68 | a key that is not own and reads as something other than `undefined` is held by some object up the chain, and the read gives its value |
| JsHeap.LookupNoHolder | dist/clutility.js:68 | a key held by no object on the chain reads as `undefined` |
| JsHeap.LookupFirstHolder | dist/clutility.js:68 | a key that is not own reads as the value of the first object up the chain that holds it |
| JsHeap.AncestorsStep | dist/clutility.js:57-58 | the prototype chain of an object continues with the chain of every object on it |
| JsHeap.NewerNotAncestor | dist/classify.js:44 | an object linked directly to `p` has on its chain only `p` and objects older than `p` |
| JsHeap.InheritsThrough | dist/clutility.js:57-58 | for a class whose `prototype` is linked to the superclass's `prototype`, objects linked to it are instances of the class, and instances of the class are instances of the superclass |
| JsHeap.NotInstanceOfNewer | dist/classify.js:44 | an instance is not an instance of a class whose prototype is newer than its grandparent prototype and is not its parent prototype, i.e. a sibling defined later |
| Interp.AllocBound | dist/clutility.js:92-96 | `bind(fn, scope)` is a new function object whose code calls `fn` with `this` fixed to `scope`; older objects are untouched |
| Interp.BoundRunsOnScope | dist/clutility.js:92-96 | calling a bound function runs its target on the bound scope, whatever `this` it is called with |
| Interp.ConstructLinks | dist/classify.js:44 | `new c(...)` links the object it allocates to `c.prototype`, and running `c` changes no prototype link or code of an older object |
| Interp.ConstructSelf | dist/classify.js:44 | `new c(...)` on an initializer without `return`, or on a generated initializer, yields the object it allocated, linked to `c.prototype` |
| Interp.ConstructDefault | dist/clutility.js:35-38 | `new C(args)` with the default initializer allocates an object linked to `C.prototype`, runs the superclass on it with exactly `args`, and yields it |
| Interp.ConstructWrapped | dist/clutility.js:40-45 | `new C(args)` with a `$super` initializer runs the user initializer on the new object with the superclass bound to that object prepended to `args` |
| Interp.NewInstanceInherits | dist/clutility.js:54-58 | for a constructor whose `prototype` is linked to the superclass's `prototype`, the object `new` allocates is an instance of both, provided running the constructor leaves both `prototype` properties in place |
| Interp.NewNotInstanceOfNewer | dist/classify.js:44 | the object `new` allocates for such a constructor is no instance of a class whose `prototype` is not the constructor's and is newer than the superclass's |
| Interp.MethodWrapperCall | dist/clutility.js:72-74 | a `$super` method wrapper calls the member on the same `this` with the super method bound to `this` first, and returns the member's result |
| Members.Arguments | dist/clutility.js:25-26 | with one argument, the superclass is `Object` and the argument is the member mapping; with two or more, they are the first two |
| Members.ErrorPersists | dist/clutility.js:63-79 | once the callback throws, later keys change nothing and the loop throws the same exception |
| Members.InstallKey | dist/clutility.js:64-78 | one callback of `each`, in place: the realm's heap becomes the one the decision for the key gives, or the callback's exception is returned |
| Members.Fill | dist/clutility.js:63-79 | the `each(props, ...)` loop, in place: it ends with the heap of the key-by-key fold, or with the exception of the first failing key |
| Members.PlanStable | dist/clutility.js:63-79 | filling the prototype never changes the decision for any key, so every decision is fixed before the loop starts |
| Members.PopulateSucceeds | dist/clutility.js:63-79 | a loop that does not throw places every key as decided, leaves every other key alone, and changes no older object but the prototype |
| Members.PopulateFails | dist/clutility.js:63-79 | the loop throws exactly when some key's decision, judged on the heap it starts from, is a throw, and then with the first such key's exception |
| Members.PopulateOutcome | dist/clutility.js:63-79 | the loop throws exactly when some key's decision is a throw, and then with the first such key's exception. Otherwise every key is placed as decided (copied as it is, wrapped with its super method, or skipped) and no other property or older object changes |
| Members.EveryMemberPlaced | dist/clutility.js:63-79 | when `keys` holds every own key of the mapping, a loop that does not throw leaves every own member but `initialize` on the prototype, as itself or as a `$super` wrapper around it |
| Members.PopulateErrors | dist/clutility.js:67-70 | the only `Error` the loop throws is "No super method found for '<key>'" for one of the keys |
| Members.InstallFrame | dist/clutility.js:64-78 | a callback writes only to the prototype and to objects it allocates |
| Members.PopulateFrame | dist/clutility.js:63-79 | the whole loop writes only to the prototype and to objects it allocates, and changes no prototype link or code |
| Members.MissingSuperMethod | dist/clutility.js:67-70 | characterises the per-key decision: it is the "No super method found" throw for exactly the own `$super` members, other than `initialize`, whose super implementation is falsy or is no function |
| Members.Placements | dist/clutility.js:64-78 | characterises the per-key decision: `initialize` and inherited keys are skipped, and nothing else is. A member is wrapped exactly when it is an own `$super` function with a callable super implementation, and then with that implementation. Any other member is copied unchanged |
| Clutility.Define | dist/clutility.js:18-81 | `clutility(...)` run in place returns the constructor and leaves the heap `Build` gives, or returns `Build`'s exception |
| Clutility.TmpConstructed | dist/clutility.js:54-58 | `new tmpConstuctor()` is a fresh object linked to `superclazz.prototype` whose only own property is `constructor`, and the superclass body does not run |
| Clutility.InitializerShape | dist/clutility.js:33-45 | the constructor is a fresh default initializer without `initialize`, a fresh `$super` wrapper around `initialize` when its first parameter is `$super`, and `initialize` itself otherwise; an unreadable source throws |
| Clutility.SetUpShape | dist/clutility.js:54-58 | setting up the prototype succeeds: the class's `prototype` is a new object linked to `superclazz.prototype` with only `constructor` |
| Clutility.PrototypeSetUpOver | dist/clutility.js:54-58 | a prototype set up after a new constructor was allocated is also set up relative to the heap before that allocation |
| Clutility.StageFor | dist/clutility.js:33-58 | with a readable `initialize`, the stage before the loop has the constructor kind and the prototype layout above |
| Clutility.ClassForShape | dist/clutility.js:33-58 | reading `initialize` of null/undefined or an unreadable initializer source throws. Otherwise the builder reaches the loop with that stage |
| Clutility.StageInputs | dist/clutility.js:63-68 | the loop starts with the prototype newer than the mapping and than the superclass prototype |
| Clutility.MissingSuperclass | dist/clutility.js:18-20 | the definition throws "Super class not defined" exactly when the first argument is missing or falsy |
| Clutility.OneArgument | dist/clutility.js:25-26 | a single argument defines a direct subclass of `Object` with it as the member mapping |
| Clutility.Factory | dist/clutility.js:28-29 | a function given as member source is called with `superclazz.prototype`. Its exception is the definition's exception, and what it returns is the member mapping |
| Clutility.Defined | dist/clutility.js:18-81 | the definition fails exactly when some member's decision is a throw, and then with the first such member's exception. Otherwise the constructor's `prototype` is a new object linked to `superclazz.prototype`, holding `constructor` and the members as decided, and no older object except the constructor has changed |
| Clutility.EveryMemberDefined | dist/clutility.js:18-81 | when `keys` holds every own key of the mapping, a definition that does not throw leaves every own member but `initialize` on the new prototype, as itself or as a `$super` wrapper around it |
| Clutility.InstancesInherit | dist/clutility.js:54-58 | the object `new clazz(...)` allocates on the defined class is an instance of the class and of the superclass, provided running the constructor leaves both `prototype` properties in place |
| Clutility.DistinctDefaultConstructors | dist/clutility.js:35-38 | two classes defined without `initialize` get different constructors, and the second definition leaves the first's prototype in place |
| Classify.Load | dist/classify.js:105 | loading the script creates the one `noop` function object |
| Classify.DeleteOwn | dist/classify.js:51-52 | the deletion loop, in place: the prototype ends with no own properties and no other object changes |
| Classify.Define | dist/classify.js:18-78 | `classify(...)` run in place returns the constructor and leaves the heap `Build` gives, or returns `Build`'s exception |
| Classify.MissingSuperclass | dist/classify.js:18-20 | the definition throws "Super class not defined" exactly when the first argument is missing or falsy |
| Classify.OneArgument | dist/classify.js:25-26 | a single argument defines a direct subclass of `Object` with it as the member mapping |
| Classify.Factory | dist/classify.js:28-29 | a function given as member source is called with `superclazz.prototype`. Its exception is the definition's exception, and what it returns is the member mapping |
| Classify.NoopNames | dist/classify.js:33-34 | `noop` declares no parameters, so it is never wrapped |
| Classify.RelinkShape | dist/classify.js:44-54 | after the relinking, the prototype's only own property is `constructor` and the class's `prototype` is the prototype; prototype links and code are unchanged |
| Classify.InitializerShape | dist/classify.js:33-39 | the constructor is `noop` without `initialize`, a fresh `$super` wrapper around `initialize` when its first parameter is `$super`, and `initialize` itself otherwise |
| Classify.ClassForShape | dist/classify.js:33-55 | the stage before the loop: constructor kind as above, the prototype stripped to `constructor`, and the super source is `superclazz.prototype` read after the relinking |
| Classify.ObjectConstructs | dist/classify.js:44 | `new Object()` yields a fresh object linked to `Object.prototype` |
| Classify.NoopClass | dist/classify.js:33 | a one-argument definition without `initialize` returns `noop` itself and stores the new prototype in `noop.prototype` |
| Classify.SharedDefaultConstructor | dist/classify.js:33 | two definitions without `initialize` return the very same constructor, and the second replaces the first class's prototype |
| Classify.NoopInstance | dist/classify.js:105 | `new noop(...)` runs nothing: the instance is a fresh object with no own properties, linked to `noop.prototype` |
| Classify.SuperclassConstructs | dist/classify.js:44 | `new superclazz()`, for a superclass that returns nothing or for `Object`, yields a new object linked to `superclazz.prototype` as it was before, and leaves the superclass's code alone. For a superclass that returns nothing, it is the object `new` allocated |
| Classify.StagePrototype | dist/classify.js:44-54 | for a superclass that returns nothing or for `Object`, the prototype is the new object `new superclazz()` gave, linked to `superclazz.prototype`, and is the class's `prototype` |
| Classify.PrototypeLinked | dist/classify.js:44-76 | the same holds after the members are filled in |
| Classify.InstancesInherit | dist/classify.js:44-54 | the object `new clazz(...)` allocates on the defined class is an instance of the class and of the superclass, provided running the constructor leaves both `prototype` properties in place |
| Classify.NotSiblingInstance | dist/classify.js:44-54 | the object `new clazz(...)` allocates on the defined class is no instance of another class whose prototype is newer than the superclass's, i.e. a sibling defined later |
| SuperChain.SetterStores | test/test.js:15-17 | `set: function(x) { this.value = x; }` stores its argument in `value` on the receiver and changes nothing else |
| SuperChain.ScaledSuperCall | dist/classify.js:69-71 | a wrapped `function($super, x) { $super(x * k); }` runs the super method it was built with on the same receiver, with the scaled argument |
| SuperChain.NeutralizedSet | test/test.js:82-96 | `d.set(6)` on a `DoublerNeutralizer` halves, then doubles through `Doubler`'s `set`, then stores through `Num`'s: `value` is 6 again |

## Left out

- Module export and global registration (`dist/clutility.js:108-111`, `dist/classify.js:107-110`) are environment plumbing. The build tooling (`Gruntfile.js`) is left out too.
- The for-in enumeration is not derived: both the order and the set of keys are the `keys` parameter. Keys of the mapping are only ever copied when they are its own keys. `Members.PopulateOutcome` and `Clutility.Defined` hold for any `keys`, so they say nothing about an own key missing from it. `Members.EveryMemberPlaced` and `Clutility.EveryMemberDefined` take as a hypothesis that `keys` holds every own key, as the for-in does.
- Non-enumerable properties, getters and setters are not modelled, and neither are a `hasOwnProperty` overridden by the mapping or properties of primitive wrappers (a primitive has no properties here).
- Numbers are reals plus a `NaN` value. Floating-point rounding, and conversions from numbers to strings, are not modelled. Conversions to numbers are not modelled either: in `JsHeap.Times`, a string or boolean operand gives `NaN`, where JavaScript first converts it (`"3" * 2` is 6).
- `Function.prototype.toString` is given, not derived. User functions carry their source text, and the generated code and the built-ins have fixed condensed texts. Regular expressions are modelled only as far as `extractFunctionArgumentNames` uses them.
- User function bodies are a small statement language: field writes, reads, calls, scaling and object literals. Arbitrary JavaScript is not modelled.
- Both paths of `bind` are one bound-function value. `new` on a bound function constructs its target, and `instanceof` with a bound function on the right is not modelled.
- Sloppy-mode `this` coercion is not modelled. Calling a user function with `this` undefined and assigning to `this.x` is a `TypeError` outcome.
- Running code spends fuel. Running out of fuel is the `OutOfFuel` outcome, which stands for "did not finish"; the lemmas state how much fuel suffices where they need it.
- On a throw, the prototype left half-filled on the constructor is dropped. `Build` returns only the exception.
- Clutility.Defined: holds for a closed heap, for arguments that refer into it and for a mapping that is no factory. It also needs the superclass to have its own `prototype` and `initialize` not to be the superclass itself. Other calls are covered only by `Define`/`Build` and the general lemmas.
- Members.PopulateOutcome: assumes a closed heap with the prototype newer than the mapping and than the super source. The classify variant has no lemma like `Clutility.Defined`, because closedness after running `new superclazz()` (user code can store any constant) is not proved.
- Classify.StagePrototype: assumes a superclass whose `new` gives a new object linked to its `prototype`: one that returns nothing (`noop`, `$super` wrappers, bodies without `return`) or `Object`. A superclass that returns an object of its own from `new` is not covered. It also assumes a closed heap and a member mapping that is an object, not a factory. The same holds for `Classify.PrototypeLinked`, `Classify.InstancesInherit` and `Classify.NotSiblingInstance`.
- Classify.InstancesInherit: holds only for a mapping that is no factory, in a closed heap, with a superclass as for `Classify.StagePrototype`. It speaks of the object `new clazz(...)` allocates, for a constructor that is not a bound function, and only when running the constructor leaves the class's and the superclass's `prototype` in place. User code can reassign either, and `instanceof` with a bound function is not modelled.
- Clutility.InstancesInherit: holds only for a call like that of `Clutility.Defined`: a closed heap, arguments that refer into it, a mapping that is no factory, a superclass with its own `prototype` holding an object, and an `initialize` that is not the superclass itself and whose source, when truthy, can be read. It speaks of the object `new clazz(...)` allocates, for a constructor that is not a bound function, and only when running the constructor leaves the class's and the superclass's `prototype` in place.
- Classify.NotSiblingInstance: holds only for a mapping that is no factory, in a closed heap, with a superclass as for `Classify.StagePrototype`. It speaks of the object `new clazz(...)` allocates, for a constructor that is not a bound function.
- SuperChain.NeutralizedSet: is stated over any heap where the three `set` methods are laid out as the builder installs them, not through three calls of `Build`.
- `test/test.js:73` (`state` is `"shared"` without an initializer) holds only for v0.0.1 and is not stated for `Clutility`. There its default initializer runs the superclass, as `Interp.ConstructDefault` states.

## Findings

| source | as written | input that shows it | evidently intended | confidence | as-written member | corrected member |
|---|---|---|---|---|---|---|
| dist/classify.js:33 | without `initialize` the constructor is `noop`, one function object shared by every class the script defines (`dist/classify.js:105`) | `classify({a: 1})` then `classify({b: 2})`: both calls return the same function, and the second call's `noop.prototype = new Object()` re-points the first class's prototype | every class gets a constructor of its own, as v0.0.2 does with a fresh default initializer (`dist/clutility.js:35-38`) | not executed | Classify.SharedDefaultConstructor | Clutility.DistinctDefaultConstructors |
