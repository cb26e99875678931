/**
 * `extractFunctionArgumentNames`: the parameter names of a function, read off
 * its source text. The text is first stripped of line comments (`//` to the end
 * of the line), block comments (slash-star to the first star-slash) and every
 * whitespace character (one global regular-expression
 * replace), then the text between the first `(` after a leading `function`
 * and the next `)` is split on commas. When the stripped text does not start
 * that way the regular-expression match is null and indexing it throws: that
 * is the `None` result here.
 */
module ArgNames {
  import opened Basics

  /** The characters of JavaScript's `\s` class. */
  predicate IsSpace(c: char) {
    || c == ' ' || c == '\t' || c == '\n' || c == '\r' || c == '\U{0B}' || c == '\U{0C}'
    || c == '\U{A0}' || c == '\U{1680}' || ('\U{2000}' <= c <= '\U{200A}')
    || c == '\U{2028}' || c == '\U{2029}' || c == '\U{202F}' || c == '\U{205F}'
    || c == '\U{3000}' || c == '\U{FEFF}'
  }

  /** The characters that `.` does not match and before which multiline `$` matches. */
  predicate IsLineTerminator(c: char) {
    c == '\n' || c == '\r' || c == '\U{2028}' || c == '\U{2029}'
  }

  predicate NoSpace(s: string) {
    forall c :: c in s ==> !IsSpace(c)
  }

  /** Where `.*$` stops: the first line terminator at or after `from`, or the end. */
  function LineEnd(s: string, from: nat): (e: nat)
    requires from <= |s|
    ensures from <= e <= |s|
    ensures forall i :: from <= i < e ==> !IsLineTerminator(s[i])
    ensures e < |s| ==> IsLineTerminator(s[e])
    decreases |s| - from
  {
    if from == |s| || IsLineTerminator(s[from]) then from else LineEnd(s, from + 1)
  }

  predicate ClosesAt(s: string, i: int) {
    0 <= i && i + 1 < |s| && s[i] == '*' && s[i + 1] == '/'
  }

  /** Where the lazy `[\s\S]*?\*\/` ends its match: the first `*` `/` pair at or after `from`. */
  function CommentClose(s: string, from: nat): (r: Option<nat>)
    requires from <= |s|
    ensures r.Some? ==> from <= r.value && ClosesAt(s, r.value)
    ensures r.Some? ==> forall i :: from <= i < r.value ==> !ClosesAt(s, i)
    ensures r.None? ==> forall i :: from <= i ==> !ClosesAt(s, i)
    decreases |s| - from
  {
    if from + 1 >= |s| then None
    else if ClosesAt(s, from) then Some(from)
    else CommentClose(s, from + 1)
  }

  /**
   * The global replace by nothing of three alternatives: a line comment
   * (`//.*$`), a block comment (slash-star, lazily up to the first star-slash)
   * and one `\s` character. At each position they are tried in that order; a
   * position where none matches keeps its character.
   */
  function Strip(s: string): (t: string)
    ensures NoSpace(t)
    ensures |t| <= |s|
    ensures forall c :: c in t ==> c in s
    decreases |s|
  {
    if s == [] then []
    else if |s| >= 2 && s[0] == '/' && s[1] == '/' then
      Strip(s[LineEnd(s, 2)..])
    else if |s| >= 2 && s[0] == '/' && s[1] == '*' && CommentClose(s, 2).Some? then
      Strip(s[CommentClose(s, 2).value + 2..])
    else if IsSpace(s[0]) then
      Strip(s[1..])
    else
      [s[0]] + Strip(s[1..])
  }

  /** The first index at or after `from` holding `c`. */
  function IndexOf(s: string, c: char, from: nat): (r: Option<nat>)
    requires from <= |s|
    ensures r.Some? ==> from <= r.value < |s| && s[r.value] == c
    ensures r.Some? ==> forall i :: from <= i < r.value ==> s[i] != c
    ensures r.None? ==> forall i :: from <= i < |s| ==> s[i] != c
    decreases |s| - from
  {
    if from == |s| then None
    else if s[from] == c then Some(from)
    else IndexOf(s, c, from + 1)
  }

  /**
   * Group 1 of `^function\s*[^\(]*\(\s*([^\)]*)\)` (multiline) on a text with no
   * whitespace left in it, where both `\s*` match nothing and `^` can only match
   * at the start.
   */
  function MatchHeader(t: string): (group: Option<string>)
    requires NoSpace(t)
    ensures group.Some? ==> |t| >= 8 && t[..8] == "function"
    ensures group.Some? ==> ')' !in group.value && NoSpace(group.value)
  {
    if |t| < 8 || t[..8] != "function" then None
    else match IndexOf(t, '(', 8)
      case None => None
      case Some(open) =>
        match IndexOf(t, ')', open + 1)
        case None => None
        case Some(close) =>
          assert forall c :: c in t[open + 1..close] ==> c in t;
          Some(t[open + 1..close])
  }

  /** `split(/,/)`: the pieces between commas; the empty text gives one empty piece. */
  function Split(s: string): (parts: seq<string>)
    ensures |parts| >= 1
    ensures forall i :: 0 <= i < |parts| ==> ',' !in parts[i]
    ensures forall i, c :: 0 <= i < |parts| && c in parts[i] ==> c in s
    decreases |s|
  {
    match IndexOf(s, ',', 0)
    case None => [s]
    case Some(i) =>
      assert forall c :: c in s[..i] ==> c in s;
      assert forall c :: c in s[i + 1..] ==> c in s;
      [s[..i]] + Split(s[i + 1..])
  }

  /** The inverse of `Split`: the pieces glued together with commas. */
  function Join(parts: seq<string>): string
    requires |parts| >= 1
  {
    if |parts| == 1 then parts[0] else parts[0] + "," + Join(parts[1..])
  }

  /** The source text of `function<name>(<params>)<body>`. */
  function FunctionText(name: string, params: string, body: string): string {
    "function" + name + "(" + params + ")" + body
  }

  /** `extractFunctionArgumentNames` applied to the source text of a value. */
  function ArgumentNames(source: string): (names: Option<seq<string>>)
    ensures names.Some? ==> |names.value| >= 1
    ensures names.Some? ==> forall i :: 0 <= i < |names.value| ==>
      NoSpace(names.value[i]) && ',' !in names.value[i] && ')' !in names.value[i]
  {
    match MatchHeader(Strip(source))
    case None => None
    case Some(group) => Some(Split(group))
  }

  /** The `$super` test of both builders: only the first declared name is looked at. */
  predicate DeclaresSuper(names: seq<string>)
    requires |names| >= 1
  {
    names[0] == "$super"
  }

  // ---------------------------------------------------------------------
  // Properties
  // ---------------------------------------------------------------------

  /** Splitting and re-joining gives back the text. */
  lemma {:induction false} JoinSplit(s: string)
    ensures Join(Split(s)) == s
    decreases |s|
  {
    match IndexOf(s, ',', 0)
    case None =>
    case Some(i) =>
      var parts := Split(s);
      var rest := Split(s[i + 1..]);
      assert parts == [s[..i]] + rest && parts[1..] == rest;
      JoinSplit(s[i + 1..]);
      assert Join(parts) == s[..i] + "," + Join(rest);
      assert s == s[..i] + "," + s[i + 1..];
  }

  /** Splitting at the first comma, after a comma-free piece. */
  lemma SplitAfter(a: string, b: string)
    requires ',' !in a
    ensures Split(a + "," + b) == [a] + Split(b)
  {
    var s := a + "," + b;
    var k := |a|;
    assert s[k] == ',';
    assert forall j :: 0 <= j < k ==> s[j] == a[j];
    assert IndexOf(s, ',', 0) == Some(k);
    assert s[..k] == a;
    assert s[k + 1..] == b;
  }

  /** Joining comma-free pieces and splitting again gives back the pieces. */
  lemma {:induction false} SplitJoin(parts: seq<string>)
    requires |parts| >= 1
    requires forall i :: 0 <= i < |parts| ==> ',' !in parts[i]
    ensures Split(Join(parts)) == parts
    decreases |parts|
  {
    if |parts| > 1 {
      assert Join(parts) == parts[0] + "," + Join(parts[1..]);
      SplitAfter(parts[0], Join(parts[1..]));
      SplitJoin(parts[1..]);
      assert parts == [parts[0]] + parts[1..];
    } else {
      assert IndexOf(parts[0], ',', 0).None?;
    }
  }

  /** Text free of `/` is stripped piecewise: no comment can straddle the seam. */
  lemma {:induction false} StripConcat(a: string, b: string)
    requires '/' !in a
    ensures Strip(a + b) == Strip(a) + Strip(b)
    decreases |a|
  {
    if a != [] {
      var s := a + b;
      assert s[0] == a[0] && s[0] != '/';
      assert s[1..] == a[1..] + b;
      StripConcat(a[1..], b);
    } else {
      assert a + b == b;
    }
  }

  /** Text made only of characters that are neither whitespace nor `/` is left as it is. */
  lemma {:induction false} StripKeepsPlainText(a: string)
    requires '/' !in a && NoSpace(a)
    ensures Strip(a) == a
    decreases |a|
  {
    if a != [] {
      assert a[0] in a;
      StripKeepsPlainText(a[1..]);
      assert a == [a[0]] + a[1..];
    }
  }

  /** A plain prefix passes through stripping unchanged. */
  lemma StripPlainPrefix(p: string, x: string)
    requires '/' !in p && NoSpace(p)
    ensures Strip(p + x) == p + Strip(x)
  {
    StripConcat(p, x);
    StripKeepsPlainText(p);
  }

  /** Stripping `<a><d><b>` for a single delimiter `d` and a `/`-free `a`. */
  lemma StripAround(a: string, d: char, b: string)
    requires '/' !in a && d != '/' && !IsSpace(d)
    ensures Strip(a + [d] + b) == Strip(a) + [d] + Strip(b)
  {
    assert a + [d] + b == a + ([d] + b);
    StripConcat(a, [d] + b);
    StripPlainPrefix([d], b);
  }

  /** Stripping a header splits at the delimiters when no part holds a `/`. */
  lemma StripHeader(keyword: string, name: string, params: string, rest: string)
    requires '/' !in keyword && NoSpace(keyword)
    requires '/' !in name && '/' !in params
    ensures Strip(keyword + name + "(" + params + ")" + rest)
      == keyword + Strip(name) + "(" + Strip(params) + ")" + Strip(rest)
  {
    var tail := params + ")" + rest;
    var inner := name + "(" + tail;
    var sn, sp, sr := Strip(name), Strip(params), Strip(rest);
    calc {
      Strip(keyword + name + "(" + params + ")" + rest);
      { assert keyword + name + "(" + params + ")" + rest == keyword + inner; }
      Strip(keyword + inner);
      { StripPlainPrefix(keyword, inner); }
      keyword + Strip(inner);
      { StripAround(name, '(', tail); }
      keyword + (sn + "(" + Strip(tail));
      { StripAround(params, ')', rest); }
      keyword + (sn + "(" + (sp + ")" + sr));
      keyword + sn + "(" + sp + ")" + sr;
    }
  }

  /** A block comment with no star-slash inside is removed whole, together with nothing else. */
  lemma StripBlockComment(c: string, b: string)
    requires forall i :: !ClosesAt(c, i)
    ensures Strip("/*" + c + "*/" + b) == Strip(b)
  {
    var s := "/*" + c + "*/" + b;
    var k := |c| + 2;
    assert ClosesAt(s, k);
    forall i | 2 <= i < k
      ensures !ClosesAt(s, i)
    {
      if i + 1 < k {
        assert s[i] == c[i - 2] && s[i + 1] == c[i - 1] && !ClosesAt(c, i - 2);
      } else {
        assert s[i + 1] == '*';
      }
    }
    assert CommentClose(s, 2) == Some(k);
    assert s[k + 2..] == b;
  }

  /**
   * A line comment is removed up to the line terminator that ends it, and the
   * terminator, being whitespace, goes too.
   */
  lemma StripLineComment(c: string, t: char, b: string)
    requires forall i :: 0 <= i < |c| ==> !IsLineTerminator(c[i])
    requires IsLineTerminator(t)
    ensures Strip("//" + c + [t] + b) == Strip(b)
  {
    var s := "//" + c + [t] + b;
    var k := |c| + 2;
    assert IsLineTerminator(s[k]);
    assert forall i :: 2 <= i < k ==> s[i] == c[i - 2];
    assert LineEnd(s, 2) == k;
    assert s[k..] == [t] + b;
    assert ([t] + b)[1..] == b;
  }

  /** After `/`-free text, a block comment disappears from the stripped result. */
  lemma StripAfterBlockComment(a: string, c: string, b: string)
    requires '/' !in a && forall i :: !ClosesAt(c, i)
    ensures Strip(a + "/*" + c + "*/" + b) == Strip(a) + Strip(b)
  {
    assert a + "/*" + c + "*/" + b == a + ("/*" + c + "*/" + b);
    StripConcat(a, "/*" + c + "*/" + b);
    StripBlockComment(c, b);
  }

  /** After `/`-free text, a line comment and its terminator disappear from the stripped result. */
  lemma StripAfterLineComment(a: string, c: string, t: char, b: string)
    requires '/' !in a && forall i :: 0 <= i < |c| ==> !IsLineTerminator(c[i])
    requires IsLineTerminator(t)
    ensures Strip(a + "//" + c + [t] + b) == Strip(a) + Strip(b)
  {
    assert a + "//" + c + [t] + b == a + ("//" + c + [t] + b);
    StripConcat(a, "//" + c + [t] + b);
    StripLineComment(c, t, b);
  }

  /** The header match picks out exactly the text between the delimiters. */
  lemma MatchOfHeader(a: string, b: string, c: string)
    requires '(' !in a && ')' !in b
    requires NoSpace("function" + a + "(" + b + ")" + c)
    ensures MatchHeader("function" + a + "(" + b + ")" + c) == Some(b)
  {
    var t := "function" + a + "(" + b + ")" + c;
    assert t[..8] == "function";
    var open := 8 + |a|;
    assert t[open] == '(';
    assert forall i :: 8 <= i < open ==> t[i] == a[i - 8];
    assert IndexOf(t, '(', 8) == Some(open);
    var close := open + 1 + |b|;
    assert t[close] == ')';
    assert forall i :: open + 1 <= i < close ==> t[i] == b[i - open - 1];
    assert IndexOf(t, ')', open + 1) == Some(close);
    assert t[open + 1..close] == b;
  }

  /**
   * The names of a function whose header is `function <name>(<params>)`, where
   * the name holds no `(` and neither part holds a `/` or a `)`: the parameter
   * list with its whitespace removed, split on commas.
   */
  lemma HeaderNames(name: string, params: string, rest: string)
    requires '/' !in name && '(' !in name
    requires '/' !in params && ')' !in params
    ensures ArgumentNames(FunctionText(name, params, rest)) == Some(Split(Strip(params)))
  {
    StripHeader("function", name, params, rest);
    MatchOfHeader(Strip(name), Strip(params), Strip(rest));
  }

  /**
   * A function declared without parameters yields the single name "", so it is
   * never taken for a `$super` function.
   */
  lemma ParameterlessNames(name: string, rest: string)
    requires '/' !in name && '(' !in name
    ensures ArgumentNames(FunctionText(name, "", rest)) == Some([""])
    ensures !DeclaresSuper(ArgumentNames(FunctionText(name, "", rest)).value)
  {
    HeaderNames(name, "", rest);
    assert Strip("") == "";
    assert IndexOf("", ',', 0) == None;
  }

  /** A name that can stand in a parameter list as it is. */
  predicate PlainName(n: string) {
    NoSpace(n) && '/' !in n && ',' !in n && '(' !in n && ')' !in n
  }

  /** Joined plain names hold no character that stripping or the header match looks at. */
  lemma {:induction false} JoinPlain(ps: seq<string>)
    requires |ps| >= 1
    requires forall i :: 0 <= i < |ps| ==> PlainName(ps[i])
    ensures NoSpace(Join(ps)) && '/' !in Join(ps) && ')' !in Join(ps)
    decreases |ps|
  {
    if |ps| > 1 {
      JoinPlain(ps[1..]);
      assert Join(ps) == ps[0] + "," + Join(ps[1..]);
    }
  }

  /**
   * Round trip: the names read back from `function <name>(<p1>,<p2>,...)<rest>`
   * are exactly the declared ones.
   */
  lemma DeclaredNames(name: string, ps: seq<string>, rest: string)
    requires '/' !in name && '(' !in name
    requires |ps| >= 1
    requires forall i :: 0 <= i < |ps| ==> PlainName(ps[i])
    ensures ArgumentNames(FunctionText(name, Join(ps), rest)) == Some(ps)
  {
    var j := Join(ps);
    assert NoSpace(j) && '/' !in j && ')' !in j by { JoinPlain(ps); }
    assert ArgumentNames(FunctionText(name, j, rest)) == Some(Split(Strip(j))) by {
      HeaderNames(name, j, rest);
    }
    assert Strip(j) == j by { StripKeepsPlainText(j); }
    assert Split(j) == ps by { SplitJoin(ps); }
  }

  /**
   * A block comment in the parameter list is removed before the header is
   * matched, so the names are those of the list without it, even when the
   * comment holds a `)` or a comma.
   */
  lemma CommentedParameters(name: string, x: string, c: string, y: string, rest: string)
    requires '/' !in name && '/' !in x && forall i :: !ClosesAt(c, i)
    ensures ArgumentNames(FunctionText(name, x + "/*" + c + "*/" + y, rest))
         == ArgumentNames(FunctionText(name, x + y, rest))
  {
    var a := "function" + name + "(" + x;
    var b := y + ")" + rest;
    assert FunctionText(name, x + "/*" + c + "*/" + y, rest) == a + "/*" + c + "*/" + b;
    assert FunctionText(name, x + y, rest) == a + b;
    StripAfterBlockComment(a, c, b);
    StripConcat(a, b);
  }

  /** The same for a line comment in the parameter list, ended by a line terminator. */
  lemma LineCommentedParameters(name: string, x: string, c: string, t: char, y: string, rest: string)
    requires '/' !in name && '/' !in x && forall i :: 0 <= i < |c| ==> !IsLineTerminator(c[i])
    requires IsLineTerminator(t)
    ensures ArgumentNames(FunctionText(name, x + "//" + c + [t] + y, rest))
         == ArgumentNames(FunctionText(name, x + y, rest))
  {
    var a := "function" + name + "(" + x;
    var b := y + ")" + rest;
    assert FunctionText(name, x + "//" + c + [t] + y, rest) == a + "//" + c + [t] + b;
    assert FunctionText(name, x + y, rest) == a + b;
    StripAfterLineComment(a, c, t, b);
    StripConcat(a, b);
  }

  /**
   * Declared names read back exactly even with a block comment anywhere in
   * the list, e.g. `function($super /* parent */, x)` still declares `$super`.
   */
  lemma CommentedDeclaredNames(name: string, ps: seq<string>, k: nat, c: string, rest: string)
    requires '/' !in name && '(' !in name
    requires |ps| >= 1
    requires forall i :: 0 <= i < |ps| ==> PlainName(ps[i])
    requires k <= |Join(ps)| && forall i :: !ClosesAt(c, i)
    ensures ArgumentNames(FunctionText(name, Join(ps)[..k] + "/*" + c + "*/" + Join(ps)[k..], rest)) == Some(ps)
  {
    var j := Join(ps);
    JoinPlain(ps);
    assert '/' !in j[..k] by {
      assert forall ch :: ch in j[..k] ==> ch in j;
    }
    CommentedParameters(name, j[..k], c, j[k..], rest);
    assert j[..k] + j[k..] == j;
    DeclaredNames(name, ps, rest);
  }

  /** A text that starts with a plain word other than `function` has no function header. */
  lemma NoHeader(word: string, rest: string)
    requires '/' !in word && NoSpace(word) && |word| >= 1 && word[0] != 'f'
    ensures ArgumentNames(word + rest) == None
  {
    StripPlainPrefix(word, rest);
    var t := Strip(word + rest);
    assert t[0] == word[0];
    if |t| >= 8 {
      assert t[..8][0] != "function"[0];
    }
  }

  /** The text of a plain object, `[object Object]`, has no function header: reading its names throws. */
  lemma PlainObjectNames()
    ensures ArgumentNames("[object Object]") == None
  {
    var word, rest := "[object", " Object]";
    assert word + rest == "[object Object]";
    NoHeader(word, rest);
  }
}
