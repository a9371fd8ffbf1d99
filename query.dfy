/**
 * The query filter builder of boompy/resource.py: keyword constraints become the
 * `QueryFilter` body the query endpoint expects.
 *
 * Keyword arguments arrive as a sequence of (key, value) pairs in the order Python's
 * dictionary iteration yields them; nothing here depends on which order that is.
 */
module Filters {
  import opened Outcomes
  import opened Values
  import opened Errors

  /** The suffix -> operator-code table. */
  const Operators: map<string, string> := map[
    "eq" := "EQUALS",
    "not" := "NOT_EQUALS",
    "like" := "LIKE",
    "gt" := "GREATER_THAN",
    "gte" := "GREATER_THAN_OR_EQUAL",
    "lt" := "LESS_THAN",
    "lte" := "LESS_THAN_OR_EQUAL",
    "start_with" := "STARTS_WITH",
    "starts_with" := "STARTS_WITH",
    "null" := "IS_NULL",
    "not_null" := "IS_NOT_NULL",
    "between" := "BETWEEN"
  ]

  const DefaultOperator := "EQUALS"
  const DefaultJoin := "and"

  /** `\w` of a byte-string pattern: ASCII letters, digits and underscore. */
  predicate IsWordChar(c: char) {
    'a' <= c <= 'z' || 'A' <= c <= 'Z' || '0' <= c <= '9' || c == '_'
  }

  predicate IsWord(s: string) {
    forall i :: 0 <= i < |s| ==> IsWordChar(s[i])
  }

  /** `$` without MULTILINE: the end of the key, or just before a final newline. */
  predicate AtEnd(key: string, n: nat) {
    n == |key| || (n + 1 == |key| && key[n] == '\n')
  }

  /** The key with one final newline (if any) removed: what `$` lets the pattern see. */
  function Body(key: string): string {
    if |key| > 0 && key[|key| - 1] == '\n' then key[..|key| - 1] else key
  }

  /** The optional group `__(eq|not|...)` followed by `$`, tried at position `n`. */
  function SuffixAt(key: string, n: nat): (r: Option<string>)
    requires n <= |key|
    ensures r.Some? ==> r.value in Operators && n + 2 <= |key| && key[n..n + 2] == "__"
    ensures r.Some? ==> Body(key) == key[..n] + "__" + r.value
  {
    if n + 2 <= |key| && key[n..n + 2] == "__" then
      var rest := key[n + 2..];
      if rest in Operators then
        assert key == key[..n] + "__" + rest;
        Some(rest)
      else if |rest| > 0 && rest[|rest| - 1] == '\n' && rest[..|rest| - 1] in Operators then
        assert key == key[..n] + "__" + rest[..|rest| - 1] + "\n";
        Some(rest[..|rest| - 1])
      else None
    else None
  }

  /** What the pattern captures: the property, and the operator suffix if one matched. */
  datatype KeyMatch = KeyMatch(property: string, suffix: Option<string>)

  /**
   * The lazy `(\w+?)` tried with its first `n` characters: the shortest word prefix after
   * which the suffix group (or, failing that, the end) matches wins.
   */
  function MatchFrom(key: string, n: nat): (r: Option<KeyMatch>)
    requires 1 <= n
    requires n - 1 <= |key| && IsWord(key[..n - 1])
    ensures r.Some? ==> |r.value.property| >= n && IsWord(r.value.property)
    ensures r.Some? && r.value.suffix.Some? ==>
      r.value.suffix.value in Operators && Body(key) == r.value.property + "__" + r.value.suffix.value
    ensures r.Some? && r.value.suffix.None? ==> Body(key) == r.value.property && AtEnd(key, |r.value.property|)
    decreases |key| - n
  {
    if n > |key| || !IsWordChar(key[n - 1]) then None
    else
      assert key[..n] == key[..n - 1] + [key[n - 1]];
      match SuffixAt(key, n)
      case Some(op) => Some(KeyMatch(key[..n], Some(op)))
      case None =>
        if AtEnd(key, n) then Some(KeyMatch(key[..n], None)) else MatchFrom(key, n + 1)
  }

  /** `QUERY_OPERATOR_REGEX.match(key)`: `None` when the key does not match at all. */
  function ParseKey(key: string): (r: Option<KeyMatch>)
    ensures r.Some? ==> |r.value.property| > 0 && IsWord(r.value.property)
    ensures r.Some? && r.value.suffix.Some? ==>
      r.value.suffix.value in Operators && Body(key) == r.value.property + "__" + r.value.suffix.value
    ensures r.Some? && r.value.suffix.None? ==> Body(key) == r.value.property
  {
    MatchFrom(key, 1)
  }

  predicate NoDoubleUnderscore(s: string) {
    forall i :: 0 <= i < |s| - 1 ==> !(s[i] == '_' && s[i + 1] == '_')
  }

  /** No operator suffix contains `__`, begins with `_`, or is empty. */
  lemma OperatorShapes(op: string)
    requires op in Operators
    ensures |op| > 0 && op[0] != '_' && NoDoubleUnderscore(op) && IsWord(op)
  {
  }

  /** `key` splits at `m` into a property and a recognised `__op` suffix. */
  predicate SplitsAt(key: string, m: int) {
    1 <= m && m + 2 <= |key| && key[m..m + 2] == "__" && key[m + 2..] in Operators
  }

  /** A word key is its own pattern body: it has no final newline. */
  lemma WordKeyBody(key: string)
    requires |key| > 0 && IsWord(key)
    ensures Body(key) == key
  {
    assert IsWordChar(key[|key| - 1]);
  }

  /** Before the real split point the pattern matches nothing, so the search moves on. */
  lemma {:induction false} SuffixedFrom(prop: string, op: string, n: nat)
    requires |prop| > 0 && IsWord(prop) && op in Operators
    requires 1 <= n <= |prop|
    ensures var key := prop + "__" + op;
      IsWord(key[..n - 1]) && MatchFrom(key, n) == Some(KeyMatch(prop, Some(op)))
    decreases |prop| - n
  {
    var key := prop + "__" + op;
    OperatorShapes(op);
    assert IsWord(key) by {
      forall i | 0 <= i < |key| ensures IsWordChar(key[i]) {
        if i >= |prop| + 2 { assert key[i] == op[i - |prop| - 2]; }
      }
    }
    WordKeyBody(key);
    assert key[..n - 1] == prop[..n - 1];
    assert key[n - 1] == prop[n - 1];
    if n == |prop| {
      assert key[..n] == prop;
      assert key[n..n + 2] == "__";
      assert key[n + 2..] == op;
    } else {
      NoEarlySuffix(prop, op, n);
      assert !AtEnd(key, n);
      SuffixedFrom(prop, op, n + 1);
    }
  }

  /** Splitting `prop__op` anywhere inside `prop` leaves a remainder that is no operator. */
  lemma NoEarlySuffix(prop: string, op: string, n: nat)
    requires |prop| > 0 && IsWord(prop) && op in Operators
    requires 1 <= n < |prop|
    ensures SuffixAt(prop + "__" + op, n).None?
  {
    var key := prop + "__" + op;
    if n + 2 <= |key| && key[n..n + 2] == "__" {
      var rest := key[n + 2..];
      if n + 1 == |prop| {
        assert rest[0] == '_';
      } else {
        assert rest[|prop| - n - 2] == '_' && rest[|prop| - n - 1] == '_';
      }
      OperatorShapes(op);
      assert rest[|rest| - 1] == op[|op| - 1];
      assert IsWordChar(rest[|rest| - 1]);
      var s := SuffixAt(key, n);
      if s.Some? {
        OperatorShapes(s.value);
        assert false;
      }
    }
  }

  /** A key `prop__op` with a recognised suffix yields `prop` and that suffix. */
  lemma SuffixedKey(prop: string, op: string)
    requires |prop| > 0 && IsWord(prop) && op in Operators
    ensures ParseKey(prop + "__" + op) == Some(KeyMatch(prop, Some(op)))
  {
    SuffixedFrom(prop, op, 1);
  }

  /** Searching on through a key that holds no `__op` split ends with the whole key. */
  lemma {:induction false} PlainFrom(key: string, n: nat)
    requires |key| > 0 && IsWord(key)
    requires forall m :: !SplitsAt(key, m)
    requires 1 <= n <= |key|
    ensures IsWord(key[..n - 1]) && MatchFrom(key, n) == Some(KeyMatch(key, None))
    decreases |key| - n
  {
    WordKeyBody(key);
    assert IsWord(key[..n - 1]);
    var s := SuffixAt(key, n);
    if s.Some? {
      assert key == key[..n] + "__" + s.value;
      assert key[n + 2..] == s.value;
      assert SplitsAt(key, n);
      assert false;
    }
    if n < |key| {
      assert !AtEnd(key, n) by {
        if n + 1 == |key| { assert IsWordChar(key[n]); }
      }
      PlainFrom(key, n + 1);
    } else {
      assert key[..n] == key;
    }
  }

  /** Any other word key yields the whole key as the property, with no suffix. */
  lemma PlainKey(key: string)
    requires |key| > 0 && IsWord(key)
    requires forall m :: !SplitsAt(key, m)
    ensures ParseKey(key) == Some(KeyMatch(key, None))
  {
    PlainFrom(key, 1);
  }

  /** A key that holds a character outside `\w` (other than one final newline) matches nothing. */
  lemma {:induction false} NonWordKeyFails(key: string, n: nat)
    requires 1 <= n && n - 1 <= |key| && IsWord(key[..n - 1])
    requires !IsWord(Body(key))
    ensures MatchFrom(key, n).None?
    decreases |key| - n
  {
    if n <= |key| && IsWordChar(key[n - 1]) {
      assert key[..n] == key[..n - 1] + [key[n - 1]];
      assert IsWord(key[..n]);
      var s := SuffixAt(key, n);
      if s.Some? {
        OperatorShapes(s.value);
        assert IsWord(Body(key));
        assert false;
      }
      NonWordKeyFails(key, n + 1);
    }
  }

  /** One leaf of the filter expression. */
  datatype Leaf = Leaf(property: string, operator: string, argument: seq<Value>)

  /** The filter: one bare leaf, or a join node over two or more leaves. */
  datatype Filter = Single(leaf: Leaf) | Joined(join: string, leaves: seq<Leaf>)

  /** A non-list value is wrapped into a one-element argument list; a list is passed through. */
  function Arguments(v: Value): (r: seq<Value>)
    ensures v.List? ==> r == v.items
    ensures !v.List? ==> r == [v]
  {
    if v.List? then v.items else [v]
  }

  /** The operator code for what the pattern matched: the looked-up suffix, else EQUALS. */
  function OperatorOf(m: KeyMatch): string
    requires m.suffix.Some? ==> m.suffix.value in Operators
  {
    if m.suffix.Some? then Operators[m.suffix.value] else DefaultOperator
  }

  /** The leaf for one constraint; a key the pattern rejects makes `.groups()` fail. */
  function LeafFor(key: string, value: Value): (r: Result<Leaf, Exception>)
    ensures r.Err? <==> ParseKey(key).None?
    ensures r.Ok? ==> (r.value.argument == Arguments(value)
      && r.value.property == ParseKey(key).value.property)
    ensures r.Ok? && ParseKey(key).value.suffix.Some?
      ==> r.value.operator == Operators[ParseKey(key).value.suffix.value]
    ensures r.Ok? && ParseKey(key).value.suffix.None? ==> r.value.operator == DefaultOperator
  {
    match ParseKey(key)
    case None => Err(AttributeError("'NoneType' object has no attribute 'groups'"))
    case Some(m) => Ok(Leaf(m.property, OperatorOf(m), Arguments(value)))
  }

  /** The leaves the loop collects from the first `|kwargs|` constraints, or its failure. */
  function Leaves(kwargs: seq<(string, Value)>): Result<seq<Leaf>, Exception> {
    if kwargs == [] then Ok([])
    else
      var (key, value) := kwargs[|kwargs| - 1];
      match Leaves(kwargs[..|kwargs| - 1])
      case Err(e) => Err(e)
      case Ok(done) =>
        if value == Null then Ok(done)
        else
          match LeafFor(key, value)
          case Err(e) => Err(e)
          case Ok(leaf) => Ok(done + [leaf])
  }

  /** The constraints whose value is not None, in order. */
  function NonNull(kwargs: seq<(string, Value)>): (r: seq<(string, Value)>)
    ensures |r| <= |kwargs|
    ensures forall i :: 0 <= i < |r| ==> r[i].1 != Null
  {
    if kwargs == [] then []
    else if kwargs[|kwargs| - 1].1 == Null then NonNull(kwargs[..|kwargs| - 1])
    else NonNull(kwargs[..|kwargs| - 1]) + [kwargs[|kwargs| - 1]]
  }

  /**
   * Building the leaves succeeds exactly when every non-None constraint has a key the
   * pattern accepts; then there is one leaf per non-None constraint, in order, each built
   * from that constraint alone. A None-valued constraint contributes nothing.
   */
  lemma {:induction false} LeavesFromNonNull(kwargs: seq<(string, Value)>)
    ensures Leaves(kwargs).Ok? <==> forall i :: 0 <= i < |NonNull(kwargs)| ==> ParseKey(NonNull(kwargs)[i].0).Some?
    ensures Leaves(kwargs).Ok? ==>
      |Leaves(kwargs).value| == |NonNull(kwargs)|
      && forall i :: 0 <= i < |NonNull(kwargs)| ==>
        Ok(Leaves(kwargs).value[i]) == LeafFor(NonNull(kwargs)[i].0, NonNull(kwargs)[i].1)
  {
    if kwargs != [] {
      var init, last := kwargs[..|kwargs| - 1], kwargs[|kwargs| - 1];
      LeavesFromNonNull(init);
      var nn := NonNull(init);
      if last.1 != Null {
        assert NonNull(kwargs) == nn + [last];
        forall i | 0 <= i < |nn| ensures NonNull(kwargs)[i] == nn[i] {}
        assert NonNull(kwargs)[|nn|] == last;
      } else {
        assert NonNull(kwargs) == nn;
      }
    }
  }

  /** `expressions` after the loop is collapsed: none, a bare leaf, or a join node. */
  function Combine(join: string, leaves: seq<Leaf>): (r: Option<Filter>)
    ensures r.None? <==> leaves == []
    ensures |leaves| == 1 ==> r == Some(Single(leaves[0]))
    ensures |leaves| > 1 ==> r == Some(Joined(join, leaves))
  {
    if |leaves| == 1 then Some(Single(leaves[0]))
    else if |leaves| > 1 then Some(Joined(join, leaves))
    else None
  }

  /** The JSON form of a leaf. */
  function LeafValue(l: Leaf): Value {
    Object(map["argument" := List(l.argument), "operator" := Str(l.operator), "property" := Str(l.property)])
  }

  /** The JSON form of the filter expression. */
  function FilterValue(f: Filter): Value {
    match f
    case Single(l) => LeafValue(l)
    case Joined(join, ls) =>
      Object(map["operator" := Str(join), "nestedExpression" := List(seq(|ls|, i requires 0 <= i < |ls| => LeafValue(ls[i])))])
  }

  /** The request body: `{}` without a filter, else `{"QueryFilter": {"expression": ...}}`. */
  function RequestBody(f: Option<Filter>): Value {
    match f
    case None => Object(map[])
    case Some(e) => Object(map["QueryFilter" := Object(map["expression" := FilterValue(e)])])
  }

  /** What `Resource.query` computes before sending: the body of the query request, or the failure. */
  function QueryBody(join: string, kwargs: seq<(string, Value)>): Result<Value, Exception> {
    match Leaves(kwargs)
    case Err(e) => Err(e)
    case Ok(leaves) => Ok(RequestBody(Combine(join, leaves)))
  }

  /**
   * The body's shape follows the number of non-None constraints: zero gives `{}`, one a
   * bare leaf, more a join node whose children are the leaves in order.
   */
  lemma QueryBodyShape(join: string, kwargs: seq<(string, Value)>)
    requires Leaves(kwargs).Ok?
    ensures |Leaves(kwargs).value| == |NonNull(kwargs)|
    ensures var ls, body := Leaves(kwargs).value, QueryBody(join, kwargs).value;
      && (|ls| == 0 ==> body == Object(map[]))
      && (|ls| == 1 ==> body == Object(map["QueryFilter" := Object(map["expression" := LeafValue(ls[0])])]))
      && (|ls| > 1 ==> body == Object(map["QueryFilter" := Object(map["expression" := Object(map[
            "operator" := Str(join),
            "nestedExpression" := List(seq(|ls|, i requires 0 <= i < |ls| => LeafValue(ls[i])))])])]))
  {
    LeavesFromNonNull(kwargs);
  }

  /** Every constraint None (or none at all) leaves the query unfiltered. */
  lemma AllNoneMeansNoFilter(join: string, kwargs: seq<(string, Value)>)
    requires forall i :: 0 <= i < |kwargs| ==> kwargs[i].1 == Null
    ensures QueryBody(join, kwargs) == Ok(Object(map[]))
  {
    NoneFiltered(kwargs);
    LeavesFromNonNull(kwargs);
  }

  lemma {:induction false} NoneFiltered(kwargs: seq<(string, Value)>)
    requires forall i :: 0 <= i < |kwargs| ==> kwargs[i].1 == Null
    ensures NonNull(kwargs) == []
  {
    if kwargs != [] {
      NoneFiltered(kwargs[..|kwargs| - 1]);
    }
  }

  /** `name="foo"` gives the bare leaf `{property: name, operator: EQUALS, argument: [foo]}`. */
  lemma SingleEqualityConstraint(join: string, name: string, v: Value)
    requires |name| > 0 && IsWord(name) && v != Null && !v.List?
    requires forall m :: !SplitsAt(name, m)
    ensures QueryBody(join, [(name, v)])
         == Ok(Object(map["QueryFilter" := Object(map["expression" := LeafValue(Leaf(name, "EQUALS", [v]))])]))
  {
    PlainKey(name);
    var kw := [(name, v)];
    assert kw[..0] == [] && kw[|kw| - 1] == (name, v);
    assert Leaves(kw[..0]) == Ok([]);
    var leaf := Leaf(name, "EQUALS", [v]);
    assert LeafFor(name, v) == Ok(leaf);
    assert [] + [leaf] == [leaf];
    assert Leaves(kw) == Ok([leaf]);
  }

  /**
   * The constraint loop of `Resource.query` and the collapse of its leaves: builds the leaves one
   * constraint at a time and returns the request body, or the failure of a rejected key.
   */
  method BuildQueryBody(join: string, kwargs: seq<(string, Value)>) returns (r: Result<Value, Exception>)
    ensures r == QueryBody(join, kwargs)
  {
    var expressions: seq<Leaf> := [];
    var i := 0;
    while i < |kwargs|
      invariant 0 <= i <= |kwargs|
      invariant Leaves(kwargs[..i]) == Ok(expressions)
    {
      var (key, value) := kwargs[i];
      assert kwargs[..i + 1][..i] == kwargs[..i];
      if value != Null {
        var m := ParseKey(key);
        if m.None? {
          LeavesFailureSticks(kwargs, i + 1);
          return Err(AttributeError("'NoneType' object has no attribute 'groups'"));
        }
        var operator := DefaultOperator;
        if m.value.suffix.Some? {
          operator := Operators[m.value.suffix.value];
        }
        var argument := if value.List? then value.items else [value];
        expressions := expressions + [Leaf(m.value.property, operator, argument)];
      }
      i := i + 1;
    }
    assert kwargs[..i] == kwargs;
    var filter := Combine(join, expressions);
    if filter.Some? {
      r := Ok(Object(map["QueryFilter" := Object(map["expression" := FilterValue(filter.value)])]));
    } else {
      r := Ok(Object(map[]));
    }
  }

  /** Once a prefix of the constraints fails, the whole sequence fails the same way. */
  lemma {:induction false} LeavesFailureSticks(kwargs: seq<(string, Value)>, n: nat)
    requires n <= |kwargs| && Leaves(kwargs[..n]).Err?
    ensures Leaves(kwargs) == Leaves(kwargs[..n])
    decreases |kwargs| - n
  {
    if n == |kwargs| {
      assert kwargs[..n] == kwargs;
    } else {
      assert kwargs[..n + 1][..n] == kwargs[..n];
      LeavesFailureSticks(kwargs, n + 1);
    }
  }
}
