/**
 * Pieces shared by the SQL builders: JavaScript truthiness of optional
 * parameters, conditional pushes onto a clause list and its bound values,
 * the LIKE pattern of a search, `slice(0, -2)`, and the `key = ?` lists
 * that partial updates build from a request object's entries.
 */
module Query {
  import opened Common
  import opened Store

  /** A string parameter that is truthy: present and non-empty. */
  predicate Given(s: Option<string>) { s.Some? && s.value != "" }

  /** A number parameter that is truthy: present and not 0. */
  predicate Nonzero(n: Option<int>) { n.Some? && n.value != 0 }

  function ValueOr(s: Option<string>): string { if s.Some? then s.value else "" }

  /** An optional string or number bound as given, `undefined` as NULL. */
  function TextOrNull(s: Option<string>): Value { if s.Some? then Text(s.value) else Null }
  function IntOrNull(n: Option<int>): Value { if n.Some? then Int(n.value) else Null }

  /** `[f]` when `b`, else nothing: a conditional clause. */
  function When<F>(b: bool, f: F): seq<F> { if b then [f] else [] }

  /** `xs` when `b`, else nothing: a conditional push of bound values. */
  function Opt(b: bool, xs: seq<Value>): seq<Value> { if b then xs else [] }

  /** The `LIKE` pattern of a search term: `%term%`. */
  function Pattern(term: string): string
  {
    "%" + term + "%"
  }

  /** `if (b) { query += <clause>; params.push(...args); }` */
  method PushIf<F>(b: bool, clauses: seq<F>, params: seq<Value>, f: F, args: seq<Value>)
    returns (clauses': seq<F>, params': seq<Value>)
    ensures clauses' == clauses + When(b, f) && params' == params + Opt(b, args)
  {
    clauses', params' := clauses, params;
    if b {
      clauses' := clauses' + [f];
      params' := params' + args;
    } else {
      assert clauses + [] == clauses && params + [] == params;
    }
  }

  /** JavaScript's `slice(0, -2)`: everything but the last two elements. */
  function DropLastTwo<T>(xs: seq<T>): (r: seq<T>)
    ensures |r| == if |xs| >= 2 then |xs| - 2 else 0
    ensures r == xs[..|r|]
  {
    if |xs| >= 2 then xs[..|xs| - 2] else []
  }

  /** One `[key, value]` pair of `Object.entries(data)`. */
  datatype Entry = Entry(key: string, value: Json)

  /** Keys of a JavaScript object are distinct. */
  predicate DistinctKeys(entries: seq<Entry>)
  {
    forall i, j :: 0 <= i < j < |entries| ==> entries[i].key != entries[j].key
  }

  /** How a JSON value binds to `?`: booleans as 1/0; arrays and objects
      are not bindable and are treated as NULL. */
  function Plain(j: Json): Value
  {
    match j
    case JNull => Null
    case JBool(b) => Int(if b then 1 else 0)
    case JNum(n) => Int(n)
    case JStr(s) => Text(s)
    case JArr(_) => Null
    case JObj(_) => Null
  }

  /** `SET c1 = ?, c2 = ?, ...` on a row; SQLite lets the rightmost
      assignment of a repeated column win. */
  function SetAll(row: Row, columns: seq<string>, values: seq<Value>): Row
    requires |columns| == |values|
  {
    if columns == [] then row
    else SetAll(row, columns[..|columns| - 1], values[..|values| - 1])[columns[|columns| - 1] := values[|values| - 1]]
  }

  /** One more `c = ?` at the end of the SET list overrides that column last. */
  lemma SetAllSnoc(row: Row, columns: seq<string>, values: seq<Value>, c: string, v: Value)
    requires |columns| == |values|
    ensures SetAll(row, columns + [c], values + [v]) == SetAll(row, columns, values)[c := v]
  {
    assert (columns + [c])[..|columns|] == columns;
    assert (values + [v])[..|values|] == values;
  }

  /** Overriding a column after merging equals merging the overridden map. */
  lemma MergeUpdate(row: Row, m: map<string, Value>, c: string, v: Value)
    ensures (row + m)[c := v] == row + m[c := v]
  {
  }
}
