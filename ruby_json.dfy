/** A parsed JSON document as Ruby's JSON.parse hands it over (Hash, Array, String,
    Integer, true/false, nil), and the Ruby accessors the issue summarizer uses on it:
    truthiness and `||`, `Hash#[]`, and `dig`.  Evaluating an accessor either yields a
    value or reports what Ruby does instead of yielding one. */
module RubyJson {

  /** What happens when Ruby cannot simply yield a value. */
  datatype Failure =
    | TypeError      // Ruby raises TypeError
    | NoMethodError  // Ruby raises NoMethodError
    | Unmodelled     // Ruby goes on with String-specific behaviour this model does not describe

  datatype Result<+T> = Ok(value: T) | Err(error: Failure) {
    predicate IsFailure() { Err? }
    function PropagateFailure<U>(): Result<U> requires Err? { Err(error) }
    function Extract(): T requires Ok? { value }
  }

  datatype Option<+T> = None | Some(value: T)

  /** JSON values; floating-point numbers are not part of the model. */
  datatype Json =
    | JNull
    | JBool(b: bool)
    | JInt(i: int)
    | JStr(s: string)
    | JArr(elems: seq<Json>)
    | JObj(obj: map<string, Json>)

  /** Ruby truthiness: everything except nil and false. */
  predicate Truthy(v: Json) {
    !v.JNull? && v != JBool(false)
  }

  /** Ruby's `v || fallback`. */
  function OrElse(v: Json, fallback: Json): Json {
    if Truthy(v) then v else fallback
  }

  /** `Hash#[]`: an absent key reads as nil. */
  function Lookup(m: map<string, Json>, k: string): Json {
    if k in m then m[k] else JNull
  }

  /** Plain member access on a document, with none of Ruby's behaviour: null unless `v`
      is an object holding `k`.  Contracts are stated with it. */
  function Member(v: Json, k: string): Json {
    if v.JObj? then Lookup(v.obj, k) else JNull
  }

  /** Plain member access along a whole path: null as soon as a node is not an object. */
  function MemberPath(v: Json, path: seq<string>): Json
    decreases |path|
  {
    if path == [] then v else MemberPath(Member(v, path[0]), path[1..])
  }

  lemma {:induction false} MemberPathOfNull(path: seq<string>)
    ensures MemberPath(JNull, path) == JNull
    decreases |path|
  {
    if path != [] {
      MemberPathOfNull(path[1..]);
    }
  }

  /** Ruby's `v[k]` for a String `k`.  On a String receiver Ruby does a substring
      lookup, which is not modelled. */
  function Index(v: Json, k: string): (r: Result<Json>)
    ensures v.JObj? ==> r == Ok(Member(v, k))
    ensures v.JArr? || v.JInt? ==> r == Err(TypeError)
    ensures v.JStr? ==> r == Err(Unmodelled)
    ensures v.JNull? || v.JBool? ==> r == Err(NoMethodError)
  {
    match v
    case JObj(m) => Ok(Lookup(m, k))
    case JArr(_) => Err(TypeError)   // Array#[] cannot convert a String to an Integer
    case JInt(_) => Err(TypeError)   // Integer#[] likewise
    case JStr(_) => Err(Unmodelled)
    case _ => Err(NoMethodError)     // nil, true and false have no []
  }

  /** The walk `dig` performs once the receiver has been indexed: a nil on the way ends
      the walk with nil; any other value that is not a Hash (an Array indexed by a
      String, a scalar without `dig`) raises TypeError. */
  function Descend(v: Json, path: seq<string>): (r: Result<Json>)
    ensures path == [] ==> r == Ok(v)
    ensures r.Ok? ==> r.value == MemberPath(v, path)
    ensures r.Err? ==> r.error == TypeError
    ensures path != [] && !v.JObj? && !v.JNull? ==> r == Err(TypeError)
    decreases |path|
  {
    if path == [] then Ok(v)
    else
      match v
      case JNull => MemberPathOfNull(path[1..]); Ok(JNull)
      case JObj(m) => Descend(Lookup(m, path[0]), path[1..])
      case _ => Err(TypeError)
  }

  /** `v.dig(k1, ..., kn)`.  Ruby requires at least one key.  An Array receiver raises
      TypeError; a receiver with no `dig` method raises NoMethodError. */
  function Dig(v: Json, path: seq<string>): (r: Result<Json>)
    requires |path| > 0
    ensures r.Ok? ==> v.JObj? && r.value == MemberPath(v, path)
    ensures !v.JObj? ==> r == Err(if v.JArr? then TypeError else NoMethodError)
    ensures v.JObj? && r.Err? ==> r.error == TypeError
  {
    match v
    case JObj(_) => Descend(v, path)
    case JArr(_) => Err(TypeError)
    case _ => Err(NoMethodError)
  }

  /** Some segment of `path` is absent or null: plain member access along the path
      passes only through objects until, at some prefix, it finds nil. */
  ghost predicate NilAlong(v: Json, path: seq<string>)
    requires |path| > 0
  {
    exists k :: 0 < k <= |path| && MemberPath(v, path[..k]).JNull? &&
      forall j :: 0 <= j < k ==> MemberPath(v, path[..j]).JObj?
  }

  /** Member access along a non-empty prefix starts with the first member. */
  lemma MemberPathPrefix(v: Json, path: seq<string>, j: nat)
    requires 0 < |path| && j < |path|
    ensures MemberPath(v, path[..j + 1]) == MemberPath(Member(v, path[0]), path[1..][..j])
  {
    assert path[..j + 1][0] == path[0];
    assert path[..j + 1][1..] == path[1..][..j];
  }

  /** On an object, the walk yields nil exactly when some segment is absent or null. */
  lemma {:induction false} DescendNilAlong(v: Json, path: seq<string>)
    requires |path| > 0 && v.JObj?
    ensures Descend(v, path) == Ok(JNull) <==> NilAlong(v, path)
    decreases |path|
  {
    var c := Member(v, path[0]);
    MemberPathPrefix(v, path, 0);
    assert MemberPath(v, path[..0]) == v;
    if c.JNull? {
      assert MemberPath(v, path[..1]).JNull?;
      assert Descend(JNull, path[1..]) == Ok(JNull);
    } else if c.JObj? && |path| > 1 {
      DescendNilAlong(c, path[1..]);
      if NilAlong(v, path) {
        var k :| 0 < k <= |path| && MemberPath(v, path[..k]).JNull? &&
          forall j :: 0 <= j < k ==> MemberPath(v, path[..j]).JObj?;
        MemberPathPrefix(v, path, k - 1);
        assert k > 1;
        forall j | 0 <= j < k - 1 ensures MemberPath(c, path[1..][..j]).JObj? {
          MemberPathPrefix(v, path, j);
        }
        assert NilAlong(c, path[1..]);
      }
      if NilAlong(c, path[1..]) {
        var k :| 0 < k <= |path[1..]| && MemberPath(c, path[1..][..k]).JNull? &&
          forall j :: 0 <= j < k ==> MemberPath(c, path[1..][..j]).JObj?;
        MemberPathPrefix(v, path, k);
        forall j | 0 <= j < k + 1 ensures MemberPath(v, path[..j]).JObj? {
          if j > 0 {
            MemberPathPrefix(v, path, j - 1);
          }
        }
        assert NilAlong(v, path);
      }
    }
  }

  /** `dig` yields nil exactly when some segment of the path is absent or null. */
  lemma DigNilAlong(v: Json, path: seq<string>)
    requires |path| > 0
    ensures Dig(v, path) == Ok(JNull) <==> NilAlong(v, path)
  {
    if v.JObj? {
      DescendNilAlong(v, path);
    } else {
      assert MemberPath(v, path[..0]) == v;
    }
  }

  /** Digging a longer path is digging its first part and walking on from the result. */
  lemma {:induction false} DescendAppend(v: Json, p: seq<string>, q: seq<string>)
    ensures Descend(v, p + q) == match Descend(v, p) case Ok(u) => Descend(u, q) case Err(e) => Err(e)
    decreases |p|
  {
    if p == [] {
      assert p + q == q;
    } else {
      assert (p + q)[0] == p[0];
      assert (p + q)[1..] == p[1..] + q;
      match v
      case JNull =>
        assert Descend(JNull, q) == Ok(JNull);
      case JObj(m) =>
        DescendAppend(Lookup(m, p[0]), p[1..], q);
      case _ =>
    }
  }

  /** Every node `dig` must index after the first, reached by plain member access, is an
      object or nil. */
  ghost predicate Passable(v: Json, path: seq<string>) {
    forall j :: 0 < j < |path| ==> MemberPath(v, path[..j]).JObj? || MemberPath(v, path[..j]).JNull?
  }

  /** From an object, the walk succeeds exactly when the path is passable. */
  lemma {:induction false} DescendOk(v: Json, path: seq<string>)
    requires |path| > 0 && v.JObj?
    ensures Descend(v, path).Ok? <==> Passable(v, path)
    decreases |path|
  {
    var c := Member(v, path[0]);
    MemberPathPrefix(v, path, 0);
    if |path| > 1 {
      var rest := path[1..];
      if c.JNull? {
        forall j | 0 < j < |path| ensures MemberPath(v, path[..j]).JNull? {
          MemberPathPrefix(v, path, j - 1);
          MemberPathOfNull(rest[..j - 1]);
        }
        assert Descend(JNull, rest) == Ok(JNull);
      } else if c.JObj? {
        DescendOk(c, rest);
        forall j | 0 < j < |path| ensures MemberPath(v, path[..j]) == MemberPath(c, rest[..j - 1]) {
          MemberPathPrefix(v, path, j - 1);
        }
        assert MemberPath(c, rest[..0]) == c;
        if Passable(c, rest) {
          assert Passable(v, path);
        }
        if Passable(v, path) {
          forall j | 0 < j < |rest| ensures MemberPath(c, rest[..j]).JObj? || MemberPath(c, rest[..j]).JNull? {
            assert MemberPath(v, path[..j + 1]) == MemberPath(c, rest[..j]);
          }
        }
      } else {
        assert MemberPath(v, path[..1]) == c;
      }
    }
  }

  /** `dig` succeeds exactly on a Hash whose path passes only through Hashes and nil. */
  lemma DigOk(v: Json, path: seq<string>)
    requires |path| > 0
    ensures Dig(v, path).Ok? <==> v.JObj? && Passable(v, path)
  {
    if v.JObj? {
      DescendOk(v, path);
    }
  }

  /** A value on the path that is neither a Hash nor nil makes `dig` raise TypeError. */
  lemma DigBlocked(v: Json, path: seq<string>, k: nat)
    requires 0 < k < |path|
    requires Dig(v, path[..k]).Ok?
    requires !Dig(v, path[..k]).value.JObj? && !Dig(v, path[..k]).value.JNull?
    ensures Dig(v, path) == Err(TypeError)
  {
    assert path[..k] + path[k..] == path;
    DescendAppend(v, path[..k], path[k..]);
  }

  /** The length of the longest common prefix of two paths. */
  function CommonPrefix(p: seq<string>, q: seq<string>): (n: nat)
    ensures n <= |p| && n <= |q| && p[..n] == q[..n]
    ensures n < |p| && n < |q| ==> p[n] != q[n]
  {
    if p == [] || q == [] || p[0] != q[0] then 0
    else
      var n := CommonPrefix(p[1..], q[1..]);
      assert p[..n + 1] == [p[0]] + p[1..][..n];
      assert q[..n + 1] == [q[0]] + q[1..][..n];
      1 + n
  }

  /** `v` with the value at `path` replaced by `x`: a spec-level device for talking about
      two documents that differ only at one path.  Nodes on the way that are not objects
      become objects. */
  function Put(v: Json, path: seq<string>, x: Json): Json
    requires |path| > 0
    decreases |path|
  {
    var m := if v.JObj? then v.obj else map[];
    if |path| == 1 then JObj(m[path[0] := x])
    else JObj(m[path[0] := Put(Lookup(m, path[0]), path[1..], x)])
  }

  /** Path `q` branches off `p` (neither is a prefix of the other), and `dig` along `p`
      passes only through objects and nil up to and including the branching node, so
      replacing what sits at `q` cannot reshape anything `p` reads. */
  ghost predicate Unrelated(v: Json, p: seq<string>, q: seq<string>) {
    var n := CommonPrefix(p, q);
    n < |p| && n < |q| && Dig(v, p[..n + 1]).Ok?
  }

  lemma {:induction false} DescendPutSame(v: Json, q: seq<string>, x: Json)
    requires |q| > 0
    ensures Descend(Put(v, q, x), q) == Ok(x)
    decreases |q|
  {
    var m := if v.JObj? then v.obj else map[];
    if |q| > 1 {
      DescendPutSame(Lookup(m, q[0]), q[1..], x);
    }
  }

  /** Digging the path just written yields the value written. */
  lemma DigPutSame(v: Json, q: seq<string>, x: Json)
    requires |q| > 0
    ensures Dig(Put(v, q, x), q) == Ok(x)
  {
    DescendPutSame(v, q, x);
  }

  lemma {:induction false} DescendPutOther(v: Json, p: seq<string>, q: seq<string>, x: Json)
    requires |q| > 0
    requires CommonPrefix(p, q) < |p| && CommonPrefix(p, q) < |q|
    requires Descend(v, p[..CommonPrefix(p, q) + 1]).Ok?
    ensures Descend(Put(v, q, x), p) == Descend(v, p)
    decreases |p|
  {
    var n := CommonPrefix(p, q);
    var m := if v.JObj? then v.obj else map[];
    assert p[..n + 1][0] == p[0];
    assert v.JObj? || v.JNull?;
    if n == 0 {
      assert p[0] != q[0];
      if |q| == 1 {
        assert Lookup(m[q[0] := x], p[0]) == Lookup(m, p[0]);
      } else {
        assert Lookup(m[q[0] := Put(Lookup(m, q[0]), q[1..], x)], p[0]) == Lookup(m, p[0]);
      }
      if v.JNull? {
        assert Descend(JNull, p[1..]) == Ok(JNull);
      }
    } else {
      assert p[0] == q[0];
      var c := Lookup(m, p[0]);
      assert CommonPrefix(p[1..], q[1..]) == n - 1;
      assert p[..n + 1][1..] == p[1..][..n];
      if v.JNull? {
        assert c == JNull;
      }
      assert Descend(c, p[1..][..n]).Ok?;
      DescendPutOther(c, p[1..], q[1..], x);
      if v.JNull? {
        assert Descend(JNull, p[1..]) == Ok(JNull);
      }
    }
  }

  /** Replacing the value at a path unrelated to `p` leaves `dig` along `p` unchanged. */
  lemma DigPutOther(v: Json, p: seq<string>, q: seq<string>, x: Json)
    requires |p| > 0 && |q| > 0
    requires Unrelated(v, p, q)
    ensures Dig(Put(v, q, x), p) == Dig(v, p)
  {
    DescendPutOther(v, p, q, x);
  }
}
