/**
 * Query-string serialisation of a parameter object and the HMAC signature
 * computed over it.
 *
 * A JavaScript object is represented by the list of its own keys in
 * `Object.keys` order, each with its value. Objects built by the client never
 * repeat a key; `DistinctKeys` states that where a lemma needs it.
 */
module Utils {
  import opened JsValues
  import opened ClientConfig

  /** A JavaScript object: its own keys in enumeration order, with their values. */
  type Params = seq<(string, Value)>

  /** The keys of an object, in order. */
  function Keys(p: Params): (ks: seq<string>)
    ensures |ks| == |p|
    ensures forall i :: 0 <= i < |p| ==> ks[i] == p[i].0
  {
    if p == [] then [] else [p[0].0] + Keys(p[1..])
  }

  /** No key occurs twice, as in every JavaScript object. */
  predicate DistinctKeys(p: Params) {
    forall i, j :: 0 <= i < j < |p| ==> p[i].0 != p[j].0
  }

  /** `obj[k]` for an own key, `None` when `k` is not a key of the object. */
  function Lookup(p: Params, k: string): Option<Value> {
    if p == [] then None
    else if p[0].0 == k then Some(p[0].1)
    else Lookup(p[1..], k)
  }

  // ----- getObjectAsQueryParameters -----

  /** `Object.keys(params).filter(key => params[key] !== undefined)`, together with the values. */
  function Defined(p: Params): (d: Params)
    ensures |d| <= |p|
    ensures forall e :: e in d <==> e in p && e.1 != Undefined
  {
    if p == [] then []
    else if p[0].1 == Undefined then Defined(p[1..])
    else [p[0]] + Defined(p[1..])
  }

  /** How one value is written after `=`: arrays as JSON, everything else by `String()`. */
  function Render(rt: Runtime, v: Value): string {
    if v.Arr? then rt.jsonStringify(v.items) else ToText(rt, v)
  }

  /** `key + '=' + value`, with no percent-encoding of either part. */
  function Pair(rt: Runtime, e: (string, Value)): string {
    e.0 + "=" + Render(rt, e.1)
  }

  /** The `map` step: one `key=value` string per entry, in order. */
  function Pairs(rt: Runtime, p: Params): seq<string> {
    seq(|p|, i requires 0 <= i < |p| => Pair(rt, p[i]))
  }

  /** `Array.prototype.join(sep)` on strings. */
  function Join(parts: seq<string>, sep: string): string {
    if |parts| == 0 then ""
    else if |parts| == 1 then parts[0]
    else parts[0] + sep + Join(parts[1..], sep)
  }

  /** getObjectAsQueryParameters: the defined entries as `k=v`, joined with `&`. */
  function QueryString(rt: Runtime, p: Params): string {
    Join(Pairs(rt, Defined(p)), "&")
  }

  /** `String.prototype.split(sep)` for a one-character separator: the inverse of `Join`. */
  function Split(s: string, sep: char): (r: seq<string>)
    ensures |r| >= 1
  {
    if s == [] then [""]
    else
      var rest := Split(s[1..], sep);
      if s[0] == sep then [""] + rest else [[s[0]] + rest[0]] + rest[1..]
  }

  /** An object without undefined values is serialised entry for entry. */
  lemma {:induction false} DefinedOfTotal(p: Params)
    requires forall i :: 0 <= i < |p| ==> p[i].1 != Undefined
    ensures Defined(p) == p
  {
    if p != [] {
      DefinedOfTotal(p[1..]);
      assert [p[0]] + p[1..] == p;
    }
  }

  /** Filtering distributes over concatenation, so surviving entries keep their relative order. */
  lemma {:induction false} DefinedAppend(p: Params, q: Params)
    ensures Defined(p + q) == Defined(p) + Defined(q)
  {
    if p == [] {
      assert p + q == q;
    } else {
      DefinedAppend(p[1..], q);
      assert (p + q)[0] == p[0];
      assert (p + q)[1..] == p[1..] + q;
    }
  }

  lemma PairsAppend(rt: Runtime, p: Params, q: Params)
    ensures Pairs(rt, p + q) == Pairs(rt, p) + Pairs(rt, q)
  {
  }

  lemma {:induction false} JoinAppend(a: seq<string>, b: seq<string>, sep: string)
    requires |a| >= 1 && |b| >= 1
    ensures Join(a + b, sep) == Join(a, sep) + sep + Join(b, sep)
  {
    if |a| == 1 {
      assert (a + b)[1..] == b;
    } else {
      JoinAppend(a[1..], b, sep);
      assert (a + b)[1..] == a[1..] + b;
    }
  }

  /**
   * Serialising the entries of `p` followed by those of `q` writes the query
   * of `p`, then one `&` when both sides have a defined entry, then the query of `q`.
   */
  lemma QueryConcat(rt: Runtime, p: Params, q: Params)
    ensures QueryString(rt, p + q) ==
      if Defined(p) == [] then QueryString(rt, q)
      else if Defined(q) == [] then QueryString(rt, p)
      else QueryString(rt, p) + "&" + QueryString(rt, q)
  {
    DefinedAppend(p, q);
    PairsAppend(rt, Defined(p), Defined(q));
    if Defined(p) == [] {
      assert Defined(p + q) == Defined(q);
    } else if Defined(q) == [] {
      assert Defined(p + q) == Defined(p);
    } else {
      JoinAppend(Pairs(rt, Defined(p)), Pairs(rt, Defined(q)), "&");
    }
  }

  /** The query is empty exactly when no key has a defined value. */
  lemma QueryEmpty(rt: Runtime, p: Params)
    ensures QueryString(rt, p) == "" <==> Defined(p) == []
  {
    var parts := Pairs(rt, Defined(p));
    if Defined(p) != [] {
      var first := Defined(p)[0];
      assert parts[0] == first.0 + "=" + Render(rt, first.1);
      assert |parts[0]| >= 1;
      if |parts| > 1 {
        assert Join(parts, "&") == parts[0] + "&" + Join(parts[1..], "&");
      }
    }
  }

  /** A single defined entry is written as its key, `=`, and its JSON or `String()` text. */
  lemma QuerySingle(rt: Runtime, k: string, v: Value)
    requires v != Undefined
    ensures QueryString(rt, [(k, v)]) ==
      k + "=" + (if v.Arr? then rt.jsonStringify(v.items) else ToText(rt, v))
  {
    assert Defined([(k, v)]) == [(k, v)];
  }

  lemma {:induction false} SplitSeparatorFree(a: string, rest: string, sep: char)
    requires sep !in a
    ensures Split(a + rest, sep) == [a + Split(rest, sep)[0]] + Split(rest, sep)[1..]
  {
    if a == [] {
      var r := Split(rest, sep);
      assert a + rest == rest;
      assert a + r[0] == r[0];
      assert r == [r[0]] + r[1..];
    } else {
      assert a[0] in a;
      assert forall c :: c in a[1..] ==> c in a;
      SplitSeparatorFree(a[1..], rest, sep);
      var r := Split(rest, sep);
      assert (a + rest)[0] == a[0];
      assert (a + rest)[1..] == a[1..] + rest;
      assert Split(a + rest, sep) == [[a[0]] + (a[1..] + r[0])] + r[1..];
      assert [a[0]] + (a[1..] + r[0]) == a + r[0];
    }
  }

  /** Splitting a join of separator-free parts gives the parts back. */
  lemma {:induction false} SplitJoin(parts: seq<string>, sep: char)
    requires |parts| >= 1
    requires forall i :: 0 <= i < |parts| ==> sep !in parts[i]
    ensures Split(Join(parts, [sep]), sep) == parts
  {
    if |parts| == 1 {
      SplitSeparatorFree(parts[0], "", sep);
      assert parts[0] + "" == parts[0];
    } else {
      var tail := Join(parts[1..], [sep]);
      SplitJoin(parts[1..], sep);
      assert Join(parts, [sep]) == parts[0] + ([sep] + tail);
      SplitSeparatorFree(parts[0], [sep] + tail, sep);
      assert ([sep] + tail)[1..] == tail;
      assert Split([sep] + tail, sep) == [""] + parts[1..];
      assert parts[0] + "" == parts[0];
      assert parts == [parts[0]] + parts[1..];
    }
  }

  /**
   * When no defined key or rendered value contains `&`, the query splits at
   * `&` into exactly one `key=value` segment per defined entry, in order: the
   * top-level separators are (defined count - 1).
   */
  lemma QuerySegments(rt: Runtime, p: Params)
    requires Defined(p) != []
    requires forall e :: e in p && e.1 != Undefined ==> '&' !in Pair(rt, e)
    ensures Split(QueryString(rt, p), '&') == Pairs(rt, Defined(p))
    ensures |Split(QueryString(rt, p), '&')| == |Defined(p)|
  {
    var d := Defined(p);
    var parts := Pairs(rt, d);
    forall i | 0 <= i < |parts| ensures '&' !in parts[i] {
      assert d[i] in d;
    }
    SplitJoin(parts, '&');
  }

  /**
   * Values are not percent-encoded, so a value containing `&` and `=` is
   * indistinguishable from two entries.
   */
  lemma UnencodedValuesCollide(rt: Runtime)
    ensures QueryString(rt, [("a", Str("1&b=2"))]) == QueryString(rt, [("a", Str("1")), ("b", Str("2"))])
  {
    var one: Params := [("a", Str("1&b=2"))];
    var two: Params := [("a", Str("1")), ("b", Str("2"))];
    assert Defined(one) == one;
    assert Render(rt, Str("1&b=2")) == "1&b=2";
    assert Pair(rt, one[0]) == "a=1&b=2";
    assert Pairs(rt, one) == ["a=1&b=2"];
    assert Defined(two[1..]) == two[1..];
    assert Defined(two) == two;
    assert Render(rt, Str("1")) == "1" && Render(rt, Str("2")) == "2";
    assert Pair(rt, two[0]) == "a=1" && Pair(rt, two[1]) == "b=2";
    assert Pairs(rt, two) == ["a=1", "b=2"];
    assert Join(["a=1", "b=2"], "&") == "a=1" + "&" + "b=2";
  }

  // ----- object spread: {...parameters, ...body} -----

  /** `obj[k] = v`: an existing key keeps its position, a new key goes last. */
  function Assign(p: Params, k: string, v: Value): Params {
    if p == [] then [(k, v)]
    else if p[0].0 == k then [(k, v)] + p[1..]
    else [p[0]] + Assign(p[1..], k, v)
  }

  /** Copies every own entry of `b` onto `p`, in `b`'s order (undefined values included). */
  function AssignAll(p: Params, b: Params): Params
    decreases |b|
  {
    if b == [] then p else AssignAll(Assign(p, b[0].0, b[0].1), b[1..])
  }

  /** `{...parameters, ...body}`. */
  function Spread(parameters: Params, body: Params): Params {
    AssignAll(AssignAll([], parameters), body)
  }

  /** The keys of `ks` that are not in `seen`, in order. */
  function NewKeys(ks: seq<string>, seen: seq<string>): seq<string> {
    if ks == [] then [] else (if ks[0] in seen then [] else [ks[0]]) + NewKeys(ks[1..], seen)
  }

  lemma {:induction false} LookupAbsent(p: Params, k: string)
    requires k !in Keys(p)
    ensures Lookup(p, k) == None
  {
    if p != [] {
      assert Keys(p)[0] == p[0].0;
      assert Keys(p[1..]) == Keys(p)[1..];
      LookupAbsent(p[1..], k);
    }
  }

  /** In an object with distinct keys, looking up the key at position `i` finds the value there. */
  lemma {:induction false} LookupAt(p: Params, i: int)
    requires DistinctKeys(p) && 0 <= i < |p|
    ensures Lookup(p, p[i].0) == Some(p[i].1)
  {
    if i > 0 {
      assert p[0].0 != p[i].0;
      assert p[1..][i - 1] == p[i];
      LookupAt(p[1..], i - 1);
    }
  }

  lemma {:induction false} AssignLookup(p: Params, k: string, v: Value, j: string)
    ensures Lookup(Assign(p, k, v), j) == if j == k then Some(v) else Lookup(p, j)
  {
    if p != [] && p[0].0 != k {
      AssignLookup(p[1..], k, v, j);
    }
  }

  lemma {:induction false} AssignKeys(p: Params, k: string, v: Value)
    ensures Keys(Assign(p, k, v)) == if k in Keys(p) then Keys(p) else Keys(p) + [k]
  {
    if p != [] {
      assert Keys(p) == [p[0].0] + Keys(p[1..]);
      if p[0].0 != k {
        AssignKeys(p[1..], k, v);
        assert Keys(Assign(p, k, v)) == [p[0].0] + Keys(Assign(p[1..], k, v));
      } else {
        assert Keys(Assign(p, k, v)) == [k] + Keys(p[1..]);
      }
    }
  }

  lemma {:induction false} AssignAllLookup(p: Params, b: Params, j: string)
    requires DistinctKeys(b)
    decreases |b|
    ensures Lookup(AssignAll(p, b), j) == if j in Keys(b) then Lookup(b, j) else Lookup(p, j)
  {
    if b != [] {
      var k, v := b[0].0, b[0].1;
      assert Keys(b) == [k] + Keys(b[1..]);
      assert DistinctKeys(b[1..]) by {
        forall i, i' | 0 <= i < i' < |b[1..]| ensures b[1..][i].0 != b[1..][i'].0 {
          assert b[1..][i] == b[i + 1] && b[1..][i'] == b[i' + 1];
        }
      }
      assert k !in Keys(b[1..]) by {
        forall i | 0 <= i < |b[1..]| ensures Keys(b[1..])[i] != k {
          assert b[1..][i] == b[i + 1];
        }
      }
      AssignAllLookup(Assign(p, k, v), b[1..], j);
      AssignLookup(p, k, v, j);
    }
  }

  lemma {:induction false} NewKeysIgnoresAbsent(ks: seq<string>, seen: seq<string>, k: string)
    requires k !in ks
    ensures NewKeys(ks, seen + [k]) == NewKeys(ks, seen)
  {
    if ks != [] {
      NewKeysIgnoresAbsent(ks[1..], seen, k);
    }
  }

  lemma {:induction false} AssignAllKeys(p: Params, b: Params)
    requires DistinctKeys(b)
    decreases |b|
    ensures Keys(AssignAll(p, b)) == Keys(p) + NewKeys(Keys(b), Keys(p))
  {
    if b == [] {
      assert Keys(b) == [];
    } else {
      var k, v := b[0].0, b[0].1;
      var p1 := Assign(p, k, v);
      assert Keys(b) == [k] + Keys(b[1..]);
      assert DistinctKeys(b[1..]) by {
        forall i, i' | 0 <= i < i' < |b[1..]| ensures b[1..][i].0 != b[1..][i'].0 {
          assert b[1..][i] == b[i + 1] && b[1..][i'] == b[i' + 1];
        }
      }
      assert k !in Keys(b[1..]) by {
        forall i | 0 <= i < |b[1..]| ensures Keys(b[1..])[i] != k {
          assert b[1..][i] == b[i + 1];
        }
      }
      AssignAllKeys(p1, b[1..]);
      AssignKeys(p, k, v);
      assert NewKeys(Keys(b), Keys(p)) ==
        (if k in Keys(p) then [] else [k]) + NewKeys(Keys(b[1..]), Keys(p));
      if k !in Keys(p) {
        NewKeysIgnoresAbsent(Keys(b[1..]), Keys(p), k);
      }
    }
  }

  lemma {:induction false} AssignFresh(p: Params, k: string, v: Value)
    requires k !in Keys(p)
    ensures Assign(p, k, v) == p + [(k, v)]
  {
    if p != [] {
      assert Keys(p) == [p[0].0] + Keys(p[1..]);
      AssignFresh(p[1..], k, v);
      assert [p[0]] + (p[1..] + [(k, v)]) == p + [(k, v)];
    }
  }

  lemma {:induction false} AssignAllFresh(p: Params, b: Params)
    requires DistinctKeys(b)
    decreases |b|
    requires forall i :: 0 <= i < |b| ==> b[i].0 !in Keys(p)
    ensures AssignAll(p, b) == p + b
  {
    if b == [] {
      assert p + b == p;
    } else {
      var k, v := b[0].0, b[0].1;
      AssignFresh(p, k, v);
      assert Keys(p + [(k, v)]) == Keys(p) + [k];
      assert DistinctKeys(b[1..]) by {
        forall i, i' | 0 <= i < i' < |b[1..]| ensures b[1..][i].0 != b[1..][i'].0 {
          assert b[1..][i] == b[i + 1] && b[1..][i'] == b[i' + 1];
        }
      }
      forall i | 0 <= i < |b[1..]| ensures b[1..][i].0 !in Keys(p + [(k, v)]) {
        assert b[1..][i] == b[i + 1];
      }
      AssignAllFresh(p + [(k, v)], b[1..]);
      assert p + [(k, v)] + b[1..] == p + b;
    }
  }

  /** Spreading an object into `{}` and then spreading `{}` over it gives the object back. */
  lemma SpreadWithoutBody(parameters: Params)
    requires DistinctKeys(parameters)
    ensures Spread(parameters, []) == parameters
  {
    AssignAllFresh([], parameters);
    assert [] + parameters == parameters;
  }

  /** Spreading `{}` and then the body gives the body back. */
  lemma SpreadWithoutParameters(body: Params)
    requires DistinctKeys(body)
    ensures Spread([], body) == body
  {
    AssignAllFresh([], body);
    assert [] + body == body;
  }

  /**
   * In `{...parameters, ...body}` a key of the body takes the body's value
   * (even `undefined`), and any other key keeps the parameter's value.
   */
  lemma SpreadLookup(parameters: Params, body: Params, k: string)
    requires DistinctKeys(parameters) && DistinctKeys(body)
    ensures Lookup(Spread(parameters, body), k) ==
      if k in Keys(body) then Lookup(body, k) else Lookup(parameters, k)
  {
    AssignAllLookup([], parameters, k);
    AssignAllLookup(AssignAll([], parameters), body, k);
    if k !in Keys(parameters) {
      LookupAbsent(parameters, k);
    }
  }

  /**
   * In `{...parameters, ...body}` the parameters' keys come first in their
   * own order, followed by the body's new keys in the body's order.
   */
  lemma SpreadKeys(parameters: Params, body: Params)
    requires DistinctKeys(parameters) && DistinctKeys(body)
    ensures Keys(Spread(parameters, body)) == Keys(parameters) + NewKeys(Keys(body), Keys(parameters))
  {
    SpreadWithoutBody(parameters);
    assert AssignAll([], parameters) == parameters;
    AssignAllKeys(parameters, body);
  }

  /** Assigning a key keeps the keys of an object distinct. */
  lemma AssignDistinct(p: Params, k: string, v: Value)
    requires DistinctKeys(p)
    ensures DistinctKeys(Assign(p, k, v))
  {
    AssignKeys(p, k, v);
    var q := Assign(p, k, v);
    forall i, j | 0 <= i < j < |q| ensures q[i].0 != q[j].0 {
      assert q[i].0 == Keys(q)[i] && q[j].0 == Keys(q)[j];
      if k !in Keys(p) && j == |p| {
        assert Keys(q)[i] == Keys(p)[i];
      } else {
        assert Keys(q)[i] == Keys(p)[i] && Keys(q)[j] == Keys(p)[j];
      }
    }
  }

  /** Copying an object onto another keeps the keys distinct. */
  lemma {:induction false} AssignAllDistinct(p: Params, b: Params)
    requires DistinctKeys(p)
    decreases |b|
    ensures DistinctKeys(AssignAll(p, b))
  {
    if b != [] {
      AssignDistinct(p, b[0].0, b[0].1);
      AssignAllDistinct(Assign(p, b[0].0, b[0].1), b[1..]);
    }
  }

  /** A key whose value is `undefined` has no entry that survives the filter. */
  lemma UndefinedKeyNotDefined(p: Params, k: string)
    requires DistinctKeys(p) && Lookup(p, k) == Some(Undefined)
    ensures forall e :: e in Defined(p) ==> e.0 != k
  {
    forall e | e in Defined(p) ensures e.0 != k {
      var i :| 0 <= i < |p| && p[i] == e;
      LookupAt(p, i);
    }
  }

  /**
   * A body entry whose value is `undefined` overrides the parameter of the
   * same key, so that key does not appear in the merged query at all.
   */
  lemma UndefinedBodyValueHidesParameter(parameters: Params, body: Params, k: string)
    requires DistinctKeys(parameters) && DistinctKeys(body) && Lookup(body, k) == Some(Undefined)
    ensures Lookup(Spread(parameters, body), k) == Some(Undefined)
    ensures forall e :: e in Defined(Spread(parameters, body)) ==> e.0 != k
  {
    if k !in Keys(body) {
      LookupAbsent(body, k);
    }
    SpreadLookup(parameters, body, k);
    AssignAllDistinct([], parameters);
    AssignAllDistinct(AssignAll([], parameters), body);
    UndefinedKeyNotDefined(Spread(parameters, body), k);
  }

  // ----- signatures -----

  /** getSignatureFromParametersAndBody: HMAC-SHA256, keyed by the secret, of the merged query. */
  function SignatureFromParametersAndBody(client: Client, rt: Runtime, parameters: Params, body: Params): string {
    rt.hmacSha256Hex(client.binanceSecretKey, QueryString(rt, Spread(parameters, body)))
  }

  /** getSignatureFromParameters. */
  function SignatureFromParameters(client: Client, rt: Runtime, parameters: Params): string {
    SignatureFromParametersAndBody(client, rt, parameters, [])
  }

  /** getSignatureFromBody. */
  function SignatureFromBody(client: Client, rt: Runtime, body: Params): string {
    SignatureFromParametersAndBody(client, rt, [], body)
  }

  /** Signing the parameters alone signs exactly their query string. */
  lemma SignatureOfParameters(client: Client, rt: Runtime, parameters: Params)
    requires DistinctKeys(parameters)
    ensures SignatureFromParameters(client, rt, parameters) ==
      rt.hmacSha256Hex(client.binanceSecretKey, QueryString(rt, parameters))
  {
    SpreadWithoutBody(parameters);
  }

  /** Signing the body alone signs exactly its query string. */
  lemma SignatureOfBody(client: Client, rt: Runtime, body: Params)
    requires DistinctKeys(body)
    ensures SignatureFromBody(client, rt, body) ==
      rt.hmacSha256Hex(client.binanceSecretKey, QueryString(rt, body))
  {
    SpreadWithoutParameters(body);
  }

  /** The same object gives the same signature whether passed as parameters or as body. */
  lemma SignatureBodyAgreesWithParameters(client: Client, rt: Runtime, o: Params)
    ensures SignatureFromBody(client, rt, o) == SignatureFromParameters(client, rt, o)
  {
  }

  /** The signature depends on nothing but the secret and the serialised merged object. */
  lemma SignatureDeterminedByQuery(c1: Client, c2: Client, rt: Runtime, p1: Params, b1: Params, p2: Params, b2: Params)
    requires c1.binanceSecretKey == c2.binanceSecretKey
    requires QueryString(rt, Spread(p1, b1)) == QueryString(rt, Spread(p2, b2))
    ensures SignatureFromParametersAndBody(c1, rt, p1, b1) == SignatureFromParametersAndBody(c2, rt, p2, b2)
  {
  }
}
