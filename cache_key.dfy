/**
 * `ApiCache.generateKey`: the cache key of a request is its path, a `?`, and its
 * query parameters as `name=value` pairs sorted by name and joined with `&`.
 */
module CacheKey {
  import opened StringOrder
  import Text

  /** A query-parameter value: the source allows strings, numbers and booleans. */
  datatype ParamValue = Str(s: string) | Num(n: int) | Bool(b: bool)

  /** One entry of the parameter record, in insertion order. */
  datatype Param = Param(key: string, value: ParamValue)

  /** `${value}`: a string as it is, a boolean as `true`/`false`, a whole number as its decimal digits. */
  function Show(v: ParamValue): string
  {
    match v
    case Str(s) => s
    case Num(n) => Text.IntToString(n)
    case Bool(b) => if b then "true" else "false"
  }

  /** The entries of a record never repeat a name. */
  predicate DistinctKeys(ps: seq<Param>) {
    forall i, j | 0 <= i < j < |ps| :: ps[i].key != ps[j].key
  }

  /** Names strictly increase along the sequence. */
  predicate SortedByKey(ps: seq<Param>) {
    forall i, j | 0 <= i < j < |ps| :: Less(ps[i].key, ps[j].key)
  }

  /** Puts `p` in front of the first entry whose name it precedes. */
  function Insert(p: Param, s: seq<Param>): (r: seq<Param>)
    ensures multiset(r) == multiset(s) + multiset{p}
    decreases |s|
  {
    if s == [] then [p]
    else if Less(p.key, s[0].key) then [p] + s
    else
      assert s == [s[0]] + s[1..];
      [s[0]] + Insert(p, s[1..])
  }

  /** `Object.entries(params).sort(([a], [b]) => a.localeCompare(b))`. */
  function SortByKey(ps: seq<Param>): (r: seq<Param>)
    ensures multiset(r) == multiset(ps)
    decreases |ps|
  {
    if ps == [] then []
    else
      assert ps == [ps[0]] + ps[1..];
      Insert(ps[0], SortByKey(ps[1..]))
  }

  /** `${key}=${value}`: the name, an `=`, and the rendered value. */
  function PairText(p: Param): string
  {
    p.key + "=" + Show(p.value)
  }

  /** `.map(([key, value]) => `${key}=${value}`)` */
  function Pairs(ps: seq<Param>): (r: seq<string>)
    ensures |r| == |ps|
    ensures forall i | 0 <= i < |ps| :: r[i] == PairText(ps[i])
  {
    seq(|ps|, i requires 0 <= i < |ps| => PairText(ps[i]))
  }

  /** A rendered value reads back as what was rendered: a whole number as its digits. */
  lemma ShowRendersValue(v: ParamValue)
    ensures v.Str? ==> Show(v) == v.s
    ensures v.Bool? ==> Show(v) == (if v.b then "true" else "false")
    ensures v.Num? && v.n >= 0 ==> |Show(v)| >= 1 && Text.AllDigits(Show(v)) && Text.ParseNat(Show(v)) == v.n
    ensures v.Num? && v.n >= 0 ==> (Show(v)[0] == '0' ==> v.n == 0)
    ensures v.Num? && v.n < 0 ==> |Show(v)| >= 2 && Show(v)[0] == '-' && Text.AllDigits(Show(v)[1..]) && Text.ParseNat(Show(v)[1..]) == -v.n
    ensures v.Num? && v.n < 0 ==> Show(v)[1] != '0'
  {
  }

  /** A pair is the name, an `=`, and the rendered value, in that order. */
  lemma PairTextSplits(p: Param)
    ensures |PairText(p)| == |p.key| + 1 + |Show(p.value)|
    ensures PairText(p)[..|p.key|] == p.key && PairText(p)[|p.key|] == '='
    ensures PairText(p)[|p.key| + 1..] == Show(p.value)
  {
  }

  /** `generateKey(path, params)`: the key starts with the path followed by `?`. */
  function GenerateKey(path: string, params: seq<Param>): (key: string)
    ensures |key| > |path| && key[..|path|] == path && key[|path|] == '?'
  {
    path + "?" + Text.Join(Pairs(SortByKey(params)), "&")
  }

  lemma {:induction false} InsertSorted(p: Param, s: seq<Param>)
    requires SortedByKey(s)
    requires forall q | q in s :: q.key != p.key
    ensures SortedByKey(Insert(p, s))
    decreases |s|
  {
    if s == [] {
    } else if Less(p.key, s[0].key) {
      forall j | 0 < j < |s| ensures Less(p.key, s[j].key) {
        LessTransitive(p.key, s[0].key, s[j].key);
      }
    } else {
      InsertSorted(p, s[1..]);
      LessTrichotomy(p.key, s[0].key);
      var rest := Insert(p, s[1..]);
      forall j | 0 <= j < |rest| ensures Less(s[0].key, rest[j].key) {
        assert rest[j] in multiset(rest);
        if rest[j] != p {
          assert rest[j] in multiset(s[1..]);
          var k :| 0 <= k < |s[1..]| && s[1..][k] == rest[j];
          assert s[k + 1] == rest[j];
        }
      }
    }
  }

  /** With distinct names, sorting yields names in strictly increasing order. */
  lemma {:induction false} SortByKeySorted(ps: seq<Param>)
    requires DistinctKeys(ps)
    ensures SortedByKey(SortByKey(ps))
    decreases |ps|
  {
    if ps != [] {
      SortByKeySorted(ps[1..]);
      var rest := SortByKey(ps[1..]);
      forall q | q in rest ensures q.key != ps[0].key {
        assert q in multiset(ps[1..]);
        var k :| 0 <= k < |ps[1..]| && ps[1..][k] == q;
        assert ps[k + 1] == q;
      }
      InsertSorted(ps[0], rest);
    }
  }

  /** Two sorted arrangements of the same entries start with the same entry. */
  lemma SortedSameFirst(a: seq<Param>, b: seq<Param>)
    requires SortedByKey(a) && SortedByKey(b)
    requires multiset(a) == multiset(b) && a != []
    ensures b != [] && a[0] == b[0]
  {
    assert a[0] in multiset(b);
    var j :| 0 <= j < |b| && b[j] == a[0];
    assert b[0] in multiset(a);
    var i :| 0 <= i < |a| && a[i] == b[0];
    if j != 0 {
      if i == 0 {
        LessIrreflexive(b[0].key);
      } else {
        LessTransitive(b[j].key, b[0].key, b[j].key);
        LessIrreflexive(b[j].key);
      }
    }
  }

  lemma SameTailMultiset(a: seq<Param>, b: seq<Param>)
    requires a != [] && b != [] && a[0] == b[0] && multiset(a) == multiset(b)
    ensures multiset(a[1..]) == multiset(b[1..])
  {
    assert a == [a[0]] + a[1..] && b == [b[0]] + b[1..];
    assert multiset(a) == multiset{a[0]} + multiset(a[1..]);
    assert multiset(b) == multiset{b[0]} + multiset(b[1..]);
    forall x ensures multiset(a[1..])[x] == multiset(b[1..])[x] {
      assert multiset(a)[x] == multiset{a[0]}[x] + multiset(a[1..])[x];
      assert multiset(b)[x] == multiset{b[0]}[x] + multiset(b[1..])[x];
    }
  }

  /** Two arrangements of the same entries that are both sorted by name are identical. */
  lemma {:induction false} SortedUnique(a: seq<Param>, b: seq<Param>)
    requires SortedByKey(a) && SortedByKey(b)
    requires multiset(a) == multiset(b)
    ensures a == b
    decreases |a|
  {
    if a == [] {
      assert |multiset(b)| == 0;
    } else {
      SortedSameFirst(a, b);
      SameTailMultiset(a, b);
      SortedUnique(a[1..], b[1..]);
      assert a == [a[0]] + a[1..] && b == [b[0]] + b[1..];
    }
  }

  /**
   * The key is the path, `?`, and the pairs of ANY arrangement of the entries that
   * is sorted by name, joined with `&`: the sort used does not matter.
   */
  lemma GenerateKeyIsSortedJoin(path: string, params: seq<Param>, sorted: seq<Param>)
    requires DistinctKeys(params)
    requires SortedByKey(sorted) && multiset(sorted) == multiset(params)
    ensures GenerateKey(path, params) == path + "?" + Text.Join(Pairs(sorted), "&")
  {
    SortByKeySorted(params);
    SortedUnique(SortByKey(params), sorted);
  }

  /** The key does not depend on the order in which the parameters were inserted. */
  lemma GenerateKeyOrderIndependent(path: string, ps: seq<Param>, qs: seq<Param>)
    requires DistinctKeys(ps) && DistinctKeys(qs)
    requires multiset(ps) == multiset(qs)
    ensures GenerateKey(path, ps) == GenerateKey(path, qs)
  {
    SortByKeySorted(ps);
    SortByKeySorted(qs);
    SortedUnique(SortByKey(ps), SortByKey(qs));
  }

  /** No parameters: the key is the path and a bare `?`. */
  lemma GenerateKeyNoParams(path: string)
    ensures GenerateKey(path, []) == path + "?"
  {
  }

  /** `generateKey('/api/news', {page: 1, active: true, category: 'tech'})`. */
  lemma GenerateKeyExample()
    ensures GenerateKey("/api/news", [Param("page", Num(1)), Param("active", Bool(true)), Param("category", Str("tech"))])
            == "/api/news?active=true&category=tech&page=1"
  {
    ExampleKeyPairs();
    ExampleJoin();
  }

  /** The example's key is the path, `?`, and its three pairs in name order. */
  lemma ExampleKeyPairs()
    ensures GenerateKey("/api/news", [Param("page", Num(1)), Param("active", Bool(true)), Param("category", Str("tech"))])
            == "/api/news" + "?" + Text.Join(Pairs([Param("active", Bool(true)), Param("category", Str("tech")), Param("page", Num(1))]), "&")
  {
    var params := [Param("page", Num(1)), Param("active", Bool(true)), Param("category", Str("tech"))];
    var sorted := [params[1], params[2], params[0]];
    assert Less("active", "category") && Less("category", "page") && Less("active", "page");
    assert multiset(sorted) == multiset(params);
    GenerateKeyIsSortedJoin("/api/news", params, sorted);
  }

  /** The example's pairs, joined, after the path. */
  lemma ExampleJoin()
    ensures "/api/news" + "?" + Text.Join(Pairs([Param("active", Bool(true)), Param("category", Str("tech")), Param("page", Num(1))]), "&")
            == "/api/news?active=true&category=tech&page=1"
  {
    var j := Text.Join(Pairs([Param("active", Bool(true)), Param("category", Str("tech")), Param("page", Num(1))]), "&");
    assert j == "active=true" + "&" + "category=tech" + "&" + "page=1" by {
      ExamplePairs();
      JoinOfThree("active=true", "category=tech", "page=1", "&");
    }
    ExampleText();
  }

  lemma ExampleText()
    ensures "/api/news" + "?" + ("active=true" + "&" + "category=tech" + "&" + "page=1")
            == "/api/news?active=true&category=tech&page=1"
  {
  }

  lemma ExamplePairs()
    ensures Pairs([Param("active", Bool(true)), Param("category", Str("tech")), Param("page", Num(1))])
            == ["active=true", "category=tech", "page=1"]
  {
    assert Text.IntToString(1) == "1";
    assert PairText(Param("active", Bool(true))) == "active=true";
    assert PairText(Param("category", Str("tech"))) == "category=tech";
    assert PairText(Param("page", Num(1))) == "page=1";
  }

  lemma JoinOfThree(a: string, b: string, c: string, sep: string)
    ensures Text.Join([a, b, c], sep) == a + sep + b + sep + c
  {
    assert [a, b, c][1..] == [b, c];
    assert [b, c][1..] == [c];
    assert Text.Join([b, c], sep) == b + sep + c;
    assert Text.Join([a, b, c], sep) == a + sep + (b + sep + c);
  }
}
