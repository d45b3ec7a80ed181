/**
 * The sort key of the missing/known device listings (`_ip_sort_key`) and Python's
 * `sorted(xs, key=...)`: a stable sort under lexicographic tuple order.
 */
module IpOrder {
  import opened Strings

  /** The key given to an address that does not parse: sorts after every dotted quad. */
  const Sentinel: seq<int> := [999, 999, 999, 999]

  /** Python's tuple `<=` on tuples of ints: lexicographic, a proper prefix sorts first. */
  predicate KeyLe(a: seq<int>, b: seq<int>)
    decreases |a|
  {
    if a == [] then true
    else if b == [] then false
    else if a[0] != b[0] then a[0] < b[0]
    else KeyLe(a[1..], b[1..])
  }

  lemma {:induction false} KeyLeReflexive(a: seq<int>)
    ensures KeyLe(a, a)
    decreases |a|
  {
    if a != [] {
      KeyLeReflexive(a[1..]);
    }
  }

  lemma {:induction false} KeyLeTotal(a: seq<int>, b: seq<int>)
    ensures KeyLe(a, b) || KeyLe(b, a)
    decreases |a|
  {
    if a != [] && b != [] && a[0] == b[0] {
      KeyLeTotal(a[1..], b[1..]);
    }
  }

  lemma {:induction false} KeyLeAntisymmetric(a: seq<int>, b: seq<int>)
    requires KeyLe(a, b) && KeyLe(b, a)
    ensures a == b
    decreases |a|
  {
    if a != [] && b != [] {
      KeyLeAntisymmetric(a[1..], b[1..]);
      assert a == [a[0]] + a[1..] && b == [b[0]] + b[1..];
    }
  }

  lemma {:induction false} KeyLeTransitive(a: seq<int>, b: seq<int>, c: seq<int>)
    requires KeyLe(a, b) && KeyLe(b, c)
    ensures KeyLe(a, c)
    decreases |a|
  {
    if a != [] && b != [] && c != [] && a[0] == b[0] && b[0] == c[0] {
      KeyLeTransitive(a[1..], b[1..], c[1..]);
    }
  }

  /** Every piece of a dotted address is something `int()` accepts. */
  predicate AllNumeric(parts: seq<string>) {
    forall i :: 0 <= i < |parts| ==> IsDigits(parts[i])
  }

  function PartValues(parts: seq<string>): (vs: seq<int>)
    requires AllNumeric(parts)
    ensures |vs| == |parts|
    ensures forall i :: 0 <= i < |parts| ==> vs[i] == DigitsValue(parts[i])
  {
    seq(|parts|, i requires 0 <= i < |parts| => DigitsValue(parts[i]))
  }

  /**
   * `_ip_sort_key`: the integers of the dot-separated pieces, or the Sentinel when some
   * piece is not an integer. The number of pieces is not checked.
   */
  function IpSortKey(ip: string): (key: seq<int>)
  {
    var parts := Split(ip, '.');
    if AllNumeric(parts) then PartValues(parts) else Sentinel
  }

  /** The dotted rendering of a tuple of naturals has that tuple as its key. */
  lemma IpSortKeyOfDotted(ns: seq<nat>)
    requires ns != []
    ensures IpSortKey(Join(seq(|ns|, i requires 0 <= i < |ns| => Decimal(ns[i])), '.')) == ns
  {
    var parts := seq(|ns|, i requires 0 <= i < |ns| => Decimal(ns[i]));
    forall i | 0 <= i < |parts| ensures IsDigits(parts[i]) && DigitsValue(parts[i]) == ns[i] && '.' !in parts[i] {
      DecimalRoundTrip(ns[i]);
    }
    SplitJoin(parts, '.');
    assert PartValues(parts) == ns;
  }

  /** An address with a piece that is not an integer gets the Sentinel. */
  lemma NonNumericGetsSentinel(ip: string, i: nat)
    requires i < |Split(ip, '.')| && !IsDigits(Split(ip, '.')[i])
    ensures IpSortKey(ip) == Sentinel
  {
  }

  /** Four pieces, each an integer below 256. */
  predicate IsDottedQuad(ip: string) {
    var parts := Split(ip, '.');
    |parts| == 4 && AllNumeric(parts) && forall i :: 0 <= i < 4 ==> DigitsValue(parts[i]) < 256
  }

  /** A dotted quad sorts strictly before any address that does not parse. */
  lemma DottedQuadBeforeUnparsable(ip: string, bad: string)
    requires IsDottedQuad(ip) && !AllNumeric(Split(bad, '.'))
    ensures KeyLe(IpSortKey(ip), IpSortKey(bad)) && IpSortKey(ip) != IpSortKey(bad)
  {
    var k := IpSortKey(ip);
    assert k[0] < 999;
  }

  // ---- stable sort ----

  /** Nondecreasing by key. */
  ghost predicate SortedBy<T>(s: seq<T>, key: T -> seq<int>) {
    forall i, j :: 0 <= i < j < |s| ==> KeyLe(key(s[i]), key(s[j]))
  }

  /** The elements of `s` whose key is `k`, in their order in `s`. */
  function WithKey<T>(s: seq<T>, key: T -> seq<int>, k: seq<int>): seq<T>
    decreases |s|
  {
    if s == [] then []
    else (if key(s[0]) == k then [s[0]] else []) + WithKey(s[1..], key, k)
  }

  /** Places `x` before the first element whose key is not smaller than its own. */
  function Insert<T>(x: T, t: seq<T>, key: T -> seq<int>): seq<T>
    decreases |t|
  {
    if t == [] || KeyLe(key(x), key(t[0])) then [x] + t
    else [t[0]] + Insert(x, t[1..], key)
  }

  /** `sorted(s, key=key)`. */
  function SortBy<T>(s: seq<T>, key: T -> seq<int>): seq<T>
    decreases |s|
  {
    if s == [] then [] else Insert(s[0], SortBy(s[1..], key), key)
  }

  lemma {:induction false} InsertPermutes<T>(x: T, t: seq<T>, key: T -> seq<int>)
    ensures multiset(Insert(x, t, key)) == multiset([x] + t)
    decreases |t|
  {
    if t != [] && !KeyLe(key(x), key(t[0])) {
      InsertPermutes(x, t[1..], key);
      assert t == [t[0]] + t[1..];
    }
  }

  lemma {:induction false} InsertSorted<T>(x: T, t: seq<T>, key: T -> seq<int>)
    requires SortedBy(t, key)
    ensures SortedBy(Insert(x, t, key), key)
    decreases |t|
  {
    var r := Insert(x, t, key);
    if t == [] {
    } else if KeyLe(key(x), key(t[0])) {
      forall i, j | 0 <= i < j < |r| ensures KeyLe(key(r[i]), key(r[j])) {
        if i == 0 && j > 1 {
          KeyLeTransitive(key(x), key(t[0]), key(t[j - 1]));
        }
      }
    } else {
      KeyLeTotal(key(x), key(t[0]));
      var tail := t[1..];
      var rest := Insert(x, tail, key);
      assert SortedBy(tail, key);
      InsertSorted(x, tail, key);
      assert forall j :: 0 <= j < |tail| ==> KeyLe(key(t[0]), key(tail[j])) by {
        forall j | 0 <= j < |tail| ensures KeyLe(key(t[0]), key(tail[j])) {
          assert tail[j] == t[j + 1];
        }
      }
      InsertLowerBound(x, tail, key, key(t[0]));
      assert r == [t[0]] + rest;
      forall i, j | 0 <= i < j < |r| ensures KeyLe(key(r[i]), key(r[j])) {
        if i == 0 {
          assert r[j] == rest[j - 1];
        } else {
          assert r[i] == rest[i - 1] && r[j] == rest[j - 1];
        }
      }
    }
  }

  /** Inserting an element no smaller than `k` among elements no smaller than `k` keeps them so. */
  lemma {:induction false} InsertLowerBound<T>(x: T, t: seq<T>, key: T -> seq<int>, k: seq<int>)
    requires KeyLe(k, key(x)) && forall j :: 0 <= j < |t| ==> KeyLe(k, key(t[j]))
    ensures forall j :: 0 <= j < |Insert(x, t, key)| ==> KeyLe(k, key(Insert(x, t, key)[j]))
    decreases |t|
  {
    var r := Insert(x, t, key);
    if t == [] || KeyLe(key(x), key(t[0])) {
      forall j | 0 <= j < |r| ensures KeyLe(k, key(r[j])) {
        if j > 0 { assert r[j] == t[j - 1]; }
      }
    } else {
      var tail := t[1..];
      assert forall j :: 0 <= j < |tail| ==> KeyLe(k, key(tail[j])) by {
        forall j | 0 <= j < |tail| ensures KeyLe(k, key(tail[j])) {
          assert tail[j] == t[j + 1];
        }
      }
      InsertLowerBound(x, tail, key, k);
      var rest := Insert(x, tail, key);
      assert r == [t[0]] + rest;
      forall j | 0 <= j < |r| ensures KeyLe(k, key(r[j])) {
        if j > 0 { assert r[j] == rest[j - 1]; }
      }
    }
  }

  lemma {:induction false} InsertStable<T>(x: T, t: seq<T>, key: T -> seq<int>, k: seq<int>)
    ensures WithKey(Insert(x, t, key), key, k) == WithKey([x] + t, key, k)
    decreases |t|
  {
    if t == [] {
    } else if KeyLe(key(x), key(t[0])) {
    } else {
      InsertStable(x, t[1..], key, k);
      var rest := Insert(x, t[1..], key);
      assert ([t[0]] + rest)[1..] == rest;
      assert ([x] + t)[1..] == t;
      assert ([x] + t[1..])[1..] == t[1..];
      assert t[1..] == t[1..];
      if key(x) == k {
        KeyLeReflexive(k);
        assert key(t[0]) != k;
      }
    }
  }

  /** `sorted` returns a permutation of its input that is nondecreasing by key. */
  lemma {:induction false} SortByPermutes<T>(s: seq<T>, key: T -> seq<int>)
    ensures multiset(SortBy(s, key)) == multiset(s)
    ensures SortedBy(SortBy(s, key), key)
    decreases |s|
  {
    if s != [] {
      SortByPermutes(s[1..], key);
      InsertPermutes(s[0], SortBy(s[1..], key), key);
      InsertSorted(s[0], SortBy(s[1..], key), key);
      assert s == [s[0]] + s[1..];
    }
  }

  /** `sorted` is stable: the elements sharing any one key keep their original order. */
  lemma {:induction false} SortByStable<T>(s: seq<T>, key: T -> seq<int>, k: seq<int>)
    ensures WithKey(SortBy(s, key), key, k) == WithKey(s, key, k)
    decreases |s|
  {
    if s != [] {
      SortByStable(s[1..], key, k);
      InsertStable(s[0], SortBy(s[1..], key), key, k);
      assert ([s[0]] + SortBy(s[1..], key))[1..] == SortBy(s[1..], key);
    }
  }

  lemma {:induction false} WithKeyMembers<T>(s: seq<T>, key: T -> seq<int>, k: seq<int>, x: T)
    ensures x in WithKey(s, key, k) <==> x in s && key(x) == k
    decreases |s|
  {
    if s != [] {
      WithKeyMembers(s[1..], key, k, x);
      assert s == [s[0]] + s[1..];
    }
  }

  /** Two sequences sorted by key whose elements of every key agree in order are equal. */
  lemma {:induction false} SortedWithSameKeyClassesEqual<T>(r: seq<T>, q: seq<T>, key: T -> seq<int>)
    requires SortedBy(r, key) && SortedBy(q, key)
    requires forall k :: WithKey(r, key, k) == WithKey(q, key, k)
    ensures r == q
    decreases |r| + |q|
  {
    if r == [] || q == [] {
      if r != [] {
        WithKeyMembers(r, key, key(r[0]), r[0]);
        assert false;
      } else if q != [] {
        WithKeyMembers(q, key, key(q[0]), q[0]);
        assert false;
      }
    } else {
      var a, b := key(r[0]), key(q[0]);
      WithKeyMembers(q, key, b, q[0]);
      var y := WithKey(r, key, b)[0];
      WithKeyMembers(r, key, b, y);
      var iy :| 0 <= iy < |r| && r[iy] == y;
      if iy == 0 { KeyLeReflexive(a); }
      assert KeyLe(a, b);
      WithKeyMembers(r, key, a, r[0]);
      var z := WithKey(q, key, a)[0];
      WithKeyMembers(q, key, a, z);
      var iz :| 0 <= iz < |q| && q[iz] == z;
      if iz == 0 { KeyLeReflexive(b); }
      assert KeyLe(b, a);
      KeyLeAntisymmetric(a, b);
      assert WithKey(r, key, a) == [r[0]] + WithKey(r[1..], key, a);
      assert WithKey(q, key, a) == [q[0]] + WithKey(q[1..], key, a);
      assert WithKey(r, key, a) == WithKey(q, key, a);
      var wr, wq := WithKey(r[1..], key, a), WithKey(q[1..], key, a);
      assert ([r[0]] + wr)[0] == r[0] && ([r[0]] + wr)[1..] == wr;
      assert ([q[0]] + wq)[0] == q[0] && ([q[0]] + wq)[1..] == wq;
      assert r[0] == q[0] && wr == wq;
      forall k ensures WithKey(r[1..], key, k) == WithKey(q[1..], key, k) {
        if k != a {
          assert WithKey(r, key, k) == WithKey(r[1..], key, k);
          assert WithKey(q, key, k) == WithKey(q[1..], key, k);
        }
      }
      SortedWithSameKeyClassesEqual(r[1..], q[1..], key);
      assert r == [r[0]] + r[1..] && q == [q[0]] + q[1..];
    }
  }

  /**
   * SortBy is the stable sort: any arrangement that is nondecreasing by key and keeps the
   * order of equal-key elements is exactly SortBy's result.
   */
  lemma StableSortIsUnique<T>(s: seq<T>, r: seq<T>, key: T -> seq<int>)
    requires SortedBy(r, key)
    requires forall k :: WithKey(r, key, k) == WithKey(s, key, k)
    ensures r == SortBy(s, key)
  {
    SortByPermutes(s, key);
    forall k ensures WithKey(r, key, k) == WithKey(SortBy(s, key), key, k) {
      SortByStable(s, key, k);
    }
    SortedWithSameKeyClassesEqual(r, SortBy(s, key), key);
  }

  lemma KeyOfTwos(ip: string)
    requires ip == "2.2.2.2"
    ensures IpSortKey(ip) == [2, 2, 2, 2]
  {
    var ns: seq<nat> := [2, 2, 2, 2];
    var parts := seq(|ns|, i requires 0 <= i < |ns| => Decimal(ns[i]));
    assert parts == ["2", "2", "2", "2"];
    JoinOfFour(parts);
    assert Join(parts, '.') == ip;
    IpSortKeyOfDotted(ns);
  }

  lemma JoinOfFour(p: seq<string>)
    requires |p| == 4
    ensures Join(p, '.') == p[0] + "." + p[1] + "." + p[2] + "." + p[3]
  {
    assert p[1..][1..] == p[2..];
    assert p[2..][1..] == p[3..];
    assert Join(p[3..], '.') == p[3];
    assert Join(p[2..], '.') == p[2] + "." + p[3];
    assert Join(p[1..], '.') == p[1] + "." + (p[2] + "." + p[3]);
    assert p[0] + "." + (p[1] + "." + (p[2] + "." + p[3])) == p[0] + "." + p[1] + "." + p[2] + "." + p[3];
  }

  lemma KeyOfTenFive(ip: string)
    requires ip == "10.0.0.5"
    ensures IpSortKey(ip) == [10, 0, 0, 5]
  {
    var ns: seq<nat> := [10, 0, 0, 5];
    var parts := seq(|ns|, i requires 0 <= i < |ns| => Decimal(ns[i]));
    assert Decimal(10) == "10";
    assert parts == ["10", "0", "0", "5"];
    JoinOfFour(parts);
    assert Join(parts, '.') == ip;
    IpSortKeyOfDotted(ns);
  }

  lemma KeyOfBadIp(ip: string)
    requires ip == "bad-ip"
    ensures IpSortKey(ip) == Sentinel
  {
    SplitWithoutSep(ip, '.');
    var parts := Split(ip, '.');
    assert parts[0] == ip;
    assert ip[0] == 'b';
    assert !IsDigits(parts[0]);
    assert !AllNumeric(parts);
  }

  /** `2.2.2.2` sorts before `10.0.0.5`, which sorts before `bad-ip`. */
  lemma AddressOrderExample(a: string, b: string, c: string)
    requires a == "2.2.2.2" && b == "10.0.0.5" && c == "bad-ip"
    ensures KeyLe(IpSortKey(a), IpSortKey(b))
    ensures KeyLe(IpSortKey(b), IpSortKey(c))
    ensures IpSortKey(b) != IpSortKey(c)
  {
    KeyOfTwos(a);
    KeyOfTenFive(b);
    KeyOfBadIp(c);
  }
}
