/** The three client-side orders of the product list, each a stable sort:
    records that compare equal keep their relative order. */
module ProductSort {
  import opened Items

  /** price_asc, price_desc and alpha. */
  datatype SortKey = PriceAsc | PriceDesc | Alpha

  /** Titles in lexicographic order of their characters (case-sensitive). */
  predicate TitleLe(a: string, b: string)
    decreases |a|
  {
    a == [] || (b != [] && (a[0] < b[0] || (a[0] == b[0] && TitleLe(a[1..], b[1..]))))
  }

  lemma {:induction false} TitleLeTotal(a: string, b: string)
    ensures TitleLe(a, b) || TitleLe(b, a)
    decreases |a|
  {
    if a != [] && b != [] && a[0] == b[0] {
      TitleLeTotal(a[1..], b[1..]);
    }
  }

  lemma {:induction false} TitleLeTrans(a: string, b: string, c: string)
    requires TitleLe(a, b) && TitleLe(b, c)
    ensures TitleLe(a, c)
    decreases |a|
  {
    if a != [] && a[0] == b[0] && b[0] == c[0] {
      TitleLeTrans(a[1..], b[1..], c[1..]);
    }
  }

  /** Whether a may stand before b: the comparator of the sort option is not
      positive for (a, b). */
  predicate Le(k: SortKey, a: Item, b: Item)
  {
    match k
    case PriceAsc => a.price <= b.price
    case PriceDesc => b.price <= a.price
    case Alpha => TitleLe(a.title, b.title)
  }

  /** Each order is a total preorder. */
  lemma LeTotal(k: SortKey, a: Item, b: Item)
    ensures Le(k, a, b) || Le(k, b, a)
  {
    if k == Alpha {
      TitleLeTotal(a.title, b.title);
    }
  }

  lemma LeTrans(k: SortKey, a: Item, b: Item, c: Item)
    ensures Le(k, a, b) && Le(k, b, c) ==> Le(k, a, c)
  {
    if k == Alpha && TitleLe(a.title, b.title) && TitleLe(b.title, c.title) {
      TitleLeTrans(a.title, b.title, c.title);
    }
  }

  /** Records that the order cannot tell apart. */
  predicate Equivalent(k: SortKey, a: Item, b: Item)
  {
    Le(k, a, b) && Le(k, b, a)
  }

  /** Inserts x before the first element it may stand before. */
  function Insert(k: SortKey, x: Item, s: seq<Item>): seq<Item>
  {
    if s == [] then [x]
    else if Le(k, x, s[0]) then [x] + s
    else [s[0]] + Insert(k, x, s[1..])
  }

  /** Array.prototype.sort with the option's comparator (a stable sort). */
  function SortBy(k: SortKey, s: seq<Item>): seq<Item>
  {
    if s == [] then [] else Insert(k, s[0], SortBy(k, s[1..]))
  }

  predicate Sorted(k: SortKey, s: seq<Item>)
  {
    forall i, j :: 0 <= i < j < |s| ==> Le(k, s[i], s[j])
  }

  /** The records of s that the order cannot tell apart from x, in order. */
  function Ties(k: SortKey, x: Item, s: seq<Item>): seq<Item>
  {
    if s == [] then []
    else (if Equivalent(k, x, s[0]) then [s[0]] else []) + Ties(k, x, s[1..])
  }

  /** r keeps every group of equivalent records of s in its original order. */
  ghost predicate Stable(k: SortKey, s: seq<Item>, r: seq<Item>)
  {
    forall x :: Ties(k, x, r) == Ties(k, x, s)
  }

  lemma {:induction false} InsertPermutes(k: SortKey, x: Item, s: seq<Item>)
    ensures multiset(Insert(k, x, s)) == multiset(s) + multiset{x}
  {
    if s != [] && !Le(k, x, s[0]) {
      InsertPermutes(k, x, s[1..]);
      assert s == [s[0]] + s[1..];
    }
  }

  /** A head that may stand before every element of a sorted tail. */
  lemma SortedCons(k: SortKey, y: Item, t: seq<Item>)
    requires Sorted(k, t)
    requires forall z :: z in t ==> Le(k, y, z)
    ensures Sorted(k, [y] + t)
  {
    var r := [y] + t;
    forall i, j | 0 <= i < j < |r| ensures Le(k, r[i], r[j]) {
      if i == 0 {
        assert r[j] == t[j - 1];
        assert r[j] in t;
      } else {
        assert r[i] == t[i - 1] && r[j] == t[j - 1];
      }
    }
  }

  lemma {:induction false} InsertSorted(k: SortKey, x: Item, s: seq<Item>)
    requires Sorted(k, s)
    ensures Sorted(k, Insert(k, x, s))
  {
    if s == [] {
    } else if Le(k, x, s[0]) {
      forall z | z in s ensures Le(k, x, z) {
        var j :| 0 <= j < |s| && s[j] == z;
        LeTrans(k, x, s[0], z);
      }
      SortedCons(k, x, s);
    } else {
      var t := s[1..];
      assert Sorted(k, t) by {
        forall i, j | 0 <= i < j < |t| ensures Le(k, t[i], t[j]) {
          assert t[i] == s[i + 1] && t[j] == s[j + 1];
        }
      }
      InsertSorted(k, x, t);
      InsertPermutes(k, x, t);
      LeTotal(k, x, s[0]);
      forall z | z in Insert(k, x, t) ensures Le(k, s[0], z) {
        assert z in multiset(Insert(k, x, t));
        if z != x {
          assert z in t;
          var j :| 0 <= j < |t| && t[j] == z;
          assert s[j + 1] == z;
        }
      }
      SortedCons(k, s[0], Insert(k, x, t));
    }
  }

  lemma {:induction false} TiesAppend(k: SortKey, z: Item, a: seq<Item>, b: seq<Item>)
    ensures Ties(k, z, a + b) == Ties(k, z, a) + Ties(k, z, b)
  {
    if a == [] {
      assert a + b == b;
    } else {
      var head := if Equivalent(k, z, a[0]) then [a[0]] else [];
      assert (a + b)[0] == a[0];
      assert (a + b)[1..] == a[1..] + b;
      assert Ties(k, z, a + b) == head + Ties(k, z, a[1..] + b);
      TiesAppend(k, z, a[1..], b);
    }
  }

  /** Inserting x adds it to its own group of ties, in front: everything
      before the insertion point is strictly smaller than x. */
  lemma {:induction false} InsertTies(k: SortKey, z: Item, x: Item, s: seq<Item>)
    ensures Ties(k, z, Insert(k, x, s)) == Ties(k, z, [x]) + Ties(k, z, s)
  {
    if s == [] {
    } else if Le(k, x, s[0]) {
      TiesAppend(k, z, [x], s);
    } else {
      InsertTies(k, z, x, s[1..]);
      LeTrans(k, x, z, s[0]);
      assert !(Equivalent(k, z, x) && Equivalent(k, z, s[0]));
      TiesAppend(k, z, [s[0]], Insert(k, x, s[1..]));
      TiesAppend(k, z, [s[0]], s[1..]);
      assert s == [s[0]] + s[1..];
    }
  }

  /** The sorted variants are ordered by their key, are permutations of the
      input, and keep equal-key records in input order. */
  lemma {:induction false} SortBySpec(k: SortKey, s: seq<Item>)
    ensures Sorted(k, SortBy(k, s))
    ensures multiset(SortBy(k, s)) == multiset(s)
    ensures Stable(k, s, SortBy(k, s))
  {
    if s != [] {
      SortBySpec(k, s[1..]);
      InsertSorted(k, s[0], SortBy(k, s[1..]));
      InsertPermutes(k, s[0], SortBy(k, s[1..]));
      assert s == [s[0]] + s[1..];
      forall z ensures Ties(k, z, SortBy(k, s)) == Ties(k, z, s) {
        InsertTies(k, z, s[0], SortBy(k, s[1..]));
        TiesAppend(k, z, [s[0]], s[1..]);
      }
    }
  }
}
