/** The record that the catalog delivers and that the cart and the favorites
    list store, with the id-based list helpers every component shares. */
module Items {
  import opened Wrappers

  /** A product record. A cart line is the same record spread with a
      `quantity` property; `quantity == None` stands for a record without
      that property or one whose quantity is NaN (both are falsy). Prices are
      non-negative integers in minor units. */
  datatype Item = Item(
    id: int,
    title: string,
    price: nat,
    category: string,
    thumbnail: string,
    quantity: Option<int>)

  /** `list.some(p => p.id === id)` */
  predicate HasId(s: seq<Item>, id: int)
  {
    exists i :: 0 <= i < |s| && s[i].id == id
  }

  /** At most one record per id. */
  predicate UniqueIds(s: seq<Item>)
  {
    forall i, j :: 0 <= i < j < |s| ==> s[i].id != s[j].id
  }

  /** The position of the first record with the id, the one `find` returns. */
  function IndexOf(s: seq<Item>, id: int): (k: nat)
    requires HasId(s, id)
    ensures k < |s| && s[k].id == id
    ensures forall i :: 0 <= i < k ==> s[i].id != id
  {
    if s[0].id == id then 0
    else
      assert HasId(s[1..], id) by {
        var i :| 0 <= i < |s| && s[i].id == id;
        assert s[1..][i - 1].id == id;
      }
      1 + IndexOf(s[1..], id)
  }

  /** `list.find(p => p.id === id)` */
  function Find(s: seq<Item>, id: int): (r: Option<Item>)
    ensures r.Some? <==> HasId(s, id)
    ensures r.Some? ==> r.value == s[IndexOf(s, id)]
  {
    if HasId(s, id) then Some(s[IndexOf(s, id)]) else None
  }

  /** `list.filter(p => p.id !== id)`: every record with the id dropped, the
      others kept in order. */
  function WithoutId(s: seq<Item>, id: int): (r: seq<Item>)
    ensures |r| <= |s|
    ensures forall x :: x in r <==> x in s && x.id != id
  {
    if s == [] then []
    else if s[0].id == id then WithoutId(s[1..], id)
    else [s[0]] + WithoutId(s[1..], id)
  }

  /** Filtering by an id removes that id and nothing else. */
  lemma WithoutIdDrops(s: seq<Item>, id: int)
    ensures !HasId(WithoutId(s, id), id)
  {
  }

  /** Filtering by an id that no record has changes nothing. */
  lemma {:induction false} WithoutAbsentId(s: seq<Item>, id: int)
    requires !HasId(s, id)
    ensures WithoutId(s, id) == s
  {
    if s != [] {
      assert s[0].id != id;
      WithoutAbsentId(s[1..], id);
      assert s == [s[0]] + s[1..];
    }
  }

  /** Filtering keeps ids unique. */
  lemma {:induction false} WithoutIdUnique(s: seq<Item>, id: int)
    requires UniqueIds(s)
    ensures UniqueIds(WithoutId(s, id))
  {
    if s != [] {
      WithoutIdUnique(s[1..], id);
      var rest := WithoutId(s[1..], id);
      forall x | x in rest ensures x.id != s[0].id {
        var j :| 0 <= j < |s[1..]| && s[1..][j] == x;
        assert s[j + 1] == x;
      }
    }
  }

  /** Dropping the head of a list with unique ids keeps them unique, and no
      other record has the head's id. */
  lemma UniqueTail(s: seq<Item>)
    requires UniqueIds(s) && s != []
    ensures UniqueIds(s[1..]) && !HasId(s[1..], s[0].id)
  {
    forall i, j | 0 <= i < j < |s[1..]| ensures s[1..][i].id != s[1..][j].id {
      assert s[1..][i] == s[i + 1] && s[1..][j] == s[j + 1];
    }
    forall i | 0 <= i < |s[1..]| ensures s[1..][i].id != s[0].id {
      assert s[1..][i] == s[i + 1];
    }
  }

  /** In a list with unique ids, filtering out the id at position k removes
      exactly that entry. */
  lemma {:induction false} RemoveUniqueAt(s: seq<Item>, k: nat)
    requires UniqueIds(s) && k < |s|
    ensures WithoutId(s, s[k].id) == s[..k] + s[k + 1..]
  {
    UniqueTail(s);
    if k == 0 {
      WithoutAbsentId(s[1..], s[0].id);
    } else {
      RemoveUniqueAt(s[1..], k - 1);
      assert s[1..][k - 1] == s[k];
      assert s[1..][..k - 1] == s[1..k];
      assert s[1..][k..] == s[k + 1..];
      assert s[..k] == [s[0]] + s[1..k];
    }
  }

  /** `q || 0`: a missing quantity (or NaN, or 0) reads as 0. */
  function OrZero(q: Option<int>): int
  {
    q.GetOr(0)
  }

  /** `q || 1`: a missing quantity, NaN or 0 reads as 1. */
  function OrOne(q: Option<int>): int
  {
    match q
    case Some(n) => if n == 0 then 1 else n
    case None => 1
  }

  /** `q + n` on a quantity; undefined or NaN plus a number is NaN. */
  function Plus(q: Option<int>, n: int): Option<int>
  {
    match q
    case Some(v) => Some(v + n)
    case None => None
  }

  /** A draw of Math.random(): a number in [0, 1). */
  type Unit = r: real | 0.0 <= r < 1.0 witness 0.0
}
