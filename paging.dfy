/** The `/page` handler, `list_things`: a page of generated items. */
module Paging {
  import opened Numerals

  /** `usize` on a 64-bit target. */
  newtype Usize = n: int | 0 <= n < 0x1_0000_0000_0000_0000

  /** The query parameters `page` and `page_size`. */
  datatype Pagination = Pagination(page: Usize, pageSize: Usize)

  /** One listed item: `{id, name}`. */
  datatype SomeData = SomeData(id: Usize, name: string)

  /** `format!("Item {}", id)`. */
  function ItemName(id: nat): string
  {
    "Item " + Decimal(id)
  }

  /** The items `list_things` returns: exactly `page_size` of them, the one at
      index i with id i + 1 and name "Item " followed by i + 1. The ids never
      exceed `page_size`, so `i + 1` cannot overflow `usize`. */
  function ListThings(p: Pagination): (items: seq<SomeData>)
    ensures |items| == p.pageSize as int
    ensures forall i :: 0 <= i < |items| ==> items[i].id as int == i + 1 && items[i].name == ItemName(i + 1)
  {
    seq(p.pageSize as int, i requires 0 <= i < p.pageSize as int => SomeData((i + 1) as Usize, ItemName(i + 1)))
  }

  /** The ids of a list of items, in order. */
  function Ids(items: seq<SomeData>): seq<int>
  {
    seq(|items|, i requires 0 <= i < |items| => items[i].id as int)
  }

  /** The page number is read and logged but has no effect on the items. */
  lemma PageIsIgnored(p: Pagination, q: Pagination)
    requires p.pageSize == q.pageSize
    ensures ListThings(p) == ListThings(q)
  {
  }

  /** The ids run 1, 2, ..., page_size: strictly increasing, every one of them
      present. */
  lemma IdsRunFromOne(p: Pagination)
    ensures forall i, j :: 0 <= i < j < |ListThings(p)| ==> ListThings(p)[i].id < ListThings(p)[j].id
    ensures forall k :: 1 <= k <= p.pageSize as int ==> k in Ids(ListThings(p))
  {
    var items := ListThings(p);
    forall k | 1 <= k <= p.pageSize as int
      ensures k in Ids(items)
    {
      assert Ids(items)[k - 1] == k;
    }
  }

  /** No two items share a name. */
  lemma NamesDistinct(p: Pagination, i: nat, j: nat)
    requires i < j < p.pageSize as int
    ensures ListThings(p)[i].name != ListThings(p)[j].name
  {
    var items := ListThings(p);
    if items[i].name == items[j].name {
      var a, b := Decimal(i + 1), Decimal(j + 1);
      assert a == items[i].name[5..];
      assert b == items[j].name[5..];
      DecimalInjective(i + 1, j + 1);
    }
  }

  /** `GET /page?page=2&page_size=5` lists ids 1 to 5 named "Item 1" to "Item 5". */
  lemma PageTwoOfFive()
    ensures ListThings(Pagination(2, 5)) == [
      SomeData(1, "Item 1"), SomeData(2, "Item 2"), SomeData(3, "Item 3"),
      SomeData(4, "Item 4"), SomeData(5, "Item 5")]
  {
    var items := ListThings(Pagination(2, 5));
    assert Decimal(1) == "1" && Decimal(2) == "2" && Decimal(3) == "3";
    assert Decimal(4) == "4" && Decimal(5) == "5";
    assert items[0] == SomeData(1, "Item 1") && items[1] == SomeData(2, "Item 2");
    assert items[2] == SomeData(3, "Item 3") && items[3] == SomeData(4, "Item 4");
    assert items[4] == SomeData(5, "Item 5");
  }
}
