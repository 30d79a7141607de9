/**
 * The transfer table's column configuration: the descriptors, the default set
 * the table starts with, the store that the settings panel overwrites, and the
 * selection of the columns actually displayed (the visible ones, stably sorted
 * by their order rank).
 */
module ColumnConfig {

  /** A column descriptor: the field it shows, its header text, whether it is shown, and its rank. */
  datatype Column = Column(key: string, title: string, visible: bool, order: int)

  /** The keys of the default columns, left to right. */
  const DefaultKeys: seq<string> :=
    ["id", "beneficiaryName", "amount", "currency", "type", "status", "method", "fee"]

  /** The descriptor set the table starts with: eight visible columns ranked 0 to 7. */
  function DefaultColumns(): (r: seq<Column>)
    ensures |r| == |DefaultKeys| == 8
    ensures forall i :: 0 <= i < |r| ==> r[i].key == DefaultKeys[i] && r[i].visible && r[i].order == i
    ensures forall i, j :: 0 <= i < j < |r| ==> r[i].key != r[j].key
  {
    [ Column("id", "Transaction ID", true, 0),
      Column("beneficiaryName", "Beneficiary Name", true, 1),
      Column("amount", "Amount ", true, 2),
      Column("currency", "Currency", true, 3),
      Column("type", "Type", true, 4),
      Column("status", "Status", true, 5),
      Column("method", "Method", true, 6),
      Column("fee", "Fee", true, 7) ]
  }

  /**
   * The table's column state. It starts as the default set and is replaced as a
   * whole whenever the settings panel reports a change; nothing is merged or checked.
   */
  class ColumnStore {
    var columns: seq<Column>

    constructor ()
      ensures columns == DefaultColumns()
    {
      columns := DefaultColumns();
    }

    /** Duplicate keys, gaps in the ranks and hidden columns are all accepted as given. */
    method Replace(newColumns: seq<Column>)
      modifies this
      ensures columns == newColumns
    {
      columns := newColumns;
    }
  }

  // ---------------------------------------------------------------------------
  // Column selection: keep the visible descriptors, then sort them by rank.

  /** The visible descriptors, in their input order. */
  function Visible(cols: seq<Column>): (r: seq<Column>)
    ensures forall c :: c in r ==> c.visible
    ensures forall c {:trigger multiset(r)[c]} :: multiset(r)[c] == if c.visible then multiset(cols)[c] else 0
  {
    if cols == [] then []
    else
      var rest := Visible(cols[1..]);
      assert cols == [cols[0]] + cols[1..];
      if cols[0].visible then [cols[0]] + rest else rest
  }

  /** Ranks never decrease from left to right. */
  predicate SortedByOrder(s: seq<Column>)
  {
    forall i, j :: 0 <= i < j < |s| ==> s[i].order <= s[j].order
  }

  /** The descriptors of rank k, in the order they appear in s. */
  function WithOrder(s: seq<Column>, k: int): seq<Column>
  {
    if s == [] then []
    else if s[0].order == k then [s[0]] + WithOrder(s[1..], k)
    else WithOrder(s[1..], k)
  }

  /** a and b hold the same descriptors of every rank, in the same order within each rank. */
  ghost predicate SameTies(a: seq<Column>, b: seq<Column>)
  {
    forall k :: WithOrder(a, k) == WithOrder(b, k)
  }

  /**
   * Puts c into a sorted sequence in front of the first descriptor whose rank
   * is not smaller, so that c stays ahead of the descriptors it ties with.
   */
  function InsertByOrder(c: Column, s: seq<Column>): (r: seq<Column>)
    requires SortedByOrder(s)
    ensures SortedByOrder(r)
    ensures multiset(r) == multiset(s) + multiset{c}
    ensures |r| == |s| + 1
  {
    if s == [] || c.order <= s[0].order then
      PrependSorted(c, s);
      [c] + s
    else
      var rest := InsertByOrder(c, s[1..]);
      assert s == [s[0]] + s[1..];
      forall x | x in rest ensures s[0].order <= x.order {
        assert x in multiset(rest);
      }
      PrependSorted(s[0], rest);
      [s[0]] + rest
  }

  lemma PrependSorted(x: Column, t: seq<Column>)
    requires SortedByOrder(t)
    requires t == [] || x.order <= t[0].order || forall y :: y in t ==> x.order <= y.order
    ensures SortedByOrder([x] + t)
  {
  }

  /** A stable sort by rank, as the comparator `a.order - b.order` gives with a stable sort. */
  function SortByOrder(s: seq<Column>): (r: seq<Column>)
    ensures SortedByOrder(r)
    ensures multiset(r) == multiset(s)
    ensures |r| == |s|
  {
    if s == [] then []
    else
      assert s == [s[0]] + s[1..];
      InsertByOrder(s[0], SortByOrder(s[1..]))
  }

  /** The columns the header and every body row show, left to right. */
  function DisplayColumns(cols: seq<Column>): (r: seq<Column>)
    ensures SortedByOrder(r)
    ensures forall c {:trigger multiset(r)[c]} :: multiset(r)[c] == if c.visible then multiset(cols)[c] else 0
    ensures |r| == |Visible(cols)|
  {
    SortByOrder(Visible(cols))
  }

  // ---------------------------------------------------------------------------
  // Properties of the selection.

  lemma {:induction false} InsertKeepsTies(c: Column, s: seq<Column>, k: int)
    requires SortedByOrder(s)
    ensures WithOrder(InsertByOrder(c, s), k) == (if c.order == k then [c] else []) + WithOrder(s, k)
  {
    if s == [] || c.order <= s[0].order {
      assert ([c] + s)[1..] == s;
    } else {
      var rest := InsertByOrder(c, s[1..]);
      InsertKeepsTies(c, s[1..], k);
      assert ([s[0]] + rest)[1..] == rest;
    }
  }

  /** Sorting keeps, for every rank, the descriptors of that rank in their input order. */
  lemma {:induction false} SortIsStable(s: seq<Column>, k: int)
    ensures WithOrder(SortByOrder(s), k) == WithOrder(s, k)
  {
    if s != [] {
      SortIsStable(s[1..], k);
      InsertKeepsTies(s[0], SortByOrder(s[1..]), k);
    }
  }

  lemma {:induction false} WithOrderMember(s: seq<Column>, k: int, x: Column)
    requires x in WithOrder(s, k)
    ensures x in s && x.order == k
  {
    if s != [] && !(s[0].order == k && x == s[0]) {
      WithOrderMember(s[1..], k, x);
    }
  }

  lemma {:induction false} WithOrderHead(s: seq<Column>)
    requires s != []
    ensures WithOrder(s, s[0].order) != []
  {
  }

  /**
   * A sorted sequence is fixed by which descriptors it holds at each rank and in
   * what order: two sorted sequences that agree rank by rank are equal.
   */
  lemma {:induction false} SortedAgreeingEqual(a: seq<Column>, b: seq<Column>)
    requires SortedByOrder(a) && SortedByOrder(b)
    requires SameTies(a, b)
    ensures a == b
  {
    if a == [] || b == [] {
      // A non-empty side would have a descriptor of its first rank that the empty side lacks.
      if a != [] {
        WithOrderHead(a);
      } else if b != [] {
        WithOrderHead(b);
      }
    } else {
      var ka, kb := a[0].order, b[0].order;
      WithOrderHead(a);
      WithOrderMember(b, ka, WithOrder(b, ka)[0]);
      WithOrderHead(b);
      WithOrderMember(a, kb, WithOrder(a, kb)[0]);
      assert ka == kb;
      assert a[0] == WithOrder(a, ka)[0] == WithOrder(b, kb)[0] == b[0];
      forall k ensures WithOrder(a[1..], k) == WithOrder(b[1..], k) {
        assert WithOrder(a, k) == WithOrder(b, k);
        if ka == k {
          assert WithOrder(a, k)[1..] == WithOrder(a[1..], k);
          assert WithOrder(b, k)[1..] == WithOrder(b[1..], k);
        }
      }
      SortedAgreeingEqual(a[1..], b[1..]);
      assert a == [a[0]] + a[1..] && b == [b[0]] + b[1..];
    }
  }

  /**
   * SortByOrder is exactly the stable sort by rank: a sequence is its result if and
   * only if it is sorted and keeps every rank's descriptors in their input order.
   */
  lemma StableSortCharacterised(s: seq<Column>, r: seq<Column>)
    ensures r == SortByOrder(s) <==> SortedByOrder(r) && SameTies(r, s)
  {
    var sorted := SortByOrder(s);
    forall k ensures WithOrder(sorted, k) == WithOrder(s, k) {
      SortIsStable(s, k);
    }
    assert SameTies(sorted, s);
    if SortedByOrder(r) && SameTies(r, s) {
      forall k ensures WithOrder(r, k) == WithOrder(sorted, k) {
        assert WithOrder(r, k) == WithOrder(s, k);
      }
      SortedAgreeingEqual(r, sorted);
    }
  }

  /** The filter keeps input order: filtering a concatenation filters each part in turn. */
  lemma {:induction false} VisibleAppend(a: seq<Column>, b: seq<Column>)
    ensures Visible(a + b) == Visible(a) + Visible(b)
  {
    if a == [] {
      assert a + b == b;
    } else {
      var head := if a[0].visible then [a[0]] else [];
      var tail := a[1..];
      assert a + b == [a[0]] + (tail + b);
      VisibleCons(a[0], tail + b);
      VisibleAppend(tail, b);
      assert head + (Visible(tail) + Visible(b)) == (head + Visible(tail)) + Visible(b);
      assert a == [a[0]] + tail;
      VisibleCons(a[0], tail);
    }
  }

  lemma VisibleCons(c: Column, s: seq<Column>)
    ensures Visible([c] + s) == (if c.visible then [c] else []) + Visible(s)
  {
    assert ([c] + s)[1..] == s;
  }

  /** Picking one rank and keeping the visible descriptors can be done in either order. */
  lemma {:induction false} WithOrderVisible(s: seq<Column>, k: int)
    ensures WithOrder(Visible(s), k) == Visible(WithOrder(s, k))
  {
    if s != [] {
      WithOrderVisible(s[1..], k);
      var rest := Visible(s[1..]);
      assert Visible(s) == (if s[0].visible then [s[0]] + rest else rest);
      if s[0].visible {
        assert ([s[0]] + rest)[1..] == rest;
      }
      if s[0].order == k {
        var w := [s[0]] + WithOrder(s[1..], k);
        assert w[0] == s[0] && w[1..] == WithOrder(s[1..], k);
      }
    }
  }

  /**
   * The displayed columns: ranks ascend, exactly the visible descriptors appear
   * (each as often as in the input), and the visible descriptors of each rank
   * appear in the order the configuration lists them.
   */
  lemma DisplayColumnsSpec(cols: seq<Column>)
    ensures SortedByOrder(DisplayColumns(cols))
    ensures forall c :: multiset(DisplayColumns(cols))[c] == if c.visible then multiset(cols)[c] else 0
    ensures SameTies(DisplayColumns(cols), Visible(cols))
    ensures forall k :: WithOrder(DisplayColumns(cols), k) == Visible(WithOrder(cols, k))
  {
    forall k ensures WithOrder(DisplayColumns(cols), k) == WithOrder(Visible(cols), k) == Visible(WithOrder(cols, k)) {
      SortIsStable(Visible(cols), k);
      WithOrderVisible(cols, k);
    }
  }

  lemma {:induction false} VisibleOfAllVisible(cols: seq<Column>)
    requires forall i :: 0 <= i < |cols| ==> cols[i].visible
    ensures Visible(cols) == cols
  {
    if cols != [] {
      VisibleOfAllVisible(cols[1..]);
      assert cols == [cols[0]] + cols[1..];
    }
  }

  /** Sorting an already sorted sequence leaves it as it is. */
  lemma {:induction false} SortOfSorted(s: seq<Column>)
    requires SortedByOrder(s)
    ensures SortByOrder(s) == s
  {
    if s != [] {
      SortOfSorted(s[1..]);
      assert s == [s[0]] + s[1..];
    }
  }

  /** With the default configuration the table shows all eight columns in declaration order. */
  lemma DefaultDisplay()
    ensures DisplayColumns(DefaultColumns()) == DefaultColumns()
  {
    var d := DefaultColumns();
    assert SortedByOrder(d);
    VisibleOfAllVisible(d);
    SortOfSorted(d);
  }
}
