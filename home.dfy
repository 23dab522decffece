/** The list screen of a vendor (screens/HomeScreen.js): the loaded items,
    the filter by search text and month range, the split into the "vendido"
    and "disponible" tabs with their counts, the per-tab sort and the row
    and export formatting. */
module Home {
  import opened Wrappers
  import opened JsText
  import opened Seqs
  import opened Api

  const Meses: seq<string> := [
    "Enero", "Febrero", "Marzo", "Abril", "Mayo", "Junio", "Julio", "Agosto",
    "Septiembre", "Octubre", "Noviembre", "Diciembre"
  ]

  // =====================================================================
  // Filter

  /** The filter inputs: the search text and the two month pickers, where
      `None` is the pickers' empty selection "" and `Some(k)` the month
      number the picker holds. */
  datatype Criteria = Criteria(searchText: string, startMonth: Option<int>, endMonth: Option<int>)

  /** `item.cliente || ""` */
  function ClienteOrEmpty(item: Record): string {
    item.cliente.GetOr("")
  }

  /** `String(item.numero || '')`: the unpadded number, and the empty string
      for 0, which is falsy. */
  function NumeroSearchText(n: int): string {
    if n == 0 then "" else IntToString(n)
  }

  /** The client, lowered, contains the lowered search text, or the
      unpadded number contains the search text as typed. */
  predicate MatchesSearch(item: Record, text: string) {
    Contains(ToLower(ClienteOrEmpty(item)), ToLower(text))
    || Contains(NumeroSearchText(item.numero), text)
  }

  /** An empty "Desde" stands for 0 and an empty "Hasta" for 12. */
  predicate InMonthRange(item: Record, c: Criteria) {
    c.startMonth.GetOr(0) <= item.cuotasPagadas <= c.endMonth.GetOr(12)
  }

  predicate Matches(item: Record, c: Criteria) {
    MatchesSearch(item, c.searchText) && InMonthRange(item, c)
  }

  /** The records of `r` as list entries. */
  function Somes(r: seq<Record>): (s: seq<Option<Record>>)
    ensures |s| == |r|
  {
    if r == [] then [] else [Some(r[0])] + Somes(r[1..])
  }

  /** `filteredNumeros`: the entries that are objects and match the
      criteria, in list order, each as many times as the list holds it. */
  function FilteredNumeros(numeros: seq<Option<Record>>, c: Criteria): (r: seq<Record>)
    ensures IsSubseq(Somes(r), numeros)
    ensures forall x :: multiset(r)[x] == if Matches(x, c) then multiset(numeros)[Some(x)] else 0
    ensures forall x :: x in r <==> Some(x) in numeros && Matches(x, c)
  {
    if numeros == [] then []
    else
      assert numeros == [numeros[0]] + numeros[1..];
      var rest := FilteredNumeros(numeros[1..], c);
      if numeros[0].Some? && Matches(numeros[0].value, c) then
        var r := [numeros[0].value] + rest;
        assert r[1..] == rest;
        r
      else rest
  }

  /** An empty search text matches every item, whatever its client and
      number. */
  lemma EmptySearchMatchesAll(item: Record)
    ensures MatchesSearch(item, "")
  {
    EmptyContained(ToLower(ClienteOrEmpty(item)));
  }

  /** With no search text and neither month picked, the filter keeps exactly
      the objects whose paid installments lie in 0..12. */
  lemma NoCriteriaKeepsRange(numeros: seq<Option<Record>>)
    ensures forall x :: x in FilteredNumeros(numeros, Criteria("", None, None))
                        <==> Some(x) in numeros && 0 <= x.cuotasPagadas <= 12
  {
    forall x: Record {
      EmptySearchMatchesAll(x);
    }
  }

  // =====================================================================
  // Tabs and counts

  predicate IsVendido(item: Record) {
    ToLower(item.estado) == "vendido"
  }

  predicate IsDisponible(item: Record) {
    ToLower(item.estado) == "disponible"
  }

  /** `vendidos`: the filtered items whose status lowers to "vendido". */
  function Vendidos(filtered: seq<Record>): seq<Record> {
    Filter(IsVendido, filtered)
  }

  /** `disponibles`: the filtered items whose status lowers to "disponible". */
  function Disponibles(filtered: seq<Record>): seq<Record> {
    Filter(IsDisponible, filtered)
  }

  /** `getFilteredCount(estado)`: how many filtered items have that status,
      compared case-insensitively. */
  function FilteredCount(filtered: seq<Record>, estado: string): nat {
    |Filter((x: Record) => HasEstado(estado, x), filtered)|
  }

  predicate HasEstado(estado: string, item: Record) {
    ToLower(item.estado) == ToLower(estado)
  }

  /** The two tabs are order-preserving subsequences of the filtered list
      with no item in both; an item with any other status is in neither;
      when every status is one of the two, the tabs hold each filtered item
      exactly once. */
  lemma TabsPartitionFiltered(filtered: seq<Record>)
    ensures IsSubseq(Vendidos(filtered), filtered) && IsSubseq(Disponibles(filtered), filtered)
    ensures forall x :: x in Vendidos(filtered) <==> x in filtered && IsVendido(x)
    ensures forall x :: x in Disponibles(filtered) <==> x in filtered && IsDisponible(x)
    ensures forall x :: !(x in Vendidos(filtered) && x in Disponibles(filtered))
    ensures |Vendidos(filtered)| + |Disponibles(filtered)| <= |filtered|
    ensures (forall x :: x in filtered ==> IsVendido(x) || IsDisponible(x)) ==>
              |Vendidos(filtered)| + |Disponibles(filtered)| == |filtered| &&
              multiset(Vendidos(filtered)) + multiset(Disponibles(filtered)) == multiset(filtered)
  {
    FilterSplit(IsVendido, IsDisponible, filtered);
    if forall x :: x in filtered ==> IsVendido(x) || IsDisponible(x) {
      FilterPartition(IsVendido, IsDisponible, filtered);
    }
  }

  /** The counts shown above the tabs are the lengths of the two tabs, both
      taken from the filtered list. */
  lemma CountsAreTabLengths(filtered: seq<Record>)
    ensures FilteredCount(filtered, "vendido") == |Vendidos(filtered)|
    ensures FilteredCount(filtered, "disponible") == |Disponibles(filtered)|
  {
    LoweredStatus("vendido");
    LoweredStatus("disponible");
    var pv := (x: Record) => HasEstado("vendido", x);
    var pd := (x: Record) => HasEstado("disponible", x);
    forall x | x in filtered
      ensures pv(x) == IsVendido(x) && pd(x) == IsDisponible(x)
    {
    }
    FilterAgree(pv, IsVendido, filtered);
    FilterAgree(pd, IsDisponible, filtered);
  }

  lemma LoweredStatus(estado: string)
    requires estado == "vendido" || estado == "disponible"
    ensures ToLower(estado) == estado
  {
    assert forall i :: 0 <= i < |estado| ==> !('A' <= estado[i] <= 'Z');
    LowerOfNoCapitals(estado);
  }

  // =====================================================================
  // Sort

  /** The sort state of one tab: the header last chosen and the direction. */
  datatype SortState = SortState(sortBy: string, ascending: bool)

  /** `toggleSort(field)`: the same header flips the direction, another
      header becomes the sort key, ascending. */
  function Toggle(s: SortState, field: string): (r: SortState)
    ensures r.sortBy == field
    ensures s.sortBy == field ==> r.ascending == !s.ascending
    ensures s.sortBy != field ==> r.ascending
  {
    if s.sortBy == field then SortState(field, !s.ascending) else SortState(field, true)
  }

  /** Pressing the current header twice restores the state. */
  lemma ToggleTwice(s: SortState)
    ensures Toggle(Toggle(s, s.sortBy), s.sortBy) == s
  {
  }

  /** The comparator of `sortedData`: numeric on "numero" and "cuotas",
      string comparison of the clients (absent as "") on "nombre", with the
      arguments swapped when descending, and 0 for any other key. */
  function Compare(sortBy: string, ascending: bool, a: Record, b: Record): int {
    if sortBy == "numero" then
      (if ascending then a.numero - b.numero else b.numero - a.numero)
    else if sortBy == "nombre" then
      (if ascending then CompareStrings(ClienteOrEmpty(a), ClienteOrEmpty(b))
       else CompareStrings(ClienteOrEmpty(b), ClienteOrEmpty(a)))
    else if sortBy == "cuotas" then
      (if ascending then a.cuotasPagadas - b.cuotasPagadas else b.cuotasPagadas - a.cuotasPagadas)
    else 0
  }

  /** Descending order is ascending order with the arguments swapped. */
  lemma DescendingSwapsArguments(sortBy: string, a: Record, b: Record)
    ensures Compare(sortBy, false, a, b) == Compare(sortBy, true, b, a)
  {
  }

  lemma CompareAntisymmetric(sortBy: string, ascending: bool, a: Record, b: Record)
    ensures Compare(sortBy, ascending, a, b) < 0 <==> Compare(sortBy, ascending, b, a) > 0
    ensures Compare(sortBy, ascending, a, b) == 0 <==> Compare(sortBy, ascending, b, a) == 0
  {
    CompareStringsAntisymmetric(ClienteOrEmpty(a), ClienteOrEmpty(b));
  }

  lemma CompareTransitive(sortBy: string, ascending: bool, a: Record, b: Record, c: Record)
    requires Compare(sortBy, ascending, a, b) <= 0 && Compare(sortBy, ascending, b, c) <= 0
    ensures Compare(sortBy, ascending, a, c) <= 0
  {
    if sortBy == "nombre" {
      if ascending {
        CompareStringsTransitive(ClienteOrEmpty(a), ClienteOrEmpty(b), ClienteOrEmpty(c));
      } else {
        CompareStringsTransitive(ClienteOrEmpty(c), ClienteOrEmpty(b), ClienteOrEmpty(a));
      }
    }
  }

  /** No pair of items is out of order under the comparator. */
  ghost predicate Sorted(sortBy: string, ascending: bool, s: seq<Record>) {
    forall i, j :: 0 <= i < j < |s| ==> Compare(sortBy, ascending, s[i], s[j]) <= 0
  }

  /** `x` placed after every element that does not compare greater, so
      that it follows the equal elements already there. */
  function Insert(sortBy: string, ascending: bool, x: Record, s: seq<Record>): (r: seq<Record>)
    ensures multiset(r) == multiset(s) + multiset{x}
  {
    if s == [] then [x]
    else if Compare(sortBy, ascending, x, s[0]) < 0 then [x] + s
    else
      assert s == [s[0]] + s[1..];
      [s[0]] + Insert(sortBy, ascending, x, s[1..])
  }

  lemma {:induction false} InsertSorted(sortBy: string, ascending: bool, x: Record, s: seq<Record>)
    requires Sorted(sortBy, ascending, s)
    ensures Sorted(sortBy, ascending, Insert(sortBy, ascending, x, s))
  {
    var r := Insert(sortBy, ascending, x, s);
    if s == [] {
    } else if Compare(sortBy, ascending, x, s[0]) < 0 {
      forall j | 0 < j < |r|
        ensures Compare(sortBy, ascending, x, r[j]) <= 0
      {
        if j > 1 {
          CompareTransitive(sortBy, ascending, x, s[0], s[j - 1]);
        }
      }
    } else {
      var tail := Insert(sortBy, ascending, x, s[1..]);
      InsertSorted(sortBy, ascending, x, s[1..]);
      CompareAntisymmetric(sortBy, ascending, x, s[0]);
      forall j | 0 <= j < |tail|
        ensures Compare(sortBy, ascending, s[0], tail[j]) <= 0
      {
        assert tail[j] in multiset(tail);
        assert tail[j] == x || tail[j] in s[1..];
      }
      assert r == [s[0]] + tail;
    }
  }

  /** `sortedData`: the list sorted on a copy by the comparator, keeping
      the input order of items that compare equal. The result is a
      permutation of the input and in order. */
  function SortedData(sortBy: string, ascending: bool, s: seq<Record>): (r: seq<Record>)
    ensures multiset(r) == multiset(s)
    ensures Sorted(sortBy, ascending, r)
  {
    if s == [] then []
    else
      var init := SortedData(sortBy, ascending, s[..|s| - 1]);
      InsertSorted(sortBy, ascending, s[|s| - 1], init);
      assert s == s[..|s| - 1] + [s[|s| - 1]];
      Insert(sortBy, ascending, s[|s| - 1], init)
  }

  /** A key other than the three headers compares everything equal, and the
      list keeps its order. */
  lemma {:induction false} UnknownKeyKeepsOrder(sortBy: string, ascending: bool, s: seq<Record>)
    requires sortBy != "numero" && sortBy != "nombre" && sortBy != "cuotas"
    ensures SortedData(sortBy, ascending, s) == s
  {
    if s != [] {
      LastSplit(s);
      UnknownKeyKeepsOrder(sortBy, ascending, s[..|s| - 1]);
      InsertAtEnd(sortBy, ascending, s[|s| - 1], s[..|s| - 1]);
    }
  }

  lemma {:induction false} InsertAtEnd(sortBy: string, ascending: bool, x: Record, s: seq<Record>)
    requires sortBy != "numero" && sortBy != "nombre" && sortBy != "cuotas"
    ensures Insert(sortBy, ascending, x, s) == s + [x]
  {
    if s != [] {
      assert Compare(sortBy, ascending, x, s[0]) == 0;
      assert Insert(sortBy, ascending, x, s) == [s[0]] + Insert(sortBy, ascending, x, s[1..]);
      InsertAtEnd(sortBy, ascending, x, s[1..]);
      FirstSplit(s, x);
    }
  }

  /** The items of `s` that compare equal to `y`, in their order in `s`. */
  function Ties(sortBy: string, ascending: bool, y: Record, s: seq<Record>): seq<Record> {
    if s == [] then []
    else (if Compare(sortBy, ascending, y, s[0]) == 0 then [s[0]] else []) + Ties(sortBy, ascending, y, s[1..])
  }

  lemma {:induction false} NoTies(sortBy: string, ascending: bool, y: Record, t: seq<Record>)
    requires forall e :: e in t ==> Compare(sortBy, ascending, y, e) != 0
    ensures Ties(sortBy, ascending, y, t) == []
  {
    if t != [] {
      assert t[0] in t;
      NoTies(sortBy, ascending, y, t[1..]);
    }
  }

  lemma TiesCons(sortBy: string, ascending: bool, y: Record, a: Record, t: seq<Record>)
    ensures Ties(sortBy, ascending, y, [a] + t)
            == (if Compare(sortBy, ascending, y, a) == 0 then [a] else []) + Ties(sortBy, ascending, y, t)
  {
    assert ([a] + t)[0] == a && ([a] + t)[1..] == t;
  }

  lemma {:induction false} TiesAppend(sortBy: string, ascending: bool, y: Record, a: seq<Record>, b: seq<Record>)
    ensures Ties(sortBy, ascending, y, a + b) == Ties(sortBy, ascending, y, a) + Ties(sortBy, ascending, y, b)
  {
    if a == [] {
      assert a + b == b;
    } else {
      assert a + b == [a[0]] + (a[1..] + b) && a == [a[0]] + a[1..];
      TiesCons(sortBy, ascending, y, a[0], a[1..] + b);
      TiesCons(sortBy, ascending, y, a[0], a[1..]);
      TiesAppend(sortBy, ascending, y, a[1..], b);
    }
  }

  lemma SortedTail(sortBy: string, ascending: bool, t: seq<Record>)
    requires Sorted(sortBy, ascending, t) && t != []
    ensures Sorted(sortBy, ascending, t[1..])
  {
    forall i, j | 0 <= i < j < |t| - 1
      ensures Compare(sortBy, ascending, t[1..][i], t[1..][j]) <= 0
    {
      assert t[1..][i] == t[i + 1] && t[1..][j] == t[j + 1];
    }
  }

  /** When `x` goes in front of a sorted `t`, nothing in `t` ties with an
      item `x` ties with. */
  lemma NoTiesAfterSmaller(sortBy: string, ascending: bool, y: Record, x: Record, t: seq<Record>)
    requires Sorted(sortBy, ascending, t) && t != []
    requires Compare(sortBy, ascending, x, t[0]) < 0 && Compare(sortBy, ascending, y, x) == 0
    ensures Ties(sortBy, ascending, y, t) == []
  {
    forall e | e in t
      ensures Compare(sortBy, ascending, y, e) != 0
    {
      var j :| 0 <= j < |t| && t[j] == e;
      if Compare(sortBy, ascending, y, e) == 0 {
        CompareAntisymmetric(sortBy, ascending, y, e);
        CompareTransitive(sortBy, ascending, e, y, x);
        if j > 0 {
          CompareTransitive(sortBy, ascending, t[0], e, x);
        }
        CompareAntisymmetric(sortBy, ascending, x, t[0]);
        assert false;
      }
    }
    NoTies(sortBy, ascending, y, t);
  }

  lemma TiesSingle(sortBy: string, ascending: bool, y: Record, x: Record)
    ensures Ties(sortBy, ascending, y, [x]) == if Compare(sortBy, ascending, y, x) == 0 then [x] else []
  {
    TiesCons(sortBy, ascending, y, x, []);
    assert [x] + [] == [x];
  }

  /** When `x` goes in front, it follows none of the items it ties with. */
  lemma InsertFrontKeepsTies(sortBy: string, ascending: bool, y: Record, x: Record, t: seq<Record>)
    requires Sorted(sortBy, ascending, t) && t != []
    requires Compare(sortBy, ascending, x, t[0]) < 0
    ensures Ties(sortBy, ascending, y, [x] + t)
            == Ties(sortBy, ascending, y, t) + Ties(sortBy, ascending, y, [x])
  {
    TiesSingle(sortBy, ascending, y, x);
    TiesCons(sortBy, ascending, y, x, t);
    if Compare(sortBy, ascending, y, x) == 0 {
      NoTiesAfterSmaller(sortBy, ascending, y, x, t);
    }
  }

  /** When `x` goes after the first item, the first item keeps its place. */
  lemma InsertLaterKeepsTies(sortBy: string, ascending: bool, y: Record, x: Record, t: seq<Record>, tail: seq<Record>)
    requires t != []
    requires Ties(sortBy, ascending, y, tail)
             == Ties(sortBy, ascending, y, t[1..]) + Ties(sortBy, ascending, y, [x])
    ensures Ties(sortBy, ascending, y, [t[0]] + tail)
            == Ties(sortBy, ascending, y, t) + Ties(sortBy, ascending, y, [x])
  {
    var head := if Compare(sortBy, ascending, y, t[0]) == 0 then [t[0]] else [];
    var rest, last := Ties(sortBy, ascending, y, t[1..]), Ties(sortBy, ascending, y, [x]);
    TiesCons(sortBy, ascending, y, t[0], tail);
    assert Ties(sortBy, ascending, y, t) == head + rest;
    ConcatAssoc(head, rest, last);
  }

  /** Inserting `x` into a sorted list puts it after every item it ties
      with. */
  lemma {:induction false} InsertKeepsTies(sortBy: string, ascending: bool, y: Record, x: Record, t: seq<Record>)
    requires Sorted(sortBy, ascending, t)
    ensures Ties(sortBy, ascending, y, Insert(sortBy, ascending, x, t))
            == Ties(sortBy, ascending, y, t) + Ties(sortBy, ascending, y, [x])
  {
    if t == [] {
      assert Insert(sortBy, ascending, x, t) == [x];
    } else if Compare(sortBy, ascending, x, t[0]) < 0 {
      assert Insert(sortBy, ascending, x, t) == [x] + t;
      InsertFrontKeepsTies(sortBy, ascending, y, x, t);
    } else {
      var tail := Insert(sortBy, ascending, x, t[1..]);
      assert Insert(sortBy, ascending, x, t) == [t[0]] + tail;
      SortedTail(sortBy, ascending, t);
      InsertKeepsTies(sortBy, ascending, y, x, t[1..]);
      InsertLaterKeepsTies(sortBy, ascending, y, x, t, tail);
    }
  }

  lemma ConcatAssoc(a: seq<Record>, b: seq<Record>, c: seq<Record>)
    ensures a + (b + c) == (a + b) + c
  {
  }

  lemma FirstSplit(s: seq<Record>, x: Record)
    requires s != []
    ensures s + [x] == [s[0]] + (s[1..] + [x])
  {
  }

  lemma LastSplit(s: seq<Record>)
    requires s != []
    ensures s == s[..|s| - 1] + [s[|s| - 1]]
  {
  }

  /** `sortedData` is stable: for every item `y`, the items that compare
      equal to `y` come out in the order they went in. */
  lemma {:induction false} SortedDataStable(sortBy: string, ascending: bool, y: Record, s: seq<Record>)
    ensures Ties(sortBy, ascending, y, SortedData(sortBy, ascending, s)) == Ties(sortBy, ascending, y, s)
  {
    if s != [] {
      var init, x := s[..|s| - 1], s[|s| - 1];
      LastSplit(s);
      TiesAppend(sortBy, ascending, y, init, [x]);
      var sortedInit := SortedData(sortBy, ascending, init);
      assert SortedData(sortBy, ascending, s) == Insert(sortBy, ascending, x, sortedInit);
      SortedDataStable(sortBy, ascending, y, init);
      InsertKeepsTies(sortBy, ascending, y, x, sortedInit);
    }
  }

  /** No two items of `m` share a key, and no item is there twice. */
  ghost predicate KeysDistinct(sortBy: string, m: multiset<Record>) {
    && (forall x :: m[x] <= 1)
    && (forall x, y :: x in m && y in m && x != y ==> Compare(sortBy, true, x, y) != 0)
  }

  ghost predicate StrictlySorted(sortBy: string, ascending: bool, s: seq<Record>) {
    forall i, j :: 0 <= i < j < |s| ==> Compare(sortBy, ascending, s[i], s[j]) < 0
  }

  lemma TwoPositionsCountTwice(s: seq<Record>, i: int, j: int)
    requires 0 <= i < j < |s|
    ensures s[i] == s[j] ==> multiset(s)[s[i]] >= 2
  {
    assert s == s[..j] + s[j..];
    assert s[i] in s[..j] && s[j] in s[j..];
  }

  lemma SortedDistinctIsStrict(sortBy: string, ascending: bool, s: seq<Record>)
    requires Sorted(sortBy, ascending, s) && KeysDistinct(sortBy, multiset(s))
    ensures StrictlySorted(sortBy, ascending, s)
  {
    forall i, j | 0 <= i < j < |s|
      ensures Compare(sortBy, ascending, s[i], s[j]) < 0
    {
      TwoPositionsCountTwice(s, i, j);
      assert s[i] in multiset(s) && s[j] in multiset(s);
      CompareAntisymmetric(sortBy, true, s[i], s[j]);
    }
  }

  /** Two strictly ordered arrangements of the same items are the same. */
  lemma {:induction false} StrictlySortedUnique(sortBy: string, ascending: bool, t: seq<Record>, u: seq<Record>)
    requires StrictlySorted(sortBy, ascending, t) && StrictlySorted(sortBy, ascending, u)
    requires multiset(t) == multiset(u)
    ensures t == u
    decreases |t|
  {
    if t == [] {
      assert |u| == |multiset(u)| == 0;
    } else {
      SameFirst(sortBy, ascending, t, u);
      SameTailItems(t, u);
      StrictlySortedTail(sortBy, ascending, t);
      StrictlySortedTail(sortBy, ascending, u);
      StrictlySortedUnique(sortBy, ascending, t[1..], u[1..]);
      assert t == [t[0]] + t[1..] && u == [u[0]] + u[1..];
    }
  }

  lemma SameTailItems(t: seq<Record>, u: seq<Record>)
    requires multiset(t) == multiset(u) && t != [] && u != [] && t[0] == u[0]
    ensures multiset(t[1..]) == multiset(u[1..])
  {
    assert t == [t[0]] + t[1..] && u == [u[0]] + u[1..];
    assert multiset(t[1..]) == multiset(t) - multiset{t[0]};
    assert multiset(u[1..]) == multiset(u) - multiset{t[0]};
  }

  lemma StrictlySortedTail(sortBy: string, ascending: bool, t: seq<Record>)
    requires StrictlySorted(sortBy, ascending, t) && t != []
    ensures StrictlySorted(sortBy, ascending, t[1..])
  {
    forall i, j | 0 <= i < j < |t| - 1
      ensures Compare(sortBy, ascending, t[1..][i], t[1..][j]) < 0
    {
      assert t[1..][i] == t[i + 1] && t[1..][j] == t[j + 1];
    }
  }

  /** Two strictly ordered arrangements of the same items start alike. */
  lemma SameFirst(sortBy: string, ascending: bool, t: seq<Record>, u: seq<Record>)
    requires StrictlySorted(sortBy, ascending, t) && StrictlySorted(sortBy, ascending, u)
    requires multiset(t) == multiset(u) && t != []
    ensures u != [] && t[0] == u[0]
  {
    assert |u| == |multiset(u)| == |t|;
    assert t[0] in multiset(u) && u[0] in multiset(t);
    var k :| 0 <= k < |u| && u[k] == t[0];
    var m :| 0 <= m < |t| && t[m] == u[0];
    CompareAntisymmetric(sortBy, ascending, t[0], u[0]);
  }

  /** With distinct keys, the descending list is the ascending one reversed. */
  lemma SortDescendingIsReverse(sortBy: string, s: seq<Record>)
    requires KeysDistinct(sortBy, multiset(s))
    ensures SortedData(sortBy, false, s) == Reverse(SortedData(sortBy, true, s))
  {
    var up := SortedData(sortBy, true, s);
    var down := SortedData(sortBy, false, s);
    SortedDistinctIsStrict(sortBy, true, up);
    SortedDistinctIsStrict(sortBy, false, down);
    ReverseFlipsOrder(sortBy, up);
    StrictlySortedUnique(sortBy, false, down, Reverse(up));
  }

  lemma ReverseFlipsOrder(sortBy: string, up: seq<Record>)
    requires StrictlySorted(sortBy, true, up)
    ensures StrictlySorted(sortBy, false, Reverse(up))
  {
    var rev := Reverse(up);
    forall i, j | 0 <= i < j < |rev|
      ensures Compare(sortBy, false, rev[i], rev[j]) < 0
    {
      assert rev[i] == up[|up| - 1 - i] && rev[j] == up[|up| - 1 - j];
    }
  }

  // =====================================================================
  // Row and export formatting

  /** `String(item.numero || 0).padStart(5, "0")` */
  function FormatNumero(n: int): (r: string)
    ensures 0 <= n < 100000 ==> |r| == 5 && AllDigits(r) && DigitsValue(r) == n
    ensures n >= 100000 ==> r == NatToString(n)
  {
    var s := IntToString(n);
    var r := PadStartZeros(s, 5);
    assert Pow10(5) == 100000;
    if 0 <= n < 100000 then
      NatToStringLength(n, 5);
      assert r == Repeat('0', |r| - |s|) + s;
      LeadingZerosValue(|r| - |s|, s);
      r
    else if n >= 100000 then
      NatToStringLong(n, 5);
      r
    else r
  }

  /** `item.cliente || "Sin asignar"`: a row never shows an empty client. */
  function FormatCliente(cliente: Option<string>): (r: string)
    ensures r != ""
    ensures cliente.Some? && cliente.value != "" ==> r == cliente.value
    ensures cliente.None? || cliente.value == "" ==> r == "Sin asignar"
  {
    if cliente.Some? && cliente.value != "" then cliente.value else "Sin asignar"
  }

  /** `item.cuotas_pagadas ? meses[c - 1] : "Ninguna"` as a row shows it:
      `None` stands for `undefined`, which renders as nothing. */
  function MesDeCuotas(c: int): (r: Option<string>)
    ensures 1 <= c <= 12 ==> r == Some(Meses[c - 1])
    ensures c == 0 ==> r == Some("Ninguna")
    ensures r.None? <==> c < 0 || c > 12
  {
    if c != 0 then (if 1 <= c <= 12 then Some(Meses[c - 1]) else None) else Some("Ninguna")
  }

  /** The text shown for the installments tells how many were paid. */
  lemma MesDeCuotasInjective(a: int, b: int)
    requires MesDeCuotas(a).Some? && MesDeCuotas(a) == MesDeCuotas(b)
    ensures a == b
  {
  }

  /** One line of the export: `guardarBingosVendidos` builds one per sold
      item. */
  datatype PersonaInfo = PersonaInfo(numero: string, nombre: string, cuota: string)

  /** `meses[c - 1] || "Ninguna"`: every count outside 1..12 reads "Ninguna". */
  function CuotaExportada(c: int): string {
    if 1 <= c <= 12 then Meses[c - 1] else "Ninguna"
  }

  function PersonaDe(item: Record): PersonaInfo {
    PersonaInfo(FormatNumero(item.numero), FormatCliente(item.cliente), CuotaExportada(item.cuotasPagadas))
  }

  /** `guardarBingosVendidos`: one line per item of the "vendido" tab of the
      filtered list, in that order. */
  function PersonasAsignadas(filtered: seq<Record>): (r: seq<PersonaInfo>)
    ensures |r| == |Vendidos(filtered)|
    ensures forall i :: 0 <= i < |r| ==> r[i] == PersonaDe(Vendidos(filtered)[i])
  {
    var v := Vendidos(filtered);
    seq(|v|, i requires 0 <= i < |v| => PersonaDe(v[i]))
  }

  /** An export line agrees with the row of the same item, except that a
      count outside 0..12, which the row leaves blank, reads "Ninguna". */
  lemma ExportAgreesWithRow(item: Record)
    ensures PersonaDe(item).numero == FormatNumero(item.numero)
    ensures PersonaDe(item).nombre == FormatCliente(item.cliente)
    ensures MesDeCuotas(item.cuotasPagadas).Some? ==> PersonaDe(item).cuota == MesDeCuotas(item.cuotasPagadas).value
    ensures MesDeCuotas(item.cuotasPagadas).None? ==> PersonaDe(item).cuota == "Ninguna"
  {
    var c := item.cuotasPagadas;
    if 1 <= c <= 12 {
      assert MesDeCuotas(c) == Some(Meses[c - 1]) && CuotaExportada(c) == Meses[c - 1];
    } else if c == 0 {
      assert MesDeCuotas(c) == Some("Ninguna") && CuotaExportada(c) == "Ninguna";
    } else {
      assert MesDeCuotas(c).None? && CuotaExportada(c) == "Ninguna";
    }
  }

  // =====================================================================
  // Screen state

  /** One tab's list (`ListaNumeros`) and its sort header state. */
  class ListaNumeros {
    var sortBy: string
    var ascending: bool

    constructor ()
      ensures sortBy == "numero" && ascending
    {
      sortBy := "numero";
      ascending := true;
    }

    /** `toggleSort(field)` */
    method ToggleSort(field: string)
      modifies this
      ensures SortState(sortBy, ascending) == Toggle(old(SortState(sortBy, ascending)), field)
    {
      if sortBy == field {
        ascending := !ascending;
      } else {
        sortBy := field;
        ascending := true;
      }
    }

    /** The rows as displayed: a sorted copy of the tab's items. */
    function Rows(numeros: seq<Record>): (r: seq<Record>)
      reads this
      ensures multiset(r) == multiset(numeros)
      ensures Sorted(sortBy, ascending, r)
    {
      SortedData(sortBy, ascending, numeros)
    }
  }

  /** The screen's own state: the vendor, the loaded list, the loading flag,
      the filter inputs and the export lines last computed. */
  class HomeScreen {
    const idVendedor: int
    var numeros: seq<Option<Record>>
    var loading: bool
    var criteria: Criteria
    var personasAsignadas: seq<PersonaInfo>
    var exportar: bool

    constructor (idVendedor: int)
      ensures this.idVendedor == idVendedor
      ensures numeros == [] && loading && criteria == Criteria("", None, None)
      ensures personasAsignadas == [] && !exportar
    {
      this.idVendedor := idVendedor;
      numeros := [];
      loading := true;
      criteria := Criteria("", None, None);
      personasAsignadas := [];
      exportar := false;
    }

    /** `fetchNumeros` with the backend's reply, followed by the effect that
        watches the list: the list becomes the reply's `numeros`, or empty
        when the reply has none (the fallback reply of a failed request
        included), and the export lines are recomputed from the new list
        under the current filter, which is untouched. */
    method FetchNumeros(reply: Response) returns (request: Request)
      modifies this
      ensures request == ObtenerNumeros(idVendedor)
      ensures numeros == reply.numeros.GetOr([])
      ensures !loading && criteria == old(criteria)
      ensures personasAsignadas == PersonasAsignadas(FilteredNumeros(numeros, criteria))
      ensures exportar == old(exportar)
    {
      loading := true;
      request := ObtenerNumeros(idVendedor);
      numeros := reply.numeros.GetOr([]);
      loading := false;
      GuardarBingosVendidos();
    }

    /** `guardarBingosVendidos`: the export lines are rebuilt from the list
        under the current filter; nothing else changes. */
    method GuardarBingosVendidos()
      modifies this
      ensures personasAsignadas == PersonasAsignadas(FilteredNumeros(numeros, criteria))
      ensures numeros == old(numeros) && criteria == old(criteria)
      ensures loading == old(loading) && exportar == old(exportar)
    {
      personasAsignadas := PersonasAsignadas(FilteredNumeros(numeros, criteria));
    }

    /** Typing in the search box or picking a month. The export lines are
        not touched here: the effect that watches the list leaves them
        under the filter they were computed with, and `HandleExportar`
        recomputes them before every export. */
    method SetCriteria(c: Criteria)
      modifies this
      ensures criteria == c
      ensures numeros == old(numeros) && loading == old(loading)
      ensures personasAsignadas == old(personasAsignadas) && exportar == old(exportar)
    {
      criteria := c;
    }

    /** The "Exportar a PDF" button: the export lines are recomputed from
        the list under the current filter, which by `CountsShowTabs` makes
        them as many as the "Vendidos" label counts, and the export flag is
        raised. */
    method HandleExportar()
      modifies this
      ensures personasAsignadas == PersonasAsignadas(FilteredNumeros(numeros, criteria))
      ensures exportar
      ensures numeros == old(numeros) && criteria == old(criteria) && loading == old(loading)
    {
      GuardarBingosVendidos();
      exportar := true;
    }

    function Filtered(): seq<Record>
      reads this
    {
      FilteredNumeros(numeros, criteria)
    }

    /** The "Vendidos: n" and "Disponibles: n" labels. */
    function Counts(): (nat, nat)
      reads this
    {
      (FilteredCount(Filtered(), "vendido"), FilteredCount(Filtered(), "disponible"))
    }
  }

  /** The labels count the two tabs of the filtered list, not the whole
      list, and the export has one line per item the "Vendidos" label
      counts. */
  lemma CountsShowTabs(h: HomeScreen)
    ensures h.Counts().0 == |Vendidos(h.Filtered())|
    ensures h.Counts().1 == |Disponibles(h.Filtered())|
    ensures h.Counts().0 + h.Counts().1 <= |h.Filtered()|
    ensures |PersonasAsignadas(h.Filtered())| == h.Counts().0
  {
    CountsAreTabLengths(h.Filtered());
    TabsPartitionFiltered(h.Filtered());
  }
}
