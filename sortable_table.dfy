/** The reusable sortable table (components/SortableTable.tsx): the
    header-click state machine over `sortKey` and `sortDirection`, and the
    sorted copy of the rows. The German-locale `localeCompare` is a
    parameter: any string comparison whose sign flips with its arguments. */
module SortableTable {
  import opened Wrappers
  import Text

  datatype Direction = Asc | Desc

  /** The pair of state variables. */
  datatype SortState = SortState(sortKey: Option<string>, sortDirection: Option<Direction>)

  const Unsorted: SortState := SortState(None, None)

  /** The two variables are set and cleared together. */
  predicate Consistent(s: SortState) {
    s.sortKey.None? <==> s.sortDirection.None?
  }

  /** `toggleSort`: a new column sorts ascending, the active ascending
      column turns descending, anything else clears the sort. */
  function Toggle(s: SortState, key: string): (r: SortState)
    ensures s.sortKey != Some(key) ==> r == SortState(Some(key), Some(Asc))
    ensures s.sortKey == Some(key) && s.sortDirection == Some(Asc) ==> r == SortState(Some(key), Some(Desc))
    ensures s.sortKey == Some(key) && s.sortDirection != Some(Asc) ==> r == Unsorted
  {
    if s.sortKey != Some(key) then SortState(Some(key), Some(Asc))
    else if s.sortDirection == Some(Asc) then s.(sortDirection := Some(Desc))
    else Unsorted
  }

  /** Three clicks on one column from the unsorted state: ascending,
      descending, unsorted again. */
  lemma ThreeTogglesUnsort(key: string)
    ensures Toggle(Unsorted, key) == SortState(Some(key), Some(Asc))
    ensures Toggle(Toggle(Unsorted, key), key) == SortState(Some(key), Some(Desc))
    ensures Toggle(Toggle(Toggle(Unsorted, key), key), key) == Unsorted
  {
  }

  /** Toggling keeps the two variables consistent, so every state reached
      from the initial one is consistent. */
  lemma ToggleConsistent(s: SortState, key: string)
    requires Consistent(s)
    ensures Consistent(Toggle(s, key))
  {
  }

  /** Toggling a column other than the active one just switches columns:
      the previous column's direction is forgotten. */
  lemma SwitchColumnStartsAscending(s: SortState, a: string, b: string)
    requires a != b
    ensures Toggle(Toggle(s, a), b) == SortState(Some(b), Some(Asc))
  {
  }

  /** The component's state. */
  class Sorter {
    var sortKey: Option<string>
    var sortDirection: Option<Direction>

    function State(): SortState
      reads this
    {
      SortState(sortKey, sortDirection)
    }

    constructor ()
      ensures State() == Unsorted
    {
      sortKey := None;
      sortDirection := None;
    }

    /** `toggleSort` as a state update. */
    method ToggleSort(key: string)
      modifies this
      ensures State() == Toggle(old(State()), key)
      ensures Consistent(old(State())) ==> Consistent(State())
    {
      if sortKey != Some(key) {
        sortKey := Some(key);
        sortDirection := Some(Asc);
      } else if sortDirection == Some(Asc) {
        sortDirection := Some(Desc);
      } else {
        sortKey := None;
        sortDirection := None;
      }
      if Consistent(old(State())) {
        ToggleConsistent(old(State()), key);
      }
    }
  }

  // ---------------------------------------------------------------- sorting

  /** A sort value: `string | number` (integers only). */
  datatype SortValue = Num(n: int) | Str(s: string)

  /** A column: its key and how a row yields its sort value; a column
      without `getSortValue` sorts on the displayed text. */
  datatype Column<!T> = Column(key: string, getSortValue: Option<T -> SortValue>, getValue: T -> string)

  function ValueOf<T>(c: Column<T>, row: T): SortValue {
    if c.getSortValue.Some? then c.getSortValue.value(row) else Str(c.getValue(row))
  }

  function AsString(v: SortValue): string {
    match v
    case Num(n) => Text.IntToString(n)
    case Str(s) => s
  }

  /** The comparator: subtraction for two numbers, otherwise the locale
      comparison of the string forms; descending negates it. */
  function Compare(a: SortValue, b: SortValue, dir: Direction, localeCompare: (string, string) -> int): (r: int)
    ensures a.Num? && b.Num? ==> r == (if dir == Asc then a.n - b.n else b.n - a.n)
    ensures !(a.Num? && b.Num?) ==> r == (if dir == Asc then localeCompare(AsString(a), AsString(b)) else -localeCompare(AsString(a), AsString(b)))
  {
    var comparison := if a.Num? && b.Num? then a.n - b.n else localeCompare(AsString(a), AsString(b));
    if dir == Asc then comparison else -comparison
  }

  /** `columns.find`: the first column with the key. */
  function FindColumn<T>(columns: seq<Column<T>>, key: string): (r: Option<Column<T>>)
    ensures r.None? <==> forall i :: 0 <= i < |columns| ==> columns[i].key != key
    ensures r.Some? ==> exists i :: 0 <= i < |columns| && columns[i] == r.value && r.value.key == key &&
                          forall j :: 0 <= j < i ==> columns[j].key != key
  {
    if |columns| == 0 then None
    else if columns[0].key == key then Some(columns[0])
    else
      var rest := FindColumn(columns[1..], key);
      if rest.Some? then
        ghost var i :| 0 <= i < |columns[1..]| && columns[1..][i] == rest.value && rest.value.key == key &&
                       forall j :: 0 <= j < i ==> columns[1..][j].key != key;
        assert columns[i + 1] == rest.value;
        rest
      else rest
  }

  /** The comparison of two rows under a column and direction. */
  function CompareRows<T>(c: Column<T>, dir: Direction, localeCompare: (string, string) -> int, a: T, b: T): int {
    Compare(ValueOf(c, a), ValueOf(c, b), dir, localeCompare)
  }

  /** Inserts `x` before the first element it does not exceed. */
  function Insert<T>(c: Column<T>, dir: Direction, lc: (string, string) -> int, x: T, s: seq<T>): (r: seq<T>)
    ensures |r| == |s| + 1
    ensures multiset(r) == multiset(s) + multiset{x}
    decreases |s|
  {
    if |s| == 0 || CompareRows(c, dir, lc, x, s[0]) <= 0 then [x] + s
    else assert s == [s[0]] + s[1..]; [s[0]] + Insert(c, dir, lc, x, s[1..])
  }

  /** A stable sort of a copy of the rows (insertion sort; ECMAScript
      requires `Array.prototype.sort` to be stable). */
  function Sort<T>(c: Column<T>, dir: Direction, lc: (string, string) -> int, data: seq<T>): (r: seq<T>)
    ensures |r| == |data|
    ensures multiset(r) == multiset(data)
    decreases |data|
  {
    if |data| == 0 then []
    else assert data == [data[0]] + data[1..]; Insert(c, dir, lc, data[0], Sort(c, dir, lc, data[1..]))
  }

  /** `sortedData`: the rows as given when no sort is active (a missing or
      empty key, or no direction) or no column has the key; otherwise the
      sorted copy. */
  function SortedData<T>(data: seq<T>, columns: seq<Column<T>>, s: SortState, lc: (string, string) -> int): (r: seq<T>)
    ensures s.sortKey.None? || s.sortKey.value == "" || s.sortDirection.None? ==> r == data
    ensures s.sortKey.Some? && FindColumn(columns, s.sortKey.value).None? ==> r == data
    ensures s.sortKey.Some? && s.sortKey.value != "" && s.sortDirection.Some? && FindColumn(columns, s.sortKey.value).Some? ==>
      r == Sort(FindColumn(columns, s.sortKey.value).value, s.sortDirection.value, lc, data)
    ensures |r| == |data|
  {
    if s.sortKey.None? || s.sortKey.value == "" || s.sortDirection.None? then data
    else
      var column := FindColumn(columns, s.sortKey.value);
      if column.None? then data
      else Sort(column.value, s.sortDirection.value, lc, data)
  }

  /** The locale comparison's sign flips when its arguments are swapped. */
  ghost predicate SignFlips(lc: (string, string) -> int) {
    forall a, b :: lc(a, b) > 0 <==> lc(b, a) < 0
  }

  // ---------------------------------------------------------------- properties

  /** `sortedData` is always a permutation of the data. */
  lemma SortedDataPermutes<T>(data: seq<T>, columns: seq<Column<T>>, s: SortState, lc: (string, string) -> int)
    ensures multiset(SortedData(data, columns, s, lc)) == multiset(data)
  {
  }

  /** Neighbours in a sorted sequence are in order. */
  ghost predicate AdjacentOrdered<T>(c: Column<T>, dir: Direction, lc: (string, string) -> int, s: seq<T>) {
    forall i :: 0 <= i < |s| - 1 ==> CompareRows(c, dir, lc, s[i], s[i + 1]) <= 0
  }

  /** Under either direction the row comparison's sign flips too. */
  lemma CompareFlips<T>(c: Column<T>, dir: Direction, lc: (string, string) -> int, a: T, b: T)
    requires SignFlips(lc)
    ensures CompareRows(c, dir, lc, a, b) > 0 ==> CompareRows(c, dir, lc, b, a) <= 0
  {
    var va, vb := ValueOf(c, a), ValueOf(c, b);
    if !(va.Num? && vb.Num?) {
      assert lc(AsString(va), AsString(vb)) > 0 <==> lc(AsString(vb), AsString(va)) < 0;
      assert lc(AsString(vb), AsString(va)) > 0 <==> lc(AsString(va), AsString(vb)) < 0;
    }
  }

  /** `x` compares antisymmetrically with every row of `s`. */
  ghost predicate FlipsWith<T>(c: Column<T>, dir: Direction, lc: (string, string) -> int, x: T, s: seq<T>) {
    forall y :: y in s ==> (CompareRows(c, dir, lc, x, y) > 0 ==> CompareRows(c, dir, lc, y, x) <= 0)
  }

  /** Any two rows of `data` compare antisymmetrically. */
  ghost predicate FlipsOn<T>(c: Column<T>, dir: Direction, lc: (string, string) -> int, data: seq<T>) {
    forall i :: 0 <= i < |data| ==> FlipsWith(c, dir, lc, data[i], data)
  }

  lemma {:induction false} InsertOrdered<T>(c: Column<T>, dir: Direction, lc: (string, string) -> int, x: T, s: seq<T>)
    requires FlipsWith(c, dir, lc, x, s)
    requires AdjacentOrdered(c, dir, lc, s)
    ensures AdjacentOrdered(c, dir, lc, Insert(c, dir, lc, x, s))
    ensures |s| > 0 ==> Insert(c, dir, lc, x, s)[0] == x || Insert(c, dir, lc, x, s)[0] == s[0]
    decreases |s|
  {
    if |s| == 0 || CompareRows(c, dir, lc, x, s[0]) <= 0 {
    } else {
      assert s[0] in s;
      assert forall y :: y in s[1..] ==> y in s;
      InsertOrdered(c, dir, lc, x, s[1..]);
      var t := Insert(c, dir, lc, x, s[1..]);
      assert Insert(c, dir, lc, x, s) == [s[0]] + t;
      if |s| > 1 {
        assert t[0] == x || t[0] == s[1];
      }
    }
  }

  /** The sorted copy is in order whenever its rows compare
      antisymmetrically. */
  lemma {:induction false} SortOrderedOn<T>(c: Column<T>, dir: Direction, lc: (string, string) -> int, data: seq<T>)
    requires FlipsOn(c, dir, lc, data)
    ensures AdjacentOrdered(c, dir, lc, Sort(c, dir, lc, data))
    decreases |data|
  {
    if |data| > 0 {
      var rest := data[1..];
      forall i | 0 <= i < |rest|
        ensures FlipsWith(c, dir, lc, rest[i], rest)
      {
        assert rest[i] == data[i + 1];
        assert forall y :: y in rest ==> y in data;
      }
      SortOrderedOn(c, dir, lc, rest);
      var sorted := Sort(c, dir, lc, rest);
      forall y | y in sorted
        ensures CompareRows(c, dir, lc, data[0], y) > 0 ==> CompareRows(c, dir, lc, y, data[0]) <= 0
      {
        assert y in multiset(sorted);
        assert y in rest;
      }
      InsertOrdered(c, dir, lc, data[0], sorted);
    }
  }

  /** The sorted copy is in order under a comparator whose sign flips. */
  lemma SortOrdered<T>(c: Column<T>, dir: Direction, lc: (string, string) -> int, data: seq<T>)
    requires SignFlips(lc)
    ensures AdjacentOrdered(c, dir, lc, Sort(c, dir, lc, data))
  {
    forall i | 0 <= i < |data|
      ensures FlipsWith(c, dir, lc, data[i], data)
    {
      forall y | y in data
        ensures CompareRows(c, dir, lc, data[i], y) > 0 ==> CompareRows(c, dir, lc, y, data[i]) <= 0
      {
        CompareFlips(c, dir, lc, data[i], y);
      }
    }
    SortOrderedOn(c, dir, lc, data);
  }

  /** With numeric sort values, ascending order is non-decreasing and
      descending order non-increasing. */
  lemma NumericOrder<T>(c: Column<T>, dir: Direction, lc: (string, string) -> int, data: seq<T>)
    requires forall i :: 0 <= i < |data| ==> ValueOf(c, data[i]).Num?
    ensures forall i :: 0 <= i < |data| ==> ValueOf(c, Sort(c, dir, lc, data)[i]).Num?
    ensures dir == Asc ==> forall i :: 0 <= i < |data| - 1 ==>
      ValueOf(c, Sort(c, dir, lc, data)[i]).n <= ValueOf(c, Sort(c, dir, lc, data)[i + 1]).n
    ensures dir == Desc ==> forall i :: 0 <= i < |data| - 1 ==>
      ValueOf(c, Sort(c, dir, lc, data)[i]).n >= ValueOf(c, Sort(c, dir, lc, data)[i + 1]).n
  {
    var r := Sort(c, dir, lc, data);
    forall i | 0 <= i < |data|
      ensures FlipsWith(c, dir, lc, data[i], data)
    {
      forall y | y in data
        ensures CompareRows(c, dir, lc, data[i], y) > 0 ==> CompareRows(c, dir, lc, y, data[i]) <= 0
      {
        var j :| 0 <= j < |data| && data[j] == y;
      }
    }
    SortOrderedOn(c, dir, lc, data);
    forall i | 0 <= i < |r|
      ensures ValueOf(c, r[i]).Num?
    {
      assert r[i] in multiset(r);
      assert r[i] in multiset(data);
      var j :| 0 <= j < |data| && data[j] == r[i];
    }
  }
}
