/**
 * The file browser's view-model: the sort mode and direction chosen from
 * the "Sort" menu, and the list of files ordered by the comparator built
 * from them.
 */
module FileGrid {
  import opened Common
  import opened Text

  datatype FileType = Tax | Spreadsheet | Document | Folder
  datatype ViewMode = Grid | List
  datatype SortMode = ByName | ByDate | ByType | ByClient
  datatype SortDirection = Asc | Desc

  /** A file card. `date` stands for `Date.getTime()`; `size` is optional
      and `starred` defaults to false. */
  datatype FileItem = FileItem(name: string, fileType: FileType, client: string, date: int,
                               size: Option<string>, starred: bool)

  /** The string literal of a file type, which is what the type sort compares. */
  function TypeName(t: FileType): (name: string)
    ensures |name| >= 3 && forall i :: 0 <= i < |name| ==> 'a' <= name[i] <= 'z'
  {
    match t
    case Tax => "tax"
    case Spreadsheet => "spreadsheet"
    case Document => "document"
    case Folder => "folder"
  }

  /** A calendar day as an increasing number (`new Date(year, monthIndex, day)`). */
  function Day(year: int, monthIndex: int, day: int): int
  {
    (year * 12 + monthIndex) * 31 + day
  }

  /** The eight demo files, in the order the component declares them;
      only the two folders have no size. */
  function MockFiles(): (r: seq<FileItem>)
    ensures |r| == 8
    ensures forall i :: 0 <= i < |r| ==> (r[i].size.None? <==> r[i].fileType == Folder)
  {
    [ FileItem("Tax Return 2023", Tax, "Johnson LLC", Day(2023, 8, 10), Some("1.2 MB"), true),
      FileItem("Monthly P&L", Spreadsheet, "Smith Enterprises", Day(2023, 8, 8), Some("856 KB"), false),
      FileItem("Client Documents", Folder, "Acme Corp", Day(2023, 8, 7), None, false),
      FileItem("Quarterly Report", Document, "Acme Corp", Day(2023, 8, 5), Some("3.1 MB"), false),
      FileItem("Expense Receipts", Document, "TechStart Inc", Day(2023, 8, 3), Some("4.2 MB"), false),
      FileItem("Payroll Summary", Spreadsheet, "Johnson LLC", Day(2023, 8, 1), Some("1.5 MB"), false),
      FileItem("Tax Forms", Folder, "Various", Day(2023, 7, 28), None, false),
      FileItem("Financial Statement", Document, "Smith Enterprises", Day(2023, 7, 25), Some("2.3 MB"), true) ]
  }

  /** The `switch (sortMode)` part of the comparator. The date key is
      `b - a`, so on its own it puts later dates first. */
  function KeyCompare(mode: SortMode, a: FileItem, b: FileItem): (r: int)
    ensures mode == ByDate ==> (r < 0 <==> a.date > b.date) && (r == 0 <==> a.date == b.date)
    ensures mode != ByDate ==> -1 <= r <= 1 && (r == 0 <==> SortKey(mode, a) == SortKey(mode, b))
  {
    match mode
    case ByName => LexCompare(a.name, b.name)
    case ByDate => b.date - a.date
    case ByType => LexCompare(TypeName(a.fileType), TypeName(b.fileType))
    case ByClient => LexCompare(a.client, b.client)
  }

  /** Swapping the two files negates the key comparison. */
  lemma KeyCompareAntisymmetric(mode: SortMode, a: FileItem, b: FileItem)
    ensures KeyCompare(mode, b, a) == -KeyCompare(mode, a, b)
  {
    match mode
    case ByName => LexCompareAntisymmetric(a.name, b.name);
    case ByDate =>
    case ByType => LexCompareAntisymmetric(TypeName(a.fileType), TypeName(b.fileType));
    case ByClient => LexCompareAntisymmetric(a.client, b.client);
  }

  /** The comparator handed to `sort`: the key comparison, negated for
      `desc`. Under `desc`, `a` goes first exactly when it would go second
      under `asc`; the direction neither makes nor breaks ties. */
  function Compare(mode: SortMode, dir: SortDirection, a: FileItem, b: FileItem): (r: int)
    ensures dir == Asc ==> r == KeyCompare(mode, a, b)
    ensures dir == Desc ==> r == KeyCompare(mode, b, a)
    ensures r == 0 <==> KeyCompare(mode, a, b) == 0
  {
    if dir == Asc then KeyCompare(mode, a, b)
    else
      KeyCompareAntisymmetric(mode, a, b);
      -KeyCompare(mode, a, b)
  }

  lemma CompareAntisymmetric(mode: SortMode, dir: SortDirection, a: FileItem, b: FileItem)
    ensures Compare(mode, dir, b, a) == -Compare(mode, dir, a, b)
  {
    KeyCompareAntisymmetric(mode, a, b);
  }

  /** The type sort's order: documents, folders, spreadsheets, then tax files. */
  function TypeRank(t: FileType): nat
  {
    match t
    case Document => 0
    case Folder => 1
    case Spreadsheet => 2
    case Tax => 3
  }

  /** Ascending by type puts `s` before `t` exactly when its rank is lower. */
  lemma TypeOrder(s: FileType, t: FileType)
    ensures LexCompare(TypeName(s), TypeName(t)) < 0 <==> TypeRank(s) < TypeRank(t)
  {
    var a, b := TypeName(s), TypeName(t);
    assert a[0] == (match s case Document => 'd' case Folder => 'f' case Spreadsheet => 's' case Tax => 't');
    assert b[0] == (match t case Document => 'd' case Folder => 'f' case Spreadsheet => 's' case Tax => 't');
    if s == t {
      assert a == b;
    }
  }

  lemma CompareTransitive(mode: SortMode, dir: SortDirection, a: FileItem, b: FileItem, c: FileItem)
    requires Compare(mode, dir, a, b) <= 0 && Compare(mode, dir, b, c) <= 0
    ensures Compare(mode, dir, a, c) <= 0
  {
    if mode != ByDate {
      var ka, kb, kc := SortKey(mode, a), SortKey(mode, b), SortKey(mode, c);
      if dir == Asc {
        LexCompareTransitive(ka, kb, kc);
      } else {
        LexCompareAntisymmetric(ka, kb);
        LexCompareAntisymmetric(kb, kc);
        LexCompareAntisymmetric(ka, kc);
        LexCompareTransitive(kc, kb, ka);
      }
    }
  }

  /** The string a non-date mode compares. */
  function SortKey(mode: SortMode, f: FileItem): string
    requires mode != ByDate
  {
    match mode
    case ByName => f.name
    case ByType => TypeName(f.fileType)
    case ByClient => f.client
  }

  /** Two files the comparator cannot tell apart. */
  predicate Tied(mode: SortMode, dir: SortDirection, a: FileItem, b: FileItem)
  {
    Compare(mode, dir, a, b) == 0
  }

  function TiedWith(mode: SortMode, dir: SortDirection, k: FileItem): FileItem -> bool
  {
    f => Tied(mode, dir, f, k)
  }

  predicate Sorted(mode: SortMode, dir: SortDirection, s: seq<FileItem>)
  {
    forall i, j :: 0 <= i < j < |s| ==> Compare(mode, dir, s[i], s[j]) <= 0
  }

  /** Inserts `x` before the first element it does not sort after. */
  function Insert(mode: SortMode, dir: SortDirection, x: FileItem, s: seq<FileItem>): (r: seq<FileItem>)
    ensures multiset(r) == multiset(s) + multiset{x}
  {
    if s == [] then [x]
    else if Compare(mode, dir, x, s[0]) <= 0 then [x] + s
    else
      assert s == [s[0]] + s[1..];
      [s[0]] + Insert(mode, dir, x, s[1..])
  }

  /** Inserting into a sorted list keeps it sorted. */
  lemma {:induction false} InsertSorted(mode: SortMode, dir: SortDirection, x: FileItem, s: seq<FileItem>)
    requires Sorted(mode, dir, s)
    ensures Sorted(mode, dir, Insert(mode, dir, x, s))
  {
    if s != [] {
      if Compare(mode, dir, x, s[0]) <= 0 {
        forall j | 0 < j < |s| ensures Compare(mode, dir, x, s[j]) <= 0 {
          CompareTransitive(mode, dir, x, s[0], s[j]);
        }
      } else {
        CompareAntisymmetric(mode, dir, x, s[0]);
        InsertSorted(mode, dir, x, s[1..]);
        InsertBelowHead(mode, dir, x, s);
      }
    }
  }

  /** A head that sorts before `x` and before the rest of a sorted list
      sorts before everything `x` is inserted among. */
  lemma InsertBelowHead(mode: SortMode, dir: SortDirection, x: FileItem, s: seq<FileItem>)
    requires s != [] && Sorted(mode, dir, s)
    requires Compare(mode, dir, s[0], x) <= 0
    ensures forall j :: 0 <= j < |Insert(mode, dir, x, s[1..])| ==>
      Compare(mode, dir, s[0], Insert(mode, dir, x, s[1..])[j]) <= 0
  {
    var t := Insert(mode, dir, x, s[1..]);
    forall j | 0 <= j < |t| ensures Compare(mode, dir, s[0], t[j]) <= 0 {
      assert t[j] in multiset(t);
      if t[j] != x {
        assert t[j] in multiset(s[1..]);
        var m :| 0 <= m < |s[1..]| && s[1..][m] == t[j];
        assert s[m + 1] == t[j];
      }
    }
  }

  /** The stable sort of the `sortedFiles` expression: a sorted permutation. */
  function SortFiles(mode: SortMode, dir: SortDirection, files: seq<FileItem>): (r: seq<FileItem>)
    ensures multiset(r) == multiset(files)
    ensures Sorted(mode, dir, r)
  {
    if files == [] then []
    else
      assert files == [files[0]] + files[1..];
      var rest := SortFiles(mode, dir, files[1..]);
      InsertSorted(mode, dir, files[0], rest);
      Insert(mode, dir, files[0], rest)
  }

  /** Two files tied with a third are tied with each other. */
  lemma TiesShareAClass(mode: SortMode, dir: SortDirection, a: FileItem, b: FileItem, k: FileItem)
    ensures Tied(mode, dir, a, k) && Tied(mode, dir, b, k) ==> Tied(mode, dir, a, b)
  {
    if Tied(mode, dir, a, k) && Tied(mode, dir, b, k) {
      CompareAntisymmetric(mode, dir, b, k);
      CompareAntisymmetric(mode, dir, a, b);
      CompareTransitive(mode, dir, a, k, b);
      CompareTransitive(mode, dir, b, k, a);
    }
  }

  /** Inserting `x` puts it ahead of every element tied with it. */
  lemma {:induction false} InsertKeepsTies(mode: SortMode, dir: SortDirection, x: FileItem,
                                           s: seq<FileItem>, k: FileItem)
    ensures Filter(TiedWith(mode, dir, k), Insert(mode, dir, x, s))
         == Filter(TiedWith(mode, dir, k), [x] + s)
  {
    var p := TiedWith(mode, dir, k);
    if s != [] && Compare(mode, dir, x, s[0]) > 0 {
      var s0, s1 := s[0], s[1..];
      var t := Insert(mode, dir, x, s1);
      InsertKeepsTies(mode, dir, x, s1, k);
      assert Insert(mode, dir, x, s) == [s0] + t;
      assert s == [s0] + s1;
      TiesShareAClass(mode, dir, x, s0, k);
      FilterSwap(p, x, s0, s1, t);
    }
  }

  /** Stability: among the files tied with any `k`, the sorted list keeps
      the order they had in the input. */
  lemma {:induction false} SortIsStable(mode: SortMode, dir: SortDirection, files: seq<FileItem>, k: FileItem)
    ensures Filter(TiedWith(mode, dir, k), SortFiles(mode, dir, files))
         == Filter(TiedWith(mode, dir, k), files)
  {
    if files != [] {
      var p := TiedWith(mode, dir, k);
      var rest := SortFiles(mode, dir, files[1..]);
      SortIsStable(mode, dir, files[1..], k);
      InsertKeepsTies(mode, dir, files[0], rest, k);
      FilterAppend(p, [files[0]], rest);
      FilterAppend(p, [files[0]], files[1..]);
      assert files == [files[0]] + files[1..];
    }
  }

  /** The date key as written: `asc` lists later dates first and the
      initial `desc` lists earlier dates first. */
  lemma DateOrder(files: seq<FileItem>)
    ensures forall i, j :: 0 <= i < j < |SortFiles(ByDate, Asc, files)| ==>
      SortFiles(ByDate, Asc, files)[i].date >= SortFiles(ByDate, Asc, files)[j].date
    ensures forall i, j :: 0 <= i < j < |SortFiles(ByDate, Desc, files)| ==>
      SortFiles(ByDate, Desc, files)[i].date <= SortFiles(ByDate, Desc, files)[j].date
  {
    var up, down := SortFiles(ByDate, Asc, files), SortFiles(ByDate, Desc, files);
    assert forall i, j :: 0 <= i < j < |up| ==> Compare(ByDate, Asc, up[i], up[j]) <= 0;
    assert forall i, j :: 0 <= i < j < |down| ==> Compare(ByDate, Desc, down[i], down[j]) <= 0;
  }

  /** `asc` on a string key lists the key in non-decreasing order, `desc`
      in non-increasing order. */
  lemma StringKeyOrder(mode: SortMode, files: seq<FileItem>)
    requires mode != ByDate
    ensures forall i, j :: 0 <= i < j < |SortFiles(mode, Asc, files)| ==>
      LexCompare(SortKey(mode, SortFiles(mode, Asc, files)[i]), SortKey(mode, SortFiles(mode, Asc, files)[j])) <= 0
    ensures forall i, j :: 0 <= i < j < |SortFiles(mode, Desc, files)| ==>
      LexCompare(SortKey(mode, SortFiles(mode, Desc, files)[i]), SortKey(mode, SortFiles(mode, Desc, files)[j])) >= 0
  {
  }

  function Opposite(d: SortDirection): (o: SortDirection)
    ensures o != d
  {
    if d == Asc then Desc else Asc
  }

  class FileGridView {
    var viewMode: ViewMode
    var sortMode: SortMode
    var sortDirection: SortDirection
    const files: seq<FileItem>

    constructor ()
      ensures viewMode == Grid && sortMode == ByDate && sortDirection == Desc
      ensures files == MockFiles()
    {
      viewMode := Grid;
      sortMode := ByDate;
      sortDirection := Desc;
      files := MockFiles();
    }

    /** `sortedFiles`: a sorted copy; `files` itself is left as it is. */
    function SortedFiles(): (r: seq<FileItem>)
      reads this
      ensures multiset(r) == multiset(files)
      ensures Sorted(sortMode, sortDirection, r)
    {
      SortFiles(sortMode, sortDirection, files)
    }

    method ToggleSortDirection()
      modifies this
      ensures sortDirection == Opposite(old(sortDirection))
      ensures sortMode == old(sortMode) && viewMode == old(viewMode)
    {
      sortDirection := if sortDirection == Asc then Desc else Asc;
    }

    /** Picking the current mode flips the direction; picking another mode
        selects it in ascending order. */
    method HandleSortChange(mode: SortMode)
      modifies this
      ensures sortMode == mode
      ensures sortDirection == if mode == old(sortMode) then Opposite(old(sortDirection)) else Asc
      ensures viewMode == old(viewMode)
    {
      if sortMode == mode {
        ToggleSortDirection();
      } else {
        sortMode := mode;
        sortDirection := Asc;
      }
    }

    method SetViewMode(mode: ViewMode)
      modifies this
      ensures viewMode == mode
      ensures sortMode == old(sortMode) && sortDirection == old(sortDirection)
    {
      viewMode := mode;
    }
  }

  /** Choosing the same mode twice returns to the starting direction; two
      toggles do too. Choosing name after the initial date mode sorts by
      name ascending. */
  method SortMenuScenario(mode: SortMode)
    returns (start: SortDirection, afterTwice: SortDirection, afterToggles: SortDirection,
             nameMode: SortMode, nameDir: SortDirection)
    ensures afterTwice == start && afterToggles == start
    ensures nameMode == ByName && nameDir == Asc
  {
    var view := new FileGridView();
    view.HandleSortChange(mode);
    start := view.sortDirection;
    view.HandleSortChange(mode);
    view.HandleSortChange(mode);
    afterTwice := view.sortDirection;
    view.ToggleSortDirection();
    view.ToggleSortDirection();
    afterToggles := view.sortDirection;
    var other := new FileGridView();
    other.HandleSortChange(ByName);
    nameMode, nameDir := other.sortMode, other.sortDirection;
  }
}
