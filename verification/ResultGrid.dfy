/** The result table model: batches with a searchable index of their first rows, and a cache of
    formatted windows kept in least-recently-used order under a count and a byte bound. */
module ResultGrid {
  import opened GridSpec
  import opened Wrappers

  datatype Key = Key(batch: int, column: int, window: int)

  /** One formatted stretch of one column of one batch. A refused one is remembered too, so that
      it is not asked for again. */
  datatype Window = Window(first: nat, texts: seq<string>, failed: bool, bytes: nat)

  const NO_KEY := Key(-1, -1, -1)

  // ------------------------------------------------------------------ windows

  function TextBytes(texts: seq<string>): nat {
    if texts == [] then 0 else |texts[0]| + TextBytes(texts[1..])
  }

  function WindowRows(b: Batch, window: nat): nat {
    var left := b.rows - FirstOf(window);
    if left <= 0 then 0 else if left < WINDOW_ROWS then left else WINDOW_ROWS
  }

  predicate Refused(f: Formatter, b: Batch, column: nat, window: nat, o: Options)
    requires column < |b.views|
  {
    (b.views[column], FirstOf(window), WindowRows(b, window), o) in f.refused
  }

  function Rendered(f: Formatter, b: Batch, column: nat, window: nat, o: Options): (w: Window)
    requires column < |b.views|
    ensures !w.failed ==> |w.texts| == WindowRows(b, window)
  {
    var first, rows := FirstOf(window), WindowRows(b, window);
    if Refused(f, b, column, window, o) then Window(first, [], true, 0)
    else
      var texts := seq(rows, i requires 0 <= i < rows => Shown(f, CellOf(b.views[column], first + i), false, o));
      Window(first, texts, false, TextBytes(texts) + (rows + 1) * OFFSET_BYTES)
  }

  /** A window holds the rows whose number falls in it and that the batch has, at most 1024 of them. */
  lemma WindowHolds(b: Batch, window: nat, row: nat)
    ensures FirstOf(window) <= row < FirstOf(window) + WindowRows(b, window) <==> row < b.rows && row / 1024 == window
    ensures WindowRows(b, window) <= 1024
  {
  }

  /** What a window costs: its text, and one offset more than it has rows. */
  lemma WindowCosts(f: Formatter, b: Batch, column: nat, window: nat, o: Options)
    requires column < |b.views|
    ensures var w := Rendered(f, b, column, window, o);
            if w.failed then w.texts == [] && w.bytes == 0 else w.bytes == TextBytes(w.texts) + 8 * (|w.texts| + 1)
  {
  }

  // ------------------------------------------------------------------ the least-recently-used order

  function WindowBytes(m: map<Key, Window>, k: Key): nat { if k in m then m[k].bytes else 0 }

  function Sum(keys: seq<Key>, m: map<Key, Window>): nat {
    if keys == [] then 0 else WindowBytes(m, keys[0]) + Sum(keys[1..], m)
  }

  predicate Distinct(keys: seq<Key>) {
    forall i, j | 0 <= i < j < |keys| :: keys[i] != keys[j]
  }

  function KeysOf(lru: seq<Key>): set<Key> { set k | k in lru }

  /** The cached windows: the list, most recently used first, the index, and the byte count. */
  datatype Cache = Cache(lru: seq<Key>, windows: map<Key, Window>, bytes: int)

  const NO_CACHE := Cache([], map[], 0)

  /** The list and the index hold the same keys, each once, and the byte count is their sum. */
  ghost predicate Exact(c: Cache) {
    && Distinct(c.lru)
    && c.windows.Keys == KeysOf(c.lru)
    && c.bytes == Sum(c.lru, c.windows)
  }

  lemma {:induction false} SumConcat(a: seq<Key>, b: seq<Key>, m: map<Key, Window>)
    ensures Sum(a + b, m) == Sum(a, m) + Sum(b, m)
  {
    if a == [] {
      assert a + b == b;
    } else {
      assert (a + b)[1..] == a[1..] + b;
      SumConcat(a[1..], b, m);
    }
  }

  lemma {:induction false} SumAgrees(keys: seq<Key>, m: map<Key, Window>, n: map<Key, Window>)
    requires forall k | k in keys :: WindowBytes(m, k) == WindowBytes(n, k)
    ensures Sum(keys, m) == Sum(keys, n)
  {
    if keys != [] {
      assert keys[0] in keys;
      SumAgrees(keys[1..], m, n);
    }
  }

  lemma SumOne(k: Key, m: map<Key, Window>)
    ensures Sum([k], m) == WindowBytes(m, k)
  {
    assert [k][1..] == [];
  }

  function MovedToFront(lru: seq<Key>, i: nat): (r: seq<Key>)
    requires i < |lru|
    ensures |r| == |lru|
  {
    [lru[i]] + (lru[..i] + lru[i + 1..])
  }

  lemma MovingKeepsSum(lru: seq<Key>, i: nat, m: map<Key, Window>)
    requires i < |lru|
    ensures Sum(MovedToFront(lru, i), m) == Sum(lru, m)
  {
    var a, k, b := lru[..i], [lru[i]], lru[i + 1..];
    assert lru == a + (k + b);
    SumConcat(a, k + b, m);
    SumConcat(k, b, m);
    SumConcat(k, a + b, m);
    SumConcat(a, b, m);
  }

  lemma MovingKeepsKeys(lru: seq<Key>, i: nat)
    requires i < |lru| && Distinct(lru)
    ensures var moved := MovedToFront(lru, i); Distinct(moved) && KeysOf(moved) == KeysOf(lru)
  {
    var moved := MovedToFront(lru, i);
    forall j | 0 <= j < |lru| ensures moved[j] == if j == 0 then lru[i] else if j <= i then lru[j - 1] else lru[j] {
    }
    forall k ensures k in moved <==> k in lru {
      if k in lru {
        var j :| 0 <= j < |lru| && lru[j] == k;
        assert k == moved[if j == i then 0 else if j < i then j + 1 else j];
      }
    }
  }

  lemma MovingKeepsExact(c: Cache, i: nat)
    requires i < |c.lru| && Exact(c)
    ensures Exact(c.(lru := MovedToFront(c.lru, i)))
  {
    MovingKeepsSum(c.lru, i, c.windows);
    MovingKeepsKeys(c.lru, i);
  }

  lemma AddingKeepsExact(c: Cache, k: Key, w: Window)
    requires Exact(c) && k !in c.windows
    ensures Exact(Cache([k] + c.lru, c.windows[k := w], c.bytes + w.bytes))
  {
    var n := c.windows[k := w];
    SumAgrees(c.lru, c.windows, n);
    SumConcat([k], c.lru, n);
    SumOne(k, n);
    assert n.Keys == KeysOf([k] + c.lru);
  }

  function WithoutLast(c: Cache): Cache
    requires c.lru != [] && c.lru[|c.lru| - 1] in c.windows
  {
    var k := c.lru[|c.lru| - 1];
    Cache(c.lru[..|c.lru| - 1], c.windows - {k}, c.bytes - c.windows[k].bytes)
  }

  lemma DroppingKeepsExact(c: Cache)
    requires c.lru != [] && Exact(c)
    ensures c.lru[|c.lru| - 1] in c.windows && Exact(WithoutLast(c))
  {
    var k, rest := c.lru[|c.lru| - 1], c.lru[..|c.lru| - 1];
    assert k in c.lru && k in KeysOf(c.lru);
    assert c.lru == rest + [k];
    SumConcat(rest, [k], c.windows);
    SumOne(k, c.windows);
    var n := c.windows - {k};
    SumAgrees(rest, c.windows, n);
    assert n.Keys == KeysOf(rest);
  }

  // ------------------------------------------------------------------ bounds and contents

  predicate Within(count: nat, bytes: int, maxWindows: nat, maxBytes: nat) {
    count <= (if maxWindows < 1 then 1 else maxWindows) && bytes <= maxBytes
  }

  predicate Names(batches: seq<Batch>, k: Key) {
    && 0 <= k.batch < |batches| && 0 <= k.column < |batches[k.batch].views|
    && 0 <= k.window && FirstOf(k.window) < batches[k.batch].rows
  }

  /** Every cached window is what the formatter makes of it now. */
  predicate AllRendered(f: Formatter, batches: seq<Batch>, m: map<Key, Window>, o: Options) {
    forall k | k in m :: Names(batches, k) && m[k] == Rendered(f, batches[k.batch], k.column, k.window, o)
  }

  /** Formatting one cell out of a window is formatting the cell. */
  lemma RenderedText(f: Formatter, b: Batch, column: nat, row: nat, o: Options)
    requires column < |b.views| && row < b.rows
    ensures var w := Rendered(f, b, column, WindowOf(row), o);
            && (w.failed <==> Refused(f, b, column, WindowOf(row), o))
            && (!w.failed ==> w.first <= row < w.first + |w.texts|
                              && w.texts[row - w.first] == Shown(f, CellOf(b.views[column], row), false, o))
  {
    assert FirstOf(WindowOf(row)) <= row < FirstOf(WindowOf(row)) + WINDOW_ROWS;
  }

  // ------------------------------------------------------------------ searching and evicting

  /** `c` is `all` with only its `n` most recently used windows. */
  ghost predicate KeepsFirst(c: Cache, all: Cache, n: nat) {
    && n <= |all.lru| && c.lru == all.lru[..n] && Exact(c)
    && forall k | k in c.windows :: k in all.windows && c.windows[k] == all.windows[k]
  }

  lemma KeepsAll(all: Cache)
    requires Exact(all)
    ensures KeepsFirst(all, all, |all.lru|)
  {
    assert all.lru[..|all.lru|] == all.lru;
  }

  lemma DroppingKeepsFirst(c: Cache, all: Cache, n: nat)
    requires KeepsFirst(c, all, n) && n > 0
    ensures c.lru[n - 1] in c.windows && KeepsFirst(WithoutLast(c), all, n - 1)
  {
    DroppingKeepsExact(c);
    assert all.lru[..n][..n - 1] == all.lru[..n - 1];
  }

  /** Keeping this many of the most recently used windows breaks a bound. */
  predicate TooMany(all: Cache, n: nat, maxWindows: nat, maxBytes: nat) {
    n <= |all.lru| && !Within(n, Sum(all.lru[..n], all.windows), maxWindows, maxBytes)
  }

  lemma KeptTooMany(c: Cache, all: Cache, n: nat, maxWindows: nat, maxBytes: nat)
    requires KeepsFirst(c, all, n) && !Within(n, c.bytes, maxWindows, maxBytes)
    ensures TooMany(all, n, maxWindows, maxBytes)
  {
    SumAgrees(c.lru, c.windows, all.windows);
  }

  /** Keeping any more than `n` windows breaks a bound. */
  ghost predicate NoMoreThan(all: Cache, n: nat, maxWindows: nat, maxBytes: nat) {
    forall m | n < m <= |all.lru| :: TooMany(all, m, maxWindows, maxBytes)
  }

  /** What is too much stays too much with more. */
  lemma MoreIsTooMany(all: Cache, n: nat, m: nat, maxWindows: nat, maxBytes: nat)
    requires TooMany(all, n, maxWindows, maxBytes) && n <= m <= |all.lru|
    ensures TooMany(all, m, maxWindows, maxBytes)
  {
    assert all.lru[..m] == all.lru[..n] + all.lru[n..m];
    SumConcat(all.lru[..n], all.lru[n..m], all.windows);
  }

  /** The window in front is last only when it is alone. */
  lemma FrontIsLast(c: Cache, all: Cache, n: nat, keep: Key)
    requires KeepsFirst(c, all, n) && n > 0 && (keep in all.lru ==> all.lru[0] == keep)
    ensures |c.lru| == n
    ensures c.lru[n - 1] == keep ==> c.lru == [keep]
    ensures c.lru[n - 1] != keep && keep in all.lru ==> n > 1
  {
    assert c.lru[n - 1] == all.lru[n - 1];
  }

  /** Drops least recently used windows until both bounds hold, and not one more; the window being
      read, at the front, always stays. */
  method Evict(all: Cache, keep: Key, maxWindows: nat, maxBytes: nat) returns (c: Cache)
    requires Exact(all) && (keep in all.lru ==> all.lru[0] == keep)
    ensures KeepsFirst(c, all, |c.lru|)
    ensures keep in all.lru ==> c.lru != []
    ensures Within(|c.lru|, c.bytes, maxWindows, maxBytes) || c.lru == [keep]
    ensures NoMoreThan(all, |c.lru|, maxWindows, maxBytes)
  {
    c := all;
    ghost var n, over := |all.lru|, |all.lru| + 1;
    KeepsAll(all);
    while c.lru != [] && (|c.lru| > (if maxWindows < 1 then 1 else maxWindows) || c.bytes > maxBytes)
      invariant n == |c.lru| && KeepsFirst(c, all, n)
      invariant keep in all.lru ==> n > 0
      invariant over == n + 1 && (over <= |all.lru| ==> TooMany(all, over, maxWindows, maxBytes))
      decreases n
    {
      FrontIsLast(c, all, n, keep);
      if c.lru[|c.lru| - 1] == keep {
        break;
      }
      KeptTooMany(c, all, n, maxWindows, maxBytes);
      DroppingKeepsFirst(c, all, n);
      c := WithoutLast(c);
      n, over := n - 1, n;
    }
    forall m | n < m <= |all.lru| ensures TooMany(all, m, maxWindows, maxBytes) {
      MoreIsTooMany(all, over, m, maxWindows, maxBytes);
    }
  }

  /** The first position whose value lies beyond `row`. */
  method UpperBound(firstRows: seq<int>, row: int) returns (index: nat)
    requires forall i, j | 0 <= i < j < |firstRows| :: firstRows[i] <= firstRows[j]
    ensures index <= |firstRows|
    ensures forall i | 0 <= i < index :: firstRows[i] <= row
    ensures forall i | index <= i < |firstRows| :: firstRows[i] > row
  {
    var low, high := 0, |firstRows|;
    while low < high
      invariant 0 <= low <= high <= |firstRows|
      invariant forall i | 0 <= i < low :: firstRows[i] <= row
      invariant forall i | high <= i < |firstRows| :: firstRows[i] > row
    {
      var mid := (low + high) / 2;
      if firstRows[mid] <= row {
        low := mid + 1;
      } else {
        high := mid;
      }
    }
    index := low;
  }

  /** The batch just before the upper bound is the one that holds the row. */
  lemma UpperBoundHolds(batches: seq<Batch>, row: nat, upper: nat)
    requires Partition(batches) && row < EndOf(batches) && upper <= |batches|
    requires forall i | 0 <= i < upper :: batches[i].first <= row
    requires forall i | upper <= i < |batches| :: batches[i].first > row
    ensures upper > 0 && Holds(batches[upper - 1], row)
  {
    assert upper > 0;
    var i, j := upper - 1, upper;
    assert j < |batches| ==> batches[j].first == batches[i].first + batches[i].rows;
  }

  // ------------------------------------------------------------------ the model

  datatype Grid = Grid(batches: seq<Batch>, firstRows: seq<int>, columns: nat, rowCount: nat)

  predicate GridOk(g: Grid) {
    && Partition(g.batches) && g.rowCount == EndOf(g.batches) && g.rowCount <= INT_MAX
    && |g.firstRows| == |g.batches| && (forall i | 0 <= i < |g.batches| :: g.firstRows[i] == g.batches[i].first)
    && (forall i | 0 <= i < |g.batches| :: |g.batches[i].views| == g.columns)
  }

  lemma FirstRowsAscend(g: Grid)
    requires GridOk(g)
    ensures forall i, j | 0 <= i < j < |g.firstRows| :: g.firstRows[i] <= g.firstRows[j]
  {
    forall i, j | 0 <= i < j < |g.firstRows| ensures g.firstRows[i] <= g.firstRows[j] {
      Ordered(g.batches, i, j);
    }
  }

  function Appended(g: Grid, batch: seq<Column>, rows: nat): Grid {
    g.(batches := g.batches + [Batch(g.rowCount, rows, Views(batch, g.columns))],
       firstRows := g.firstRows + [g.rowCount], rowCount := g.rowCount + rows)
  }

  lemma AppendKeepsGrid(g: Grid, batch: seq<Column>, rows: nat)
    requires GridOk(g) && 0 < rows && g.rowCount + rows <= INT_MAX
    ensures var n := Appended(g, batch, rows);
            GridOk(n) && Table(n.batches) == Table(g.batches)
                + RowsOf(Batch(g.rowCount, rows, Views(batch, g.columns)), rows)
  {
    PartitionAppend(g.batches, Batch(g.rowCount, rows, Views(batch, g.columns)));
  }

  lemma GridLength(g: Grid)
    requires GridOk(g)
    ensures |Table(g.batches)| == g.rowCount
  {
    TableLength(g.batches);
  }

  lemma AppendKeepsRendered(f: Formatter, g: Grid, batch: seq<Column>, rows: nat, m: map<Key, Window>, o: Options)
    requires AllRendered(f, g.batches, m, o)
    ensures AllRendered(f, Appended(g, batch, rows).batches, m, o)
  {
    var n := Appended(g, batch, rows);
    forall k | k in m ensures Names(n.batches, k) && m[k] == Rendered(f, n.batches[k.batch], k.column, k.window, o) {
      assert n.batches[k.batch] == g.batches[k.batch];
    }
  }

  /** The formatter refuses the window this cell is in. */
  ghost predicate InRefusedWindow(f: Formatter, batches: seq<Batch>, row: int, column: nat, o: Options) {
    exists i :: 0 <= i < |batches| && Holds(batches[i], row) && column < |batches[i].views|
                && Refused(f, batches[i], column, WindowOf(row - batches[i].first), o)
  }

  predicate InTable(batches: seq<Batch>, row: int, column: int) {
    0 <= row < |Table(batches)| && 0 <= column < |Table(batches)[row]|
  }

  /** A cell of the table formatted directly, with no cache and no search. */
  ghost function Displayed(f: Formatter, batches: seq<Batch>, row: nat, column: nat, o: Options): string
    requires InTable(batches, row, column)
  {
    Shown(f, Table(batches)[row][column], InRefusedWindow(f, batches, row, column, o), o)
  }

  /** The same cell reached through its batch. */
  function InBatch(f: Formatter, b: Batch, column: nat, row: nat, o: Options): string
    requires column < |b.views|
  {
    Shown(f, CellOf(b.views[column], row), Refused(f, b, column, WindowOf(row), o), o)
  }

  lemma CellIsThere(f: Formatter, batches: seq<Batch>, i: nat, row: nat, column: nat, o: Options)
    requires Partition(batches) && i < |batches| && Holds(batches[i], row) && column < |batches[i].views|
    ensures InTable(batches, row, column)
    ensures InBatch(f, batches[i], column, row - batches[i].first, o) == Displayed(f, batches, row, column, o)
  {
    TableRow(batches, i, row);
    forall j: nat | j < |batches| && Holds(batches[j], row) ensures j == i {
      OneBatchPerRow(batches, row, i, j);
    }
  }

  // ------------------------------------------------------------------ reading through the cache

  /** The cache is exact, and holds nothing but what the formatter would say now. */
  ghost predicate CacheOk(f: Formatter, batches: seq<Batch>, c: Cache, o: Options) {
    Exact(c) && AllRendered(f, batches, c.windows, o)
  }

  /** Both bounds hold, or one window is over the byte bound on its own. */
  predicate Bounded(c: Cache, maxWindows: nat, maxBytes: nat) {
    Within(|c.lru|, c.bytes, maxWindows, maxBytes) || |c.lru| == 1
  }

  lemma PartIsRendered(f: Formatter, batches: seq<Batch>, m: map<Key, Window>, n: map<Key, Window>, o: Options)
    requires AllRendered(f, batches, m, o) && forall k | k in n :: k in m && n[k] == m[k]
    ensures AllRendered(f, batches, n, o)
  {
  }

  lemma MoreIsRendered(f: Formatter, batches: seq<Batch>, m: map<Key, Window>, k: Key, o: Options)
    requires AllRendered(f, batches, m, o) && Names(batches, k)
    ensures AllRendered(f, batches, m[k := Rendered(f, batches[k.batch], k.column, k.window, o)], o)
  {
  }

  /** Renders a window, remembers it in front, and makes room for it. */
  method Hydrate(f: Formatter, batches: seq<Batch>, c: Cache, key: Key, o: Options, maxWindows: nat, maxBytes: nat)
    returns (w: Window, n: Cache)
    requires CacheOk(f, batches, c, o) && Names(batches, key) && key !in c.windows
    ensures CacheOk(f, batches, n, o) && Bounded(n, maxWindows, maxBytes)
    ensures n.lru != [] && n.lru[0] == key
    ensures w == Rendered(f, batches[key.batch], key.column, key.window, o)
  {
    w := Rendered(f, batches[key.batch], key.column, key.window, o);
    AddingKeepsExact(c, key, w);
    MoreIsRendered(f, batches, c.windows, key, o);
    var added := Cache([key] + c.lru, c.windows[key := w], c.bytes + w.bytes);
    n := Evict(added, key, maxWindows, maxBytes);
    PartIsRendered(f, batches, added.windows, n.windows, o);
  }

  /** Marks a window as just used; nothing else changes. */
  method Touch(c: Cache, key: Key) returns (n: Cache)
    requires Exact(c) && key in c.windows
    ensures Exact(n) && n.windows == c.windows && n.bytes == c.bytes
    ensures n.lru != [] && n.lru[0] == key && multiset(n.lru) == multiset(c.lru)
  {
    assert key in KeysOf(c.lru);
    var i: nat :| i < |c.lru| && c.lru[i] == key;
    MovingKeepsExact(c, i);
    MovingIsReordering(c.lru, i);
    n := c.(lru := MovedToFront(c.lru, i));
  }

  lemma MovingIsReordering(lru: seq<Key>, i: nat)
    requires i < |lru|
    ensures multiset(MovedToFront(lru, i)) == multiset(lru)
  {
    assert lru == lru[..i] + ([lru[i]] + lru[i + 1..]);
  }

  /** A cached window, now the most recently used, or one rendered for the occasion. */
  method WindowFor(f: Formatter, batches: seq<Batch>, c: Cache, key: Key, o: Options, maxWindows: nat, maxBytes: nat)
    returns (w: Window, n: Cache)
    requires CacheOk(f, batches, c, o) && Bounded(c, maxWindows, maxBytes) && Names(batches, key)
    ensures CacheOk(f, batches, n, o) && Bounded(n, maxWindows, maxBytes)
    ensures n.lru != [] && n.lru[0] == key
    ensures w == Rendered(f, batches[key.batch], key.column, key.window, o)
  {
    if key in c.windows {
      w := c.windows[key];
      n := Touch(c, key);
      assert |n.lru| == |multiset(n.lru)| == |c.lru|;
    } else {
      w, n := Hydrate(f, batches, c, key, o, maxWindows, maxBytes);
    }
  }

  method FormattedCell(f: Formatter, batches: seq<Batch>, c: Cache, i: nat, column: nat, row: nat, o: Options,
                       maxWindows: nat, maxBytes: nat)
    returns (text: string, n: Cache)
    requires CacheOk(f, batches, c, o) && Bounded(c, maxWindows, maxBytes)
    requires i < |batches| && column < |batches[i].views| && row < batches[i].rows
    ensures CacheOk(f, batches, n, o) && Bounded(n, maxWindows, maxBytes)
    ensures text == if Refused(f, batches[i], column, WindowOf(row), o) then ""
                    else Shown(f, CellOf(batches[i].views[column], row), false, o)
  {
    RenderedText(f, batches[i], column, row, o);
    var w;
    w, n := WindowFor(f, batches, c, Key(i, column, WindowOf(row)), o, maxWindows, maxBytes);
    text := if w.failed then "" else w.texts[row - w.first];
  }

  /** NULLs and text are read as they are; everything else goes through the formatter. */
  method CellText(f: Formatter, batches: seq<Batch>, c: Cache, i: nat, column: nat, row: nat, o: Options,
                  maxWindows: nat, maxBytes: nat)
    returns (text: string, n: Cache)
    requires CacheOk(f, batches, c, o) && Bounded(c, maxWindows, maxBytes)
    requires i < |batches| && column < |batches[i].views| && row < batches[i].rows
    ensures CacheOk(f, batches, n, o) && Bounded(n, maxWindows, maxBytes)
    ensures text == InBatch(f, batches[i], column, row, o)
  {
    var view := batches[i].views[column];
    var cell := CellOf(view, row);
    n := c;
    if cell.Null? {
      text := o.nullText;
    } else if view.direct {
      text := if cell.Text? then cell.text else "";
    } else {
      text, n := FormattedCell(f, batches, c, i, column, row, o, maxWindows, maxBytes);
    }
  }

  /** The batch holding a row. The hint left by the last search never changes the answer, which is
      the only batch that holds the row. */
  method BatchForRow(g: Grid, lastBatch: int, row: nat) returns (index: nat)
    requires GridOk(g) && row < g.rowCount
    ensures index < |g.batches| && Holds(g.batches[index], row)
    ensures forall i | 0 <= i < |g.batches| && Holds(g.batches[i], row) :: i == index
  {
    var batches := g.batches;
    if 0 <= lastBatch < |batches| && Holds(batches[lastBatch], row) {
      index := lastBatch;
    } else {
      FirstRowsAscend(g);
      var upper := UpperBound(g.firstRows, row);
      UpperBoundHolds(batches, row, upper);
      index := upper - 1;
    }
    forall i | 0 <= i < |batches| && Holds(batches[i], row) ensures i == index {
      OneBatchPerRow(batches, row, i, index);
    }
  }

  /** The cell of a row whose batch is known. */
  method ReadCell(f: Formatter, batches: seq<Batch>, c: Cache, i: nat, row: nat, column: nat, o: Options,
                  maxWindows: nat, maxBytes: nat)
    returns (text: Option<string>, n: Cache)
    requires CacheOk(f, batches, c, o) && Bounded(c, maxWindows, maxBytes) && Partition(batches)
    requires i < |batches| && Holds(batches[i], row) && column < |batches[i].views|
    ensures CacheOk(f, batches, n, o) && Bounded(n, maxWindows, maxBytes)
    ensures InTable(batches, row, column) && text == Some(Displayed(f, batches, row, column, o))
  {
    CellIsThere(f, batches, i, row, column, o);
    var shown;
    shown, n := CellText(f, batches, c, i, column, row - batches[i].first, o, maxWindows, maxBytes);
    text := Some(shown);
  }

  // ------------------------------------------------------------------ the model

  class ResultTableModel {
    const formatter: Formatter

    var grid: Grid
    var lastBatch: int               // where the last search ended; only a hint
    var cache: Cache
    var maxWindows: nat
    var maxBytes: nat
    var maxRows: nat
    var rowLimitReached: bool
    var options: Options

    ghost predicate Valid()
      reads this
    {
      && GridOk(grid) && maxRows <= INT_MAX
      && CacheOk(formatter, grid.batches, cache, options) && Bounded(cache, maxWindows, maxBytes)
    }

    /** The rows appended since the last reset. */
    function Rows(): seq<seq<Cell>>
      reads this
    {
      Table(grid.batches)
    }

    constructor (formatter: Formatter, options: Options)
      ensures Valid() && Rows() == [] && grid.columns == 0 && this.options == options && this.formatter == formatter
    {
      this.formatter := formatter;
      this.options := options;
      grid, lastBatch, cache := Grid([], [], 0, 0), -1, NO_CACHE;
      maxWindows, maxBytes, maxRows, rowLimitReached := 64, 8 * 1024 * 1024, INT_MAX, false;
    }

    // -------------------------------------------------------------- appending and resetting

    method BeginResult(columns: nat)
      requires Valid()
      modifies this`grid, this`lastBatch, this`cache, this`rowLimitReached
      ensures Valid() && Rows() == [] && grid.columns == columns && grid.rowCount == 0 && !rowLimitReached
    {
      cache := NO_CACHE;
      grid := Grid([], [], columns, 0);
      lastBatch, rowLimitReached := -1, false;
    }

    /** Appends as many of the batch's rows as there is room for, and says so when some are refused.
        Rows already fetched, and everything cached, stay as they are. */
    method ApplyBatch(batch: seq<Column>, rows: int)
      requires Valid()
      modifies this`grid, this`rowLimitReached
      ensures Valid() && grid.columns == old(grid.columns)
      ensures var room := if maxRows > old(grid.rowCount) then maxRows - old(grid.rowCount) else 0;
              var taken := if rows <= 0 then 0 else if rows <= room then rows else room;
              && grid.rowCount == old(grid.rowCount) + taken
              && rowLimitReached == (old(rowLimitReached) || (rows > 0 && rows > room))
              && |Rows()| == grid.rowCount && AppendsRows(old(Rows()), Rows(), batch, grid.columns, taken)
    {
      GridLength(grid);
      if rows <= 0 {
        return;
      }
      var accepted := rows;
      var room := maxRows - grid.rowCount;
      if room <= 0 || rows > room {
        accepted := if room < 0 then 0 else room;
        rowLimitReached := true;
      }
      if accepted > 0 {
        AppendRows(batch, accepted);
      }
    }

    method AppendRows(batch: seq<Column>, rows: nat)
      requires Valid() && 0 < rows && grid.rowCount + rows <= INT_MAX
      modifies this`grid
      ensures Valid() && grid.columns == old(grid.columns) && grid.rowCount == old(grid.rowCount) + rows
      ensures |Rows()| == grid.rowCount && AppendsRows(old(Rows()), Rows(), batch, grid.columns, rows)
    {
      AppendKeepsGrid(grid, batch, rows);
      BatchIsAppended(Table(grid.batches), batch, grid.columns, grid.rowCount, rows);
      GridLength(Appended(grid, batch, rows));
      AppendKeepsRendered(formatter, grid, batch, rows, cache.windows, options);
      grid := Appended(grid, batch, rows);
    }

    // -------------------------------------------------------------- reading a cell

    /** What a cell shows is what formatting it directly, with the options in force now, would show,
        whatever was cached, evicted or searched before; outside the grid there is nothing. */
    method Data(row: int, column: int) returns (text: Option<string>)
      requires Valid()
      modifies this`cache, this`lastBatch
      ensures Valid()
      ensures text.None? <==> !(0 <= row < grid.rowCount && 0 <= column < grid.columns)
      ensures text.Some? ==> InTable(grid.batches, row, column)
                             && text == Some(Displayed(formatter, grid.batches, row, column, options))
    {
      if row < 0 || row >= grid.rowCount || column < 0 || column >= grid.columns {
        return None;
      }
      lastBatch := BatchForRow(grid, lastBatch, row);
      text, cache := ReadCell(formatter, grid.batches, cache, lastBatch, row, column, options, maxWindows, maxBytes);
    }

    // -------------------------------------------------------------- bounds and options

    method EvictIfNeeded()
      requires GridOk(grid) && maxRows <= INT_MAX && CacheOk(formatter, grid.batches, cache, options)
      modifies this`cache
      ensures Valid() && Within(|cache.lru|, cache.bytes, maxWindows, maxBytes)
      ensures KeepsFirst(cache, old(cache), |cache.lru|) && NoMoreThan(old(cache), |cache.lru|, maxWindows, maxBytes)
    {
      NoKeyIsCached(formatter, grid.batches, cache, options);
      ghost var all := cache;
      cache := Evict(cache, NO_KEY, maxWindows, maxBytes);
      PartIsRendered(formatter, grid.batches, all.windows, cache.windows, options);
      assert cache.lru != [NO_KEY];
    }

    method SetMaxFormattedWindows(n: int)
      requires Valid()
      modifies this`maxWindows, this`cache
      ensures Valid() && maxWindows == (if n < 1 then 1 else n)
      ensures maxWindows != old(maxWindows) ==> Within(|cache.lru|, cache.bytes, maxWindows, maxBytes)
      ensures |cache.lru| <= |old(cache).lru| && cache.lru == old(cache).lru[..|cache.lru|]
    {
      var clamped := if n < 1 then 1 else n;
      assert cache.lru == cache.lru[..|cache.lru|];
      if clamped == maxWindows { return; }
      maxWindows := clamped;
      EvictIfNeeded();
    }

    method SetMaxFormattedBytes(n: int)
      requires Valid()
      modifies this`maxBytes, this`cache
      ensures Valid() && maxBytes == (if n < 0 then 0 else n)
      ensures maxBytes != old(maxBytes) ==> Within(|cache.lru|, cache.bytes, maxWindows, maxBytes)
      ensures |cache.lru| <= |old(cache).lru| && cache.lru == old(cache).lru[..|cache.lru|]
    {
      var clamped := if n < 0 then 0 else n;
      assert cache.lru == cache.lru[..|cache.lru|];
      if clamped == maxBytes { return; }
      maxBytes := clamped;
      EvictIfNeeded();
    }

    method SetMaxRows(n: int)
      requires Valid() && n <= INT_MAX
      modifies this`maxRows
      ensures Valid() && maxRows == (if n < 0 then 0 else n)
    {
      maxRows := if n < 0 then 0 else n;
    }

    /** New options leave nothing formatted with the old ones. */
    method SetOptions(o: Options)
      requires Valid()
      modifies this`options, this`cache
      ensures Valid() && options == o
    {
      if o == options { return; }
      options := o;
      cache := NO_CACHE;
    }
  }

  lemma NoKeyIsCached(f: Formatter, batches: seq<Batch>, c: Cache, o: Options)
    requires CacheOk(f, batches, c, o)
    ensures NO_KEY !in c.lru
  {
    assert NO_KEY !in c.windows && NO_KEY !in KeysOf(c.lru);
  }
}
