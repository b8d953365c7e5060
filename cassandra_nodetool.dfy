/**
 * The Cassandra collector that reads `nodetool` output: the tabular parser for `netstats` and
 * `tpstats`, the prefix-stack parser for `cfstats`, the per-key value patterns for `info`, and the
 * number filter in front of the sink. The output of `nodetool` arrives as lines; the regular
 * expressions and Python's `float` are parameters.
 */
module CassandraNodetool {
  import opened Outcomes
  import opened Text
  import opened Metrics

  /** A candidate data point before the number check: dotted key and the text of its value. */
  datatype Entry = Entry(key: string, value: string)

  /** `publish_if_number`: publishes the cleaned key when the value parses as a number, else nothing. */
  function PublishIfNumber(key: string, value: string, toFloat: string -> Option<real>): (r: Option<Point>)
    ensures r.Some? <==> toFloat(value).Some?
    ensures r.Some? ==> r.value.name == Sanitize(key) && r.value.value == toFloat(value).value
    ensures r.Some? ==> ' ' !in r.value.name && '(' !in r.value.name && ')' !in r.value.name
  {
    match toFloat(value)
    case None => None
    case Some(number) => Some(Point(Sanitize(key), number, 0))
  }

  /** The points a run of `publish_if_number` calls publishes, in order. */
  function Published(entries: seq<Entry>, toFloat: string -> Option<real>): (r: seq<Point>)
    ensures |r| <= |entries|
  {
    if entries == [] then []
    else
      var rest := Published(entries[1..], toFloat);
      match PublishIfNumber(entries[0].key, entries[0].value, toFloat)
      case None => rest
      case Some(pt) => [pt] + rest
  }

  /** A point is published exactly when some entry's value is a number; it carries the entry's cleaned key. */
  lemma {:induction false} PublishedPoints(entries: seq<Entry>, toFloat: string -> Option<real>)
    ensures forall pt :: pt in Published(entries, toFloat) <==>
              exists e :: e in entries && toFloat(e.value).Some? && pt == Point(Sanitize(e.key), toFloat(e.value).value, 0)
  {
    if entries != [] {
      PublishedPoints(entries[1..], toFloat);
      assert forall e :: e in entries <==> e == entries[0] || e in entries[1..];
    }
  }

  /** The run from entry `i` on, one entry unfolded. */
  lemma PublishedStep(entries: seq<Entry>, i: nat, toFloat: string -> Option<real>)
    requires i < |entries|
    ensures Published(entries[i..], toFloat) ==
              (match PublishIfNumber(entries[i].key, entries[i].value, toFloat)
               case None => []
               case Some(pt) => [pt]) + Published(entries[i + 1..], toFloat)
  {
    assert entries[i..][0] == entries[i] && entries[i..][1..] == entries[i + 1..];
  }

  /** The loop that hands each entry to `publish_if_number`. */
  method PublishAll(entries: seq<Entry>, toFloat: string -> Option<real>) returns (points: seq<Point>)
    ensures points == Published(entries, toFloat)
  {
    points := [];
    var i := 0;
    while i < |entries|
      invariant 0 <= i <= |entries|
      invariant points + Published(entries[i..], toFloat) == Published(entries, toFloat)
    {
      PublishedStep(entries, i, toFloat);
      var pt := PublishIfNumber(entries[i].key, entries[i].value, toFloat);
      if pt.Some? {
        points := points + [pt.value];
      }
      i := i + 1;
    }
    assert entries[|entries|..] == [];
  }

  // ---------------------------------------------------------------------------------------------
  // Tabular output (`parse_space_seperated`)

  /** Which rows of a table are skipped and which are header rows, by index. */
  datatype Layout = Layout(rowHeaders: set<int>, skipLines: set<int>)

  /** Python's `words[1:]`: everything after the first field, empty when there is none. */
  function Rest(words: seq<string>): (r: seq<string>)
    ensures words != [] ==> r == words[1..]
    ensures words == [] ==> r == []
  {
    if words == [] then [] else words[1..]
  }

  /** The entries of one data row under the column headers: one per column, in column order. */
  function RowEntries(prefix: string, words: seq<string>, headers: seq<string>): (r: seq<Entry>)
    requires |words| == 1 + |headers|
    ensures |r| == |headers|
    ensures forall j :: 0 <= j < |headers| ==> r[j] == Entry(prefix + "." + words[0] + "." + headers[j], words[1 + j])
  {
    seq(|headers|, j requires 0 <= j < |headers| => Entry(prefix + "." + words[0] + "." + headers[j], words[1 + j]))
  }

  /**
   * What the tabular parser yields, and whether it ran to the end: a data row met before any
   * header row reads the unset column headers, which raises and ends the parse.
   */
  datatype Table = Table(entries: seq<Entry>, completed: bool)

  /**
   * The parse from row `i` on, with the column headers of the last header row so far (`None`
   * before the first). `split` is the split at runs of two or more white-space characters.
   */
  function TableFrom(lines: seq<string>, prefix: string, layout: Layout, split: string -> seq<string>,
                     i: nat, headers: Option<seq<string>>): Table
    requires i <= |lines|
    decreases |lines| - i
  {
    if i == |lines| then Table([], true)
    else if i in layout.skipLines then TableFrom(lines, prefix, layout, split, i + 1, headers)
    else
      var words := split(lines[i]);
      if i in layout.rowHeaders then TableFrom(lines, prefix, layout, split, i + 1, Some(Rest(words)))
      else match headers
        case None => Table([], false)
        case Some(h) =>
          var rest := TableFrom(lines, prefix, layout, split, i + 1, headers);
          if |words| == 1 + |h| then Table(RowEntries(prefix, words, h) + rest.entries, rest.completed)
          else rest
  }

  /** The column loop of `parse_space_seperated` for one data row. */
  method RowPairs(prefix: string, words: seq<string>, h: seq<string>) returns (row: seq<Entry>)
    requires |words| == 1 + |h|
    ensures row == RowEntries(prefix, words, h)
  {
    row := [];
    var i := 0;
    while i < |h|
      invariant 0 <= i <= |h|
      invariant row == RowEntries(prefix, words, h)[..i]
    {
      assert RowEntries(prefix, words, h)[..i + 1] == RowEntries(prefix, words, h)[..i] + [RowEntries(prefix, words, h)[i]];
      row := row + [Entry(prefix + "." + words[0] + "." + h[i], words[1 + i])];
      i := i + 1;
    }
    assert RowEntries(prefix, words, h)[..|h|] == RowEntries(prefix, words, h);
  }

  /** `parse_space_seperated` over all rows: the entries it yields and whether it ran to the end. */
  method ParseSpaceSeparated(lines: seq<string>, prefix: string, layout: Layout, split: string -> seq<string>)
    returns (entries: seq<Entry>, completed: bool)
    ensures Table(entries, completed) == TableFrom(lines, prefix, layout, split, 0, None)
  {
    ghost var goal := TableFrom(lines, prefix, layout, split, 0, None);
    var columnHeaders: Option<seq<string>> := None;
    entries := [];
    var rowIndex := 0;
    while rowIndex < |lines|
      invariant 0 <= rowIndex <= |lines|
      invariant entries + TableFrom(lines, prefix, layout, split, rowIndex, columnHeaders).entries == goal.entries
      invariant TableFrom(lines, prefix, layout, split, rowIndex, columnHeaders).completed == goal.completed
    {
      if rowIndex in layout.skipLines {
        rowIndex := rowIndex + 1;
        continue;
      }
      var words := split(lines[rowIndex]);
      if rowIndex in layout.rowHeaders {
        columnHeaders := Some(Rest(words));
        rowIndex := rowIndex + 1;
        continue;
      }
      if columnHeaders.None? {
        assert entries == goal.entries;
        return entries, false;
      }
      var h := columnHeaders.value;
      ghost var rest := TableFrom(lines, prefix, layout, split, rowIndex + 1, columnHeaders);
      if |words| == 1 + |h| {
        var row := RowPairs(prefix, words, h);
        assert entries + row + rest.entries == goal.entries;
        entries := entries + row;
      }
      rowIndex := rowIndex + 1;
    }
    assert entries == goal.entries;
    return entries, true;
  }

  /** Every data row from row `i` on comes after a header row that is not skipped. */
  ghost predicate HeaderBeforeData(lines: seq<string>, layout: Layout, i: nat)
  {
    forall j :: i <= j < |lines| && j !in layout.skipLines && j !in layout.rowHeaders ==>
      exists k :: i <= k < j && k in layout.rowHeaders && k !in layout.skipLines
  }

  /**
   * Once column headers are known the parse runs to the end; before that, it runs to the end
   * exactly when a header row comes before the first data row.
   */
  lemma {:induction false} TableCompletes(lines: seq<string>, prefix: string, layout: Layout, split: string -> seq<string>,
                                          i: nat, headers: Option<seq<string>>)
    requires i <= |lines|
    ensures headers.Some? ==> TableFrom(lines, prefix, layout, split, i, headers).completed
    ensures headers.None? ==>
              (TableFrom(lines, prefix, layout, split, i, headers).completed <==> HeaderBeforeData(lines, layout, i))
    decreases |lines| - i
  {
    if i < |lines| {
      var words := split(lines[i]);
      if i in layout.skipLines {
        TableCompletes(lines, prefix, layout, split, i + 1, headers);
        if headers.None? {
          if HeaderBeforeData(lines, layout, i + 1) {
            forall j | i <= j < |lines| && j !in layout.skipLines && j !in layout.rowHeaders
              ensures exists k :: i <= k < j && k in layout.rowHeaders && k !in layout.skipLines
            {
              var k :| i + 1 <= k < j && k in layout.rowHeaders && k !in layout.skipLines;
            }
          }
          if HeaderBeforeData(lines, layout, i) {
            forall j | i + 1 <= j < |lines| && j !in layout.skipLines && j !in layout.rowHeaders
              ensures exists k :: i + 1 <= k < j && k in layout.rowHeaders && k !in layout.skipLines
            {
              var k :| i <= k < j && k in layout.rowHeaders && k !in layout.skipLines;
              assert k != i;
            }
          }
        }
      } else if i in layout.rowHeaders {
        TableCompletes(lines, prefix, layout, split, i + 1, Some(Rest(words)));
        forall j | i <= j < |lines| && j !in layout.skipLines && j !in layout.rowHeaders
          ensures exists k :: i <= k < j && k in layout.rowHeaders && k !in layout.skipLines
        {
          assert i < j;
        }
      } else if headers.None? {
        assert !HeaderBeforeData(lines, layout, i) by {
          assert !exists k :: i <= k < i && k in layout.rowHeaders && k !in layout.skipLines;
        }
      } else {
        TableCompletes(lines, prefix, layout, split, i + 1, headers);
      }
    }
  }

  /** The content of a skipped row has no effect on the parse. */
  lemma {:induction false} SkippedRowIsIgnored(lines: seq<string>, prefix: string, layout: Layout, split: string -> seq<string>,
                                               i: nat, headers: Option<seq<string>>, k: nat, other: string)
    requires i <= |lines| && k < |lines| && k in layout.skipLines
    ensures TableFrom(lines[k := other], prefix, layout, split, i, headers) == TableFrom(lines, prefix, layout, split, i, headers)
    decreases |lines| - i
  {
    if i < |lines| {
      var lines' := lines[k := other];
      assert i != k ==> lines'[i] == lines[i];
      if i in layout.skipLines {
        SkippedRowIsIgnored(lines, prefix, layout, split, i + 1, headers, k, other);
      } else if i in layout.rowHeaders {
        SkippedRowIsIgnored(lines, prefix, layout, split, i + 1, Some(Rest(split(lines[i]))), k, other);
      } else if headers.Some? {
        SkippedRowIsIgnored(lines, prefix, layout, split, i + 1, headers, k, other);
      }
    }
  }

  /** The column names of the header rows from row `i` on. */
  ghost function ColumnNames(lines: seq<string>, layout: Layout, split: string -> seq<string>, i: nat): set<string>
    requires i <= |lines|
  {
    set k, c | i <= k < |lines| && k in layout.rowHeaders && k !in layout.skipLines && c in Rest(split(lines[k])) :: c
  }

  /** The names of the known column headers, none before the first header row. */
  function HeaderNames(headers: Option<seq<string>>): set<string>
  {
    match headers
    case None => {}
    case Some(h) => set c | c in h
  }

  /** `key` is `prefix.row.column` for some row name and a column name from `columns`. */
  ghost predicate TableKey(prefix: string, key: string, columns: set<string>)
  {
    exists row, col :: key == prefix + "." + row + "." + col && col in columns
  }

  /** The keys of one data row name its columns. */
  lemma RowKeys(prefix: string, words: seq<string>, h: seq<string>)
    requires |words| == 1 + |h|
    ensures forall e :: e in RowEntries(prefix, words, h) ==> TableKey(prefix, e.key, set c | c in h)
  {
    var row := RowEntries(prefix, words, h);
    var columns := set c | c in h;
    forall e | e in row
      ensures TableKey(prefix, e.key, columns)
    {
      var j :| 0 <= j < |row| && row[j] == e;
      var name, col := words[0], h[j];
      assert col in columns;
      assert e.key == prefix + "." + name + "." + col;
    }
  }

  /** Moving past a row keeps only column names of later header rows; a header row's own names are among them. */
  lemma ColumnNamesStep(lines: seq<string>, layout: Layout, split: string -> seq<string>, i: nat)
    requires i < |lines|
    ensures ColumnNames(lines, layout, split, i + 1) <= ColumnNames(lines, layout, split, i)
    ensures i in layout.rowHeaders && i !in layout.skipLines ==>
              HeaderNames(Some(Rest(split(lines[i])))) <= ColumnNames(lines, layout, split, i)
  {
  }

  /** A key of `columns` is a key of any larger set of columns. */
  lemma TableKeyWider(prefix: string, key: string, columns: set<string>, wider: set<string>)
    requires TableKey(prefix, key, columns) && columns <= wider
    ensures TableKey(prefix, key, wider)
  {
    var row, col :| key == prefix + "." + row + "." + col && col in columns;
    assert col in wider;
  }

  /**
   * Every key the parser yields is `prefix.row.column`, where the column is a name from a header
   * row: the current one or a later one.
   */
  lemma {:induction false} TableKeys(lines: seq<string>, prefix: string, layout: Layout, split: string -> seq<string>,
                                     i: nat, headers: Option<seq<string>>)
    requires i <= |lines|
    ensures forall e :: e in TableFrom(lines, prefix, layout, split, i, headers).entries ==>
              TableKey(prefix, e.key, HeaderNames(headers) + ColumnNames(lines, layout, split, i))
    decreases |lines| - i
  {
    if i < |lines| && (i !in layout.rowHeaders || i in layout.skipLines) && (headers.Some? || i in layout.skipLines) {
      var all := HeaderNames(headers) + ColumnNames(lines, layout, split, i);
      var next := TableFrom(lines, prefix, layout, split, i + 1, headers);
      ColumnNamesStep(lines, layout, split, i);
      TableKeys(lines, prefix, layout, split, i + 1, headers);
      var later := HeaderNames(headers) + ColumnNames(lines, layout, split, i + 1);
      forall e | e in next.entries
        ensures TableKey(prefix, e.key, all)
      {
        TableKeyWider(prefix, e.key, later, all);
      }
      var words := split(lines[i]);
      if i !in layout.skipLines && |words| == 1 + |headers.value| {
        var h := headers.value;
        var columns := set c | c in h;
        RowKeys(prefix, words, h);
        forall e | e in RowEntries(prefix, words, h)
          ensures TableKey(prefix, e.key, all)
        {
          TableKeyWider(prefix, e.key, columns, all);
        }
        assert TableFrom(lines, prefix, layout, split, i, headers).entries == RowEntries(prefix, words, h) + next.entries;
      } else {
        assert TableFrom(lines, prefix, layout, split, i, headers).entries == next.entries;
      }
    } else if i < |lines| && i in layout.rowHeaders && i !in layout.skipLines {
      var headers' := Some(Rest(split(lines[i])));
      var all := HeaderNames(headers) + ColumnNames(lines, layout, split, i);
      ColumnNamesStep(lines, layout, split, i);
      TableKeys(lines, prefix, layout, split, i + 1, headers');
      var later := HeaderNames(headers') + ColumnNames(lines, layout, split, i + 1);
      forall e | e in TableFrom(lines, prefix, layout, split, i + 1, headers').entries
        ensures TableKey(prefix, e.key, all)
      {
        TableKeyWider(prefix, e.key, later, all);
      }
      assert TableFrom(lines, prefix, layout, split, i, headers).entries ==
             TableFrom(lines, prefix, layout, split, i + 1, headers').entries;
    }
  }

  /**
   * `publish_tabular_stats`: the numeric cells of the command's table, published under
   * `command.row.column`; `completed` is false when the parse raised part-way, after publishing
   * the rows before the failure.
   */
  method PublishTabularStats(command: string, lines: seq<string>, layout: Layout, split: string -> seq<string>,
                             toFloat: string -> Option<real>)
    returns (points: seq<Point>, completed: bool)
    ensures points == Published(TableFrom(lines, command, layout, split, 0, None).entries, toFloat)
    ensures completed <==> HeaderBeforeData(lines, layout, 0)
  {
    var entries;
    entries, completed := ParseSpaceSeparated(lines, command, layout, split);
    TableCompletes(lines, command, layout, split, 0, None);
    points := PublishAll(entries, toFloat);
  }

  // ---------------------------------------------------------------------------------------------
  // Key-value listings with a prefix stack (`publish_list_stats`)

  /** The first position of `x` in `xs` (Python's `list.index`). */
  function FirstIndex(xs: seq<string>, x: string): (i: nat)
    requires x in xs
    ensures i < |xs| && xs[i] == x && x !in xs[..i]
  {
    if xs[0] == x then 0 else 1 + FirstIndex(xs[1..], x)
  }

  /**
   * The settings of one listing: the keys that open a level of the prefix stack, in level order;
   * the keys to publish (all when `None`) and those never to publish; and the prefix values whose
   * entries are dropped.
   */
  datatype ListSettings = ListSettings(prefixHeaders: seq<string>, includes: Option<seq<string>>,
                                       excludes: Option<seq<string>>, prefixValueExcludes: Option<seq<string>>)

  /**
   * The regular expressions of a listing: the `key: value` match of a line (its groups) and the
   * search for the numeric part of a value (its first group).
   */
  datatype ListPatterns = ListPatterns(lineMatch: string -> Option<seq<string>>, numericSearch: string -> Option<string>)

  /** A listing entry: the prefix stack when it was read, its key and its value text. */
  datatype ListEntry = ListEntry(prefixes: seq<string>, key: string, value: string)

  /** The published name of a listing entry: the command, the prefixes and the key, joined by `.`. */
  function ListEntryName(command: string, e: ListEntry): string
  {
    Join([command] + e.prefixes + [e.key], ".")
  }

  /** The filters: the key is wanted, not excluded, and no current prefix is an excluded value. */
  predicate Wanted(s: ListSettings, prefixes: seq<string>, key: string)
  {
    (s.includes.None? || key in s.includes.value) &&
    (s.excludes.None? || key !in s.excludes.value) &&
    (s.prefixValueExcludes.None? || forall p :: p in prefixes ==> p !in s.prefixValueExcludes.value)
  }

  /** The prefix stack and the entries read so far. */
  datatype ListState = ListState(prefixes: seq<string>, entries: seq<ListEntry>)

  /**
   * One line of a listing. A prefix key at level `i` keeps the first `i` prefixes and pushes its
   * value; any other key that passes the filters is an entry, its value cut down to the numeric
   * part when the numeric search finds one.
   */
  function ListStep(s: ListSettings, pat: ListPatterns, st: ListState, line: string): ListState
  {
    match pat.lineMatch(line)
    case None => st
    case Some(groups) =>
      if |groups| != 2 then st
      else
        var key, value := groups[0], groups[1];
        if key in s.prefixHeaders then
          var i := FirstIndex(s.prefixHeaders, key);
          ListState(st.prefixes[..if i <= |st.prefixes| then i else |st.prefixes|] + [value], st.entries)
        else if !Wanted(s, st.prefixes, key) then st
        else
          var v := match pat.numericSearch(value) case Some(d) => d case None => value;
          ListState(st.prefixes, st.entries + [ListEntry(st.prefixes, key, v)])
  }

  /** The listing read line by line from the given state. */
  function ListFrom(s: ListSettings, pat: ListPatterns, st: ListState, lines: seq<string>): ListState
    decreases |lines|
  {
    if lines == [] then st else ListFrom(s, pat, ListStep(s, pat, st, lines[0]), lines[1..])
  }

  /** A well-formed entry: no deeper than the prefix levels, not a prefix key, and wanted. */
  ghost predicate GoodEntry(s: ListSettings, e: ListEntry)
  {
    |e.prefixes| <= |s.prefixHeaders| && e.key !in s.prefixHeaders && Wanted(s, e.prefixes, e.key)
  }

  /**
   * Reading a listing keeps the prefix stack no deeper than the number of prefix keys, and every
   * entry it adds is well formed: the filters hold for its key under the prefixes of its line.
   */
  lemma {:induction false} ListInvariant(s: ListSettings, pat: ListPatterns, st: ListState, lines: seq<string>)
    requires |st.prefixes| <= |s.prefixHeaders|
    requires forall e :: e in st.entries ==> GoodEntry(s, e)
    ensures |ListFrom(s, pat, st, lines).prefixes| <= |s.prefixHeaders|
    ensures forall e :: e in ListFrom(s, pat, st, lines).entries ==> GoodEntry(s, e)
    ensures st.entries <= ListFrom(s, pat, st, lines).entries
    decreases |lines|
  {
    if lines != [] {
      var next := ListStep(s, pat, st, lines[0]);
      assert |next.prefixes| <= |s.prefixHeaders|;
      assert forall e :: e in next.entries ==> e in st.entries || GoodEntry(s, e);
      ListInvariant(s, pat, next, lines[1..]);
    }
  }

  /**
   * A prefix key at level `i` replaces the prefix at that level and drops the deeper ones: the
   * levels above it are kept (all of them when fewer than `i` are set, so the new prefix lands at
   * the top), and an entry that follows directly is read under exactly the new stack.
   */
  lemma PrefixKeyLine(s: ListSettings, pat: ListPatterns, st: ListState, line: string, i: nat)
    requires pat.lineMatch(line).Some? && |pat.lineMatch(line).value| == 2
    requires i < |s.prefixHeaders| && pat.lineMatch(line).value[0] == s.prefixHeaders[i]
    requires s.prefixHeaders[i] !in s.prefixHeaders[..i]
    ensures ListStep(s, pat, st, line).prefixes ==
              st.prefixes[..if i <= |st.prefixes| then i else |st.prefixes|] + [pat.lineMatch(line).value[1]]
    ensures ListStep(s, pat, st, line).entries == st.entries
  {
    assert FirstIndex(s.prefixHeaders, s.prefixHeaders[i]) == i;
  }

  /** The loop of `publish_list_stats` up to the number check: the entries, read with a prefix stack. */
  method ListStats(s: ListSettings, pat: ListPatterns, lines: seq<string>) returns (entries: seq<ListEntry>)
    ensures entries == ListFrom(s, pat, ListState([], []), lines).entries
    ensures forall e :: e in entries ==> GoodEntry(s, e)
  {
    ghost var goal := ListFrom(s, pat, ListState([], []), lines);
    var prefixes: seq<string> := [];
    entries := [];
    var i := 0;
    while i < |lines|
      invariant 0 <= i <= |lines|
      invariant ListFrom(s, pat, ListState(prefixes, entries), lines[i..]) == goal
    {
      assert lines[i..][0] == lines[i] && lines[i..][1..] == lines[i + 1..];
      var m := pat.lineMatch(lines[i]);
      if m.Some? && |m.value| == 2 {
        var key, value := m.value[0], m.value[1];
        if key in s.prefixHeaders {
          var index := FirstIndex(s.prefixHeaders, key);
          prefixes := prefixes[..if index <= |prefixes| then index else |prefixes|] + [value];
        } else if Wanted(s, prefixes, key) {
          var m2 := pat.numericSearch(value);
          if m2.Some? {
            value := m2.value;
          }
          entries := entries + [ListEntry(prefixes, key, value)];
        }
      }
      i := i + 1;
    }
    assert lines[|lines|..] == [];
    ListInvariant(s, pat, ListState([], []), lines);
  }

  /** The entries of a listing as the keys and values handed to `publish_if_number`. */
  function ListPublishEntries(command: string, entries: seq<ListEntry>): (r: seq<Entry>)
    ensures |r| == |entries|
    ensures forall j :: 0 <= j < |entries| ==> r[j] == Entry(ListEntryName(command, entries[j]), entries[j].value)
  {
    seq(|entries|, j requires 0 <= j < |entries| => Entry(ListEntryName(command, entries[j]), entries[j].value))
  }

  /** `publish_list_stats`: every wanted entry with a numeric value, under `command.prefixes….key`. */
  method PublishListStats(command: string, s: ListSettings, pat: ListPatterns, lines: seq<string>,
                          toFloat: string -> Option<real>)
    returns (points: seq<Point>)
    ensures points == Published(ListPublishEntries(command, ListFrom(s, pat, ListState([], []), lines).entries), toFloat)
  {
    var entries := ListStats(s, pat, lines);
    points := PublishAll(ListPublishEntries(command, entries), toFloat);
  }

  // ---------------------------------------------------------------------------------------------
  // Key-value listings with per-key value patterns (`publish_columnar_stats`)

  /**
   * The regular expressions of a columnar listing: the `key: value` match of a line (its groups)
   * and a search of a value with a given pattern (its first group).
   */
  datatype ColumnarPatterns = ColumnarPatterns(lineMatch: string -> Option<seq<string>>,
                                               search: (string, string) -> Option<string>)

  /** For the keys that have them, the (suffix, pattern) pairs that pull figures out of the value. */
  type ValueRegexes = map<string, seq<(string, string)>>

  /** The figures a key's patterns find in its value, each under `command.key` plus its suffix. */
  function ValueEntries(command: string, key: string, value: string, regexes: seq<(string, string)>,
                        search: (string, string) -> Option<string>): (r: seq<Entry>)
    ensures |r| <= |regexes|
    ensures forall e :: e in r <==>
              (exists j :: 0 <= j < |regexes| && search(regexes[j].1, value).Some? &&
                 e == Entry(command + "." + key + regexes[j].0, search(regexes[j].1, value).value))
  {
    if regexes == [] then []
    else
      var rest := ValueEntries(command, key, value, regexes[1..], search);
      assert forall j :: 1 <= j < |regexes| ==> regexes[1..][j - 1] == regexes[j];
      match search(regexes[0].1, value)
      case None => rest
      case Some(g) => [Entry(command + "." + key + regexes[0].0, g)] + rest
  }

  /** The dispatch for one line of a columnar listing. */
  function ColumnarLine(command: string, byKey: ValueRegexes, pat: ColumnarPatterns, line: string): seq<Entry>
  {
    match pat.lineMatch(line)
    case None => []
    case Some(groups) =>
      if |groups| != 2 then []
      else
        var key, value := groups[0], groups[1];
        if key in byKey then ValueEntries(command, key, value, byKey[key], pat.search)
        else [Entry(command + "." + key, value)]
  }

  /**
   * A key with value patterns publishes only what its patterns find, at most one figure per
   * pattern, each under `command.key` and the pattern's suffix; any other key publishes its whole
   * value under `command.key`; a line that does not match publishes nothing.
   */
  lemma ColumnarDispatch(command: string, byKey: ValueRegexes, pat: ColumnarPatterns, line: string)
    ensures pat.lineMatch(line).None? || |pat.lineMatch(line).value| != 2 ==> ColumnarLine(command, byKey, pat, line) == []
    ensures pat.lineMatch(line).Some? && |pat.lineMatch(line).value| == 2 ==>
              var key, value := pat.lineMatch(line).value[0], pat.lineMatch(line).value[1];
              var r := ColumnarLine(command, byKey, pat, line);
              (key !in byKey ==> r == [Entry(command + "." + key, value)]) &&
              (key in byKey ==>
                 |r| <= |byKey[key]| &&
                 forall e :: e in r ==> exists j :: 0 <= j < |byKey[key]| && e.key == command + "." + key + byKey[key][j].0)
  {
  }

  /** The columnar listing read line by line. */
  function ColumnarFrom(command: string, byKey: ValueRegexes, pat: ColumnarPatterns, lines: seq<string>): seq<Entry>
    decreases |lines|
  {
    if lines == [] then [] else ColumnarLine(command, byKey, pat, lines[0]) + ColumnarFrom(command, byKey, pat, lines[1..])
  }

  lemma ColumnarFromStep(command: string, byKey: ValueRegexes, pat: ColumnarPatterns, lines: seq<string>, i: nat)
    requires i < |lines|
    ensures ColumnarFrom(command, byKey, pat, lines[i..]) ==
              ColumnarLine(command, byKey, pat, lines[i]) + ColumnarFrom(command, byKey, pat, lines[i + 1..])
  {
    assert lines[i..][0] == lines[i] && lines[i..][1..] == lines[i + 1..];
  }

  /** `publish_columnar_stats`: each line's figures, checked for being numbers, in line order. */
  method PublishColumnarStats(command: string, byKey: ValueRegexes, pat: ColumnarPatterns, lines: seq<string>,
                              toFloat: string -> Option<real>)
    returns (points: seq<Point>)
    ensures points == Published(ColumnarFrom(command, byKey, pat, lines), toFloat)
  {
    var entries: seq<Entry> := [];
    var i := 0;
    while i < |lines|
      invariant 0 <= i <= |lines|
      invariant entries + ColumnarFrom(command, byKey, pat, lines[i..]) == ColumnarFrom(command, byKey, pat, lines)
    {
      ColumnarFromStep(command, byKey, pat, lines, i);
      entries := entries + ColumnarLine(command, byKey, pat, lines[i]);
      i := i + 1;
    }
    assert lines[|lines|..] == [];
    assert entries == ColumnarFrom(command, byKey, pat, lines);
    points := PublishAll(entries, toFloat);
  }

  // ---------------------------------------------------------------------------------------------
  // The fixed sequence of commands (`collect`)

  /** `netstats`: three lines of preamble, then a header row. */
  const NetstatsLayout: Layout := Layout({3}, {0, 1, 2})

  /** `tpstats`: a header row first, and a second table whose header is row 17. */
  const TpstatsLayout: Layout := Layout({0, 17}, {})

  const CacheRegexes: seq<(string, string)> := [
    (".size", "size (\\d+) \\(bytes\\)"),
    (".capacity", "capacity (\\d+) \\(bytes\\)"),
    (".hits", "(\\d+) hits"),
    (".requests", "(\\d+) requests"),
    (".recent hit rate", "([\\d\\.]+) recent hit rate")]

  /** The value patterns of `info`. */
  const InfoValueRegexes: ValueRegexes := map[
    "Load" := [("_GB", "([\\d\\.]+) GB")],
    "Heap Memory (MB)" := [("", "([\\d\\.]+) / [\\d\\.]+")],
    "Key Cache" := CacheRegexes,
    "Row Cache" := CacheRegexes]

  /** The `cfstats` listing: keyspace and column family levels, eight figures, two keyspaces left out. */
  const CfstatsSettings: ListSettings := ListSettings(
    ["Keyspace", "Column Family"],
    Some(["Read Count", "Read Latency", "Write Count", "Write Latency", "SSTable count",
          "Space used (total)", "Number of Keys (estimate)", "Pending Tasks"]),
    None,
    Some(["OpsCenter", "system"]))

  /** Neither fixed table can meet a data row before its header row, so neither parse raises. */
  lemma FixedTablesComplete(netstats: seq<string>, tpstats: seq<string>)
    ensures HeaderBeforeData(netstats, NetstatsLayout, 0)
    ensures HeaderBeforeData(tpstats, TpstatsLayout, 0)
  {
    forall j | 0 <= j < |netstats| && j !in NetstatsLayout.skipLines && j !in NetstatsLayout.rowHeaders
      ensures exists k :: 0 <= k < j && k in NetstatsLayout.rowHeaders && k !in NetstatsLayout.skipLines
    {
      assert 3 < j && 3 in NetstatsLayout.rowHeaders;
    }
    forall j | 0 <= j < |tpstats| && j !in TpstatsLayout.skipLines && j !in TpstatsLayout.rowHeaders
      ensures exists k :: 0 <= k < j && k in TpstatsLayout.rowHeaders && k !in TpstatsLayout.skipLines
    {
      assert 0 < j && 0 in TpstatsLayout.rowHeaders;
    }
  }

  /** The output of each `nodetool` command; `None` when running it fails. */
  datatype NodetoolOutputs = NodetoolOutputs(netstats: Option<seq<string>>, tpstats: Option<seq<string>>,
                                             info: Option<seq<string>>, cfstats: Option<seq<string>>)

  /** The regular expressions and number parsing `collect` relies on. */
  datatype NodetoolParsers = NodetoolParsers(split: string -> seq<string>, columnar: ColumnarPatterns,
                                             list: ListPatterns, toFloat: string -> Option<real>)

  /** What each command publishes when it runs. */
  ghost function NetstatsPoints(lines: seq<string>, p: NodetoolParsers): seq<Point>
  {
    Published(TableFrom(lines, "netstats", NetstatsLayout, p.split, 0, None).entries, p.toFloat)
  }

  ghost function TpstatsPoints(lines: seq<string>, p: NodetoolParsers): seq<Point>
  {
    Published(TableFrom(lines, "tpstats", TpstatsLayout, p.split, 0, None).entries, p.toFloat)
  }

  ghost function InfoPoints(lines: seq<string>, p: NodetoolParsers): seq<Point>
  {
    Published(ColumnarFrom("info", InfoValueRegexes, p.columnar, lines), p.toFloat)
  }

  ghost function CfstatsPoints(lines: seq<string>, p: NodetoolParsers): seq<Point>
  {
    Published(ListPublishEntries("cfstats", ListFrom(CfstatsSettings, p.list, ListState([], []), lines).entries), p.toFloat)
  }

  /**
   * `collect`: `netstats`, `tpstats`, `info` and `cfstats` in that order; the first command that
   * fails to run ends the cycle, and what the earlier ones published stands.
   */
  method Collect(out: NodetoolOutputs, p: NodetoolParsers) returns (points: seq<Point>)
    ensures out.netstats.None? ==> points == []
    ensures out.netstats.Some? && out.tpstats.None? ==> points == NetstatsPoints(out.netstats.value, p)
    ensures out.netstats.Some? && out.tpstats.Some? && out.info.None? ==>
              points == NetstatsPoints(out.netstats.value, p) + TpstatsPoints(out.tpstats.value, p)
    ensures out.netstats.Some? && out.tpstats.Some? && out.info.Some? && out.cfstats.None? ==>
              points == NetstatsPoints(out.netstats.value, p) + TpstatsPoints(out.tpstats.value, p) +
                        InfoPoints(out.info.value, p)
    ensures out.netstats.Some? && out.tpstats.Some? && out.info.Some? && out.cfstats.Some? ==>
              points == NetstatsPoints(out.netstats.value, p) + TpstatsPoints(out.tpstats.value, p) +
                        InfoPoints(out.info.value, p) + CfstatsPoints(out.cfstats.value, p)
  {
    points := [];
    if out.netstats.None? {
      return;
    }
    var netstats, completed := PublishTabularStats("netstats", out.netstats.value, NetstatsLayout, p.split, p.toFloat);
    points := netstats;
    if out.tpstats.None? {
      return;
    }
    FixedTablesComplete(out.netstats.value, out.tpstats.value);
    if !completed {
      assert false;
      return;
    }
    var tpstats;
    tpstats, completed := PublishTabularStats("tpstats", out.tpstats.value, TpstatsLayout, p.split, p.toFloat);
    points := netstats + tpstats;
    if out.info.None? || !completed {
      return;
    }
    var info := PublishColumnarStats("info", InfoValueRegexes, p.columnar, out.info.value, p.toFloat);
    points := netstats + tpstats + info;
    if out.cfstats.None? {
      return;
    }
    var cfstats := PublishListStats("cfstats", CfstatsSettings, p.list, out.cfstats.value, p.toFloat);
    points := netstats + tpstats + info + cfstats;
  }
}
