/** The GNU Global tag tables (GTAGS, GRTAGS, GPATH) once their rows have
    been read, and the dictionaries `CallTree` builds from them.
    A row is (key, dat, extra): for GTAGS the key is a defined symbol and dat
    reads "fileId symbol lineNumber sourceText"; for GRTAGS the key is a
    referenced symbol and dat reads "fileId symbol lineNumberList"; in both
    extra is the file id.  For GPATH the key maps to dat. */
module Tags {

  import opened Errors
  import opened PyStr
  import opened Dicts

  datatype Row = Row(key: string, dat: string, extra: string)

  /** `item[1:]`: a row without its key. */
  datatype Record = Record(dat: string, fileId: string)

  function RecordOf(r: Row): Record {
    Record(r.dat, r.extra)
  }

  function RowKeys(rows: seq<Row>): seq<string> {
    seq(|rows|, i requires 0 <= i < |rows| => rows[i].key)
  }

  // ---- grouping rows by key (loadGtags, loadRtags) ----

  /** The dictionary `result` after `result[item[0]].append(item[1:])`
      (or `result[item[0]] = [item[1:]]`) for every row in turn. */
  function Group(rows: seq<Row>): map<string, seq<Record>> {
    if rows == [] then map[]
    else
      var g := Group(rows[..|rows| - 1]);
      var r := rows[|rows| - 1];
      g[r.key := (if r.key in g then g[r.key] else []) + [RecordOf(r)]]
  }

  /** The order in which that dictionary's keys were first stored. */
  function KeyOrder(rows: seq<Row>): seq<string> {
    FirstOccurrences(RowKeys(rows))
  }

  /** The records of the rows with key `k`, in row order. */
  function RecordsWithKey(rows: seq<Row>, k: string): seq<Record> {
    if rows == [] then []
    else
      RecordsWithKey(rows[..|rows| - 1], k)
      + (if rows[|rows| - 1].key == k then [RecordOf(rows[|rows| - 1])] else [])
  }

  /** Grouping keeps, under each key, exactly that key's rows in their order. */
  lemma {:induction false} GroupIsFilter(rows: seq<Row>, k: string)
    ensures k in Group(rows) <==> RecordsWithKey(rows, k) != []
    ensures k in Group(rows) ==> Group(rows)[k] == RecordsWithKey(rows, k)
  {
    if rows != [] {
      GroupIsFilter(rows[..|rows| - 1], k);
    }
  }

  lemma {:induction false} RecordsWithKeyMembership(rows: seq<Row>, k: string, rec: Record)
    ensures rec in RecordsWithKey(rows, k) <==>
              exists i :: 0 <= i < |rows| && rows[i].key == k && RecordOf(rows[i]) == rec
  {
    if rows != [] {
      var p := rows[..|rows| - 1];
      var last := rows[|rows| - 1];
      var tail := if last.key == k then [RecordOf(last)] else [];
      RecordsWithKeyMembership(p, k, rec);
      assert RecordsWithKey(rows, k) == RecordsWithKey(p, k) + tail;
      assert rec in RecordsWithKey(rows, k) <==> rec in RecordsWithKey(p, k) || rec in tail;
      assert forall i :: 0 <= i < |p| ==> rows[i] == p[i];
      if rec in RecordsWithKey(p, k) {
        var i :| 0 <= i < |p| && p[i].key == k && RecordOf(p[i]) == rec;
        assert rows[i].key == k && RecordOf(rows[i]) == rec;
      } else if rec in tail {
        assert rows[|rows| - 1].key == k && RecordOf(rows[|rows| - 1]) == rec;
      } else {
        forall i | 0 <= i < |rows| && rows[i].key == k
          ensures RecordOf(rows[i]) != rec
        {
          if i < |p| {
            assert rows[i] == p[i];
          }
        }
      }
    }
  }

  /** A key is in the grouped dictionary iff some row carries it. */
  lemma {:induction false} GroupKeys(rows: seq<Row>, k: string)
    ensures k in Group(rows) <==> k in RowKeys(rows)
  {
    if rows != [] {
      var p := rows[..|rows| - 1];
      GroupKeys(p, k);
      assert RowKeys(rows) == RowKeys(p) + [rows[|rows| - 1].key];
    }
  }

  /** The recorded key order lists each key of the grouped dictionary once. */
  lemma KeyOrderListsGroup(rows: seq<Row>)
    ensures Distinct(KeyOrder(rows))
    ensures forall k :: k in KeyOrder(rows) <==> k in Group(rows)
  {
    forall k
      ensures k in KeyOrder(rows) <==> k in Group(rows)
    {
      GroupKeys(rows, k);
    }
  }

  // ---- define macros ----

  /** Python's `re.match(r'#\s*@d\s+@n', s)` succeeds: in GNU Global's
      compressed source text "@d" stands for "define" and "@n" for the
      defined name. */
  predicate IsDefineMacro(s: string) {
    |s| >= 1 && s[0] == '#' &&
    var i := 1 + SpaceRun(s[1..]);
    i + 2 <= |s| && s[i..i + 2] == "@d" &&
    var j := i + 2 + SpaceRun(s[i + 2..]);
    j > i + 2 && j + 2 <= |s| && s[j..j + 2] == "@n"
  }

  /** The pattern matched with the whitespace runs s[1..i] and s[i+2..j]. */
  ghost predicate MatchesDefineAt(s: string, i: nat, j: nat) {
    && 1 <= i && i + 2 < j && j + 2 <= |s|
    && s[0] == '#' && AllSpace(s[1..i])
    && s[i..i + 2] == "@d" && AllSpace(s[i + 2..j])
    && s[j..j + 2] == "@n"
  }

  lemma DefineMacroMatches(s: string)
    requires IsDefineMacro(s)
    ensures MatchesDefineAt(s, 1 + SpaceRun(s[1..]), 3 + SpaceRun(s[1..]) + SpaceRun(s[3 + SpaceRun(s[1..])..]))
  {
    var i := 1 + SpaceRun(s[1..]);
    var j := i + 2 + SpaceRun(s[i + 2..]);
    SpaceRunSpans(s[1..]);
    SpaceRunSpans(s[i + 2..]);
    assert s[1..][..i - 1] == s[1..i];
    assert s[i + 2..][..j - (i + 2)] == s[i + 2..j];
  }

  lemma MatchesDefineIsMacro(s: string, i: nat, j: nat)
    requires MatchesDefineAt(s, i, j)
    ensures IsDefineMacro(s)
  {
    assert s[1..][..i - 1] == s[1..i];
    assert s[i..i + 2][0] == s[i] == s[1..][i - 1];
    SpaceRunUnique(s[1..], i - 1);
    assert s[i + 2..][..j - (i + 2)] == s[i + 2..j];
    assert s[j..j + 2][0] == s[j] == s[i + 2..][j - (i + 2)];
    SpaceRunUnique(s[i + 2..], j - (i + 2));
  }

  /** The hand-written matcher accepts exactly the strings that start with
      '#', any whitespace, "@d", at least one whitespace, "@n". */
  lemma DefineMacroIsPattern(s: string)
    ensures IsDefineMacro(s) <==> exists i, j :: MatchesDefineAt(s, i, j)
  {
    if IsDefineMacro(s) {
      DefineMacroMatches(s);
    }
    if exists i, j :: MatchesDefineAt(s, i, j) {
      var i: nat, j: nat :| MatchesDefineAt(s, i, j);
      MatchesDefineIsMacro(s, i, j);
    }
  }

  /** loadGtags (callTree.py:87-94) also files a row under
      functionDefinitions when its dat has a 4th space-separated field
      (`split(' ', 3)` gives more than 3 pieces) that is not a define. */
  predicate IsFunctionRow(r: Row) {
    match AfterSeparators(r.dat, ' ', 3)
    case None => false
    case Some(code) => !IsDefineMacro(code)
  }

  function FunctionRows(rows: seq<Row>): seq<Row> {
    if rows == [] then []
    else
      var p := FunctionRows(rows[..|rows| - 1]);
      var r := rows[|rows| - 1];
      if IsFunctionRow(r) then p + [r] else p
  }

  /** The function rows are rows of the table that pass the test. */
  lemma {:induction false} FunctionRowsFilter(rows: seq<Row>)
    ensures forall i :: 0 <= i < |FunctionRows(rows)| ==>
              FunctionRows(rows)[i] in rows && IsFunctionRow(FunctionRows(rows)[i])
  {
    if rows != [] {
      var p := rows[..|rows| - 1];
      FunctionRowsFilter(p);
      assert forall x :: x in p ==> x in rows;
    }
  }

  // ---- the path table (loadPath) ----

  /** `result[item[0]] = item[1]` for every row in turn. */
  function PathTable(rows: seq<Row>): map<string, string> {
    if rows == [] then map[]
    else PathTable(rows[..|rows| - 1])[rows[|rows| - 1].key := rows[|rows| - 1].dat]
  }

  /** A key maps to the dat of the LAST row carrying it. */
  lemma {:induction false} PathTableLastWins(rows: seq<Row>, k: string)
    ensures k in PathTable(rows) <==> k in RowKeys(rows)
    ensures k in PathTable(rows) ==>
              exists i :: 0 <= i < |rows| && rows[i].key == k && PathTable(rows)[k] == rows[i].dat
                          && forall j :: i < j < |rows| ==> rows[j].key != k
  {
    if rows != [] {
      var p := rows[..|rows| - 1];
      var n := |rows| - 1;
      PathTableLastWins(p, k);
      assert RowKeys(rows) == RowKeys(p) + [rows[n].key];
      if rows[n].key != k && k in PathTable(p) {
        var i :| 0 <= i < |p| && p[i].key == k && PathTable(p)[k] == p[i].dat
                 && forall j :: i < j < |p| ==> p[j].key != k;
        assert rows[i] == p[i];
        assert forall j :: i < j < |rows| ==> rows[j].key != k by {
          forall j | i < j < |rows| ensures rows[j].key != k {
            if j < n {
              assert rows[j] == p[j];
            }
          }
        }
      }
    }
  }

  // ---- the definition maps (buildDefinitionMap) ----

  /** fileId -> line number (as written) -> symbols defined there. */
  type LineIndex = map<string, map<string, seq<string>>>

  /** The 3rd space-separated field of dat when it is numeric; any other
      record is skipped by buildDefinitionMap (callTree.py:131-136). */
  function LineField(dat: string): Option<string> {
    var fields := Split(dat, ' ');
    if |fields| < 3 || !IsNumeric(fields[2]) then None else Some(fields[2])
  }

  predicate Defines(rec: Record, f: string, l: string) {
    rec.fileId == f && LineField(rec.dat) == Some(l)
  }

  /** `s in index[f][l]`, with both lookups defined. */
  predicate Lists(ix: LineIndex, f: string, l: string, s: string) {
    f in ix && l in ix[f] && s in ix[f][l]
  }

  /** Every file has at least one line, every line is numeric and holds
      at least one symbol. */
  predicate WellShaped(ix: LineIndex) {
    forall f :: f in ix ==>
      ix[f] != map[] && forall l :: l in ix[f] ==> IsNumeric(l) && ix[f][l] != []
  }

  /** One step of the inner loop of buildDefinitionMap. */
  function AddDefinition(ix: LineIndex, symbol: string, rec: Record): LineIndex {
    match LineField(rec.dat)
    case None => ix
    case Some(l) =>
      var inner := if rec.fileId in ix then ix[rec.fileId] else map[];
      ix[rec.fileId := inner[l := (if l in inner then inner[l] else []) + [symbol]]]
  }

  /** The inner loop of buildDefinitionMap over one symbol's records. */
  function IndexRecords(ix: LineIndex, symbol: string, recs: seq<Record>): LineIndex {
    if recs == [] then ix
    else AddDefinition(IndexRecords(ix, symbol, recs[..|recs| - 1]), symbol, recs[|recs| - 1])
  }

  /** The whole loop of buildDefinitionMap over the symbols in key order. */
  function DefinitionIndex(keys: seq<string>, defs: map<string, seq<Record>>): LineIndex
    requires forall k :: k in keys ==> k in defs
  {
    if keys == [] then map[]
    else
      var k := keys[|keys| - 1];
      IndexRecords(DefinitionIndex(keys[..|keys| - 1], defs), k, defs[k])
  }

  /** definitionMap (or functionDefinitionMap) built from a GTAGS table. */
  function TableIndex(rows: seq<Row>): LineIndex {
    KeyOrderListsGroup(rows);
    DefinitionIndex(KeyOrder(rows), Group(rows))
  }

  lemma AddDefinitionShape(ix: LineIndex, symbol: string, rec: Record)
    requires WellShaped(ix)
    ensures WellShaped(AddDefinition(ix, symbol, rec))
  {
  }

  lemma {:induction false} IndexRecordsLists(ix: LineIndex, symbol: string, recs: seq<Record>,
                                             f: string, l: string, s: string)
    ensures Lists(IndexRecords(ix, symbol, recs), f, l, s) <==>
              Lists(ix, f, l, s) || (s == symbol && exists i :: 0 <= i < |recs| && Defines(recs[i], f, l))
  {
    if recs != [] {
      var p := recs[..|recs| - 1];
      IndexRecordsLists(ix, symbol, p, f, l, s);
      AddDefinitionLists(IndexRecords(ix, symbol, p), symbol, recs[|recs| - 1], f, l, s);
      assert forall i :: 0 <= i < |p| ==> p[i] == recs[i];
      if s == symbol && Defines(recs[|recs| - 1], f, l) {
        assert exists i :: 0 <= i < |recs| && Defines(recs[i], f, l);
      }
      if s == symbol && exists i :: 0 <= i < |recs| && Defines(recs[i], f, l) {
        var i :| 0 <= i < |recs| && Defines(recs[i], f, l);
        if i < |p| {
          assert Defines(p[i], f, l);
        }
      }
    }
  }

  /** One record adds `symbol` at its own line and nowhere else. */
  lemma AddDefinitionLists(ix: LineIndex, symbol: string, rec: Record, f: string, l: string, s: string)
    ensures Lists(AddDefinition(ix, symbol, rec), f, l, s) <==>
              Lists(ix, f, l, s) || (s == symbol && Defines(rec, f, l))
  {
  }

  lemma {:induction false} IndexRecordsShape(ix: LineIndex, symbol: string, recs: seq<Record>)
    requires WellShaped(ix)
    ensures WellShaped(IndexRecords(ix, symbol, recs))
  {
    if recs != [] {
      IndexRecordsShape(ix, symbol, recs[..|recs| - 1]);
      AddDefinitionShape(IndexRecords(ix, symbol, recs[..|recs| - 1]), symbol, recs[|recs| - 1]);
    }
  }

  lemma {:induction false} DefinitionIndexLists(keys: seq<string>, defs: map<string, seq<Record>>,
                                                f: string, l: string, s: string)
    requires forall k :: k in keys ==> k in defs
    ensures Lists(DefinitionIndex(keys, defs), f, l, s) <==>
              s in keys && exists i :: 0 <= i < |defs[s]| && Defines(defs[s][i], f, l)
  {
    if keys != [] {
      var p := keys[..|keys| - 1];
      var k := keys[|keys| - 1];
      assert forall x :: x in keys <==> x in p || x == k by {
        assert keys == p + [k];
      }
      DefinitionIndexLists(p, defs, f, l, s);
      IndexRecordsLists(DefinitionIndex(p, defs), k, defs[k], f, l, s);
    }
  }

  lemma {:induction false} DefinitionIndexShape(keys: seq<string>, defs: map<string, seq<Record>>)
    requires forall k :: k in keys ==> k in defs
    ensures WellShaped(DefinitionIndex(keys, defs))
  {
    if keys != [] {
      var p := keys[..|keys| - 1];
      assert forall x :: x in p ==> x in keys;
      DefinitionIndexShape(p, defs);
      IndexRecordsShape(DefinitionIndex(p, defs), keys[|keys| - 1], defs[keys[|keys| - 1]]);
    }
  }

  /** Symbol s is in definitionMap[f][l] iff s has a definition row in file
      f whose 3rd space-separated field is the numeral l. */
  lemma TableIndexLists(rows: seq<Row>, f: string, l: string, s: string)
    ensures Lists(TableIndex(rows), f, l, s) <==>
              exists i :: 0 <= i < |rows| && rows[i].key == s && Defines(RecordOf(rows[i]), f, l)
  {
    KeyOrderListsGroup(rows);
    DefinitionIndexLists(KeyOrder(rows), Group(rows), f, l, s);
    GroupIsFilter(rows, s);
    if Lists(TableIndex(rows), f, l, s) {
      var j :| 0 <= j < |Group(rows)[s]| && Defines(Group(rows)[s][j], f, l);
      var rec := Group(rows)[s][j];
      RecordsWithKeyMembership(rows, s, rec);
      var i :| 0 <= i < |rows| && rows[i].key == s && RecordOf(rows[i]) == rec;
    }
    if exists i :: 0 <= i < |rows| && rows[i].key == s && Defines(RecordOf(rows[i]), f, l) {
      var i :| 0 <= i < |rows| && rows[i].key == s && Defines(RecordOf(rows[i]), f, l);
      var rec := RecordOf(rows[i]);
      RecordsWithKeyMembership(rows, s, rec);
      var j :| 0 <= j < |RecordsWithKey(rows, s)| && RecordsWithKey(rows, s)[j] == rec;
      assert Defines(Group(rows)[s][j], f, l);
    }
  }

  lemma TableIndexShape(rows: seq<Row>)
    ensures WellShaped(TableIndex(rows))
  {
    KeyOrderListsGroup(rows);
    DefinitionIndexShape(KeyOrder(rows), Group(rows));
  }

  /** Every functionDefinitionMap[f][l] is part of definitionMap[f][l]: the
      function rows are some of the GTAGS rows.  This is what makes the
      lookup of callTree.py:318 find its line. */
  lemma FunctionIndexWithinIndex(rows: seq<Row>, f: string, l: string, s: string)
    requires Lists(TableIndex(FunctionRows(rows)), f, l, s)
    ensures Lists(TableIndex(rows), f, l, s)
  {
    var fr := FunctionRows(rows);
    FunctionRowsFilter(rows);
    TableIndexLists(fr, f, l, s);
    var i :| 0 <= i < |fr| && fr[i].key == s && Defines(RecordOf(fr[i]), f, l);
    var k :| 0 <= k < |rows| && rows[k] == fr[i];
    TableIndexLists(rows, f, l, s);
  }

  // ---- one row at a time, as the loading loops see the rows ----

  lemma GroupSnoc(rows: seq<Row>, r: Row)
    ensures Group(rows + [r]) ==
              Group(rows)[r.key := (if r.key in Group(rows) then Group(rows)[r.key] else []) + [RecordOf(r)]]
    ensures KeyOrder(rows + [r]) ==
              if r.key in KeyOrder(rows) then KeyOrder(rows) else KeyOrder(rows) + [r.key]
    ensures PathTable(rows + [r]) == PathTable(rows)[r.key := r.dat]
    ensures FunctionRows(rows + [r]) == FunctionRows(rows) + (if IsFunctionRow(r) then [r] else [])
  {
    var xs := rows + [r];
    assert xs[..|rows|] == rows;
    assert RowKeys(xs) == RowKeys(rows) + [r.key];
    FirstOccurrencesPrefix(RowKeys(xs), |rows|);
    assert RowKeys(xs)[..|rows|] == RowKeys(rows);
    assert RowKeys(xs)[..|rows| + 1] == RowKeys(xs);
  }
}
