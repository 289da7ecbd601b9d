/** The CallTree class of callTree.py:26-389.  It loads the tag tables,
    builds the definition maps, and expands the caller tree of every root
    symbol, updating its `traversed` and `checkedMacro` fields as it goes.
    Each method is proved to compute the functions of Tags, LineNumbers,
    Resolve and Expansion. */
module Engine {

  import opened Errors
  import opened PyStr
  import opened Dicts
  import opened Tags
  import opened Search
  import opened LineNumbers
  import opened Resolve
  import opened Expansion

  /** The two loops of buildDefinitionMap (callTree.py:127-144, 150-167):
      for every symbol in key order and every record of it, the record's
      symbol is appended under its file id and numeric line. */
  method IndexByLine(keys: seq<string>, defs: map<string, seq<Record>>) returns (result: LineIndex)
    requires forall k :: k in keys ==> k in defs
    ensures result == DefinitionIndex(keys, defs)
  {
    result := map[];
    var i := 0;
    while i < |keys|
      invariant i <= |keys|
      invariant result == DefinitionIndex(keys[..i], defs)
    {
      var symbol := keys[i];
      var symbolInfos := defs[symbol];
      ghost var before := result;
      var j := 0;
      while j < |symbolInfos|
        invariant j <= |symbolInfos|
        invariant result == IndexRecords(before, symbol, symbolInfos[..j])
      {
        assert symbolInfos[..j + 1][..j] == symbolInfos[..j];
        result := AddDefinitionAt(result, symbol, symbolInfos[j]);
        j := j + 1;
      }
      assert symbolInfos[..j] == symbolInfos;
      assert keys[..i + 1][..i] == keys[..i];
      i := i + 1;
    }
    assert keys[..i] == keys;
  }

  /** One record of buildDefinitionMap's inner loop (callTree.py:129-145):
      a record whose dat has a numeric third field appends `symbol` to the
      list at that line of its file; any other record is skipped. */
  method AddDefinitionAt(index: LineIndex, symbol: string, symbolInfo: Record) returns (result: LineIndex)
    ensures result == AddDefinition(index, symbol, symbolInfo)
  {
    result := index;
    var fileSymbol := symbolInfo.fileId;
    var symbolInfoList := Split(symbolInfo.dat, ' ');
    if |symbolInfoList| >= 3 && IsNumeric(symbolInfoList[2]) {
      var lineNumber := symbolInfoList[2];
      assert LineField(symbolInfo.dat) == Some(lineNumber);
      ghost var inner := if fileSymbol in result then result[fileSymbol] else map[];
      ghost var entry := (if lineNumber in inner then inner[lineNumber] else []) + [symbol];
      if fileSymbol !in result {
        result := result[fileSymbol := map[]];
      }
      assert result[fileSymbol] == inner;
      if lineNumber in result[fileSymbol] {
        result := result[fileSymbol := result[fileSymbol][lineNumber := result[fileSymbol][lineNumber] + [symbol]]];
      } else {
        assert entry == [symbol];
        result := result[fileSymbol := result[fileSymbol][lineNumber := [symbol]]];
      }
      assert result == index[fileSymbol := inner[lineNumber := entry]];
    } else {
      assert LineField(symbolInfo.dat) == None;
    }
  }

  /** `for _caller in caller: refPosition[_caller] = position`. */
  method RecordPositions(refPosition: map<string, (string, nat)>, caller: seq<string>, position: (string, nat))
    returns (out: map<string, (string, nat)>)
    ensures out == MarkAll(refPosition, caller, position)
  {
    out := refPosition;
    var k := 0;
    while k < |caller|
      invariant k <= |caller|
      invariant MarkAll(refPosition, caller, position) == MarkAll(out, caller[k..], position)
    {
      assert caller[k..][1..] == caller[k + 1..];
      out := out[caller[k] := position];
      k := k + 1;
    }
  }

  /** `result[item[0]].append(item[1:])`, or `result[item[0]] = [item[1:]]`
      for a new key. */
  method AppendRecord(result: map<string, seq<Record>>, ghost rows: seq<Row>, item: Row)
    returns (result': map<string, seq<Record>>)
    requires result == Group(rows)
    ensures result' == Group(rows + [item])
  {
    GroupSnoc(rows, item);
    if item.key in result {
      result' := result[item.key := result[item.key] + [RecordOf(item)]];
    } else {
      assert [] + [RecordOf(item)] == [RecordOf(item)];
      result' := result[item.key := [RecordOf(item)]];
    }
  }

  /** The `while True` loop of checkIsCalleeInCallerMacro over the lines
      of the file, from 0-based line `c`. */
  method ScanContinuation(codes: seq<string>, c: int, target: int) returns (r: Result<bool>)
    ensures r == ContinuesTo(codes, c, target)
  {
    var callerLineNumber := c;
    while true
      invariant ContinuesTo(codes, callerLineNumber, target) == ContinuesTo(codes, c, target)
      decreases |codes| - callerLineNumber
    {
      if callerLineNumber < -|codes| || callerLineNumber >= |codes| {
        return Err(IndexError);
      }
      var line := Strip(PyIndex(codes, callerLineNumber));
      if callerLineNumber == target {
        return Ok(true);
      }
      if line == [] {
        return Err(IndexError);
      }
      if line[|line| - 1] == '\\' {
        callerLineNumber := callerLineNumber + 1;
        continue;
      }
      return Ok(false);
    }
  }

  /** The inner loop of checkIsCallerMacro (callTree.py:239-243): whether
      one symbol's definitions hold a define macro. */
  method ScanDefinitions(defInfos: seq<Record>) returns (r: Result<bool>)
    ensures r == ScanDefs(defInfos)
  {
    var j := 0;
    while j < |defInfos|
      invariant j <= |defInfos|
      invariant ScanDefs(defInfos) == ScanDefs(defInfos[j..])
    {
      assert defInfos[j..][1..] == defInfos[j + 1..];
      var originalCode := AfterSeparators(defInfos[j].dat, ' ', 3);
      if originalCode.None? {
        return Err(IndexError);
      }
      if IsDefineMacro(originalCode.value) {
        return Ok(true);
      }
      j := j + 1;
    }
    return Ok(false);
  }

  class CallTree {
    // The command-line options and the source files, fixed for the run.
    const blacklist: seq<string>
    const showPosition: bool
    const files: map<string, seq<string>>

    var symbols: seq<string>
    var traversed: map<string, set<string>>
    var checkedMacro: map<string, bool>
    var definitions: map<string, seq<Record>>
    var definitionOrder: seq<string>          // the key order of `definitions`
    var functionDefinitions: map<string, seq<Record>>
    var functionOrder: seq<string>            // the key order of `functionDefinitions`
    var references: map<string, seq<Record>>
    var pathMap: map<string, string>
    var definitionMap: LineIndex
    var functionDefinitionMap: LineIndex
    var trees: seq<(string, Tree)>

    /** The fields findCaller and findAllCaller only read. */
    function Tables(): Tables
      reads this`definitions, this`references, this`pathMap, this`definitionMap,
            this`functionDefinitionMap
    {
      Resolve.Tables(definitions, references, pathMap, definitionMap, functionDefinitionMap,
                     files, blacklist, showPosition)
    }

    /** The fields the expansion updates. */
    function Now(): State
      reads this`traversed, this`checkedMacro
    {
      State(traversed, checkedMacro)
    }

    /** Both definition maps have the shape buildDefinitionMap gives them. */
    predicate Valid()
      reads this`definitions, this`references, this`pathMap, this`definitionMap,
            this`functionDefinitionMap
    {
      Ready(Tables())
    }

    /** The key orders list keys of their dictionaries. */
    predicate Ordered()
      reads this`definitions, this`definitionOrder, this`functionDefinitions, this`functionOrder
    {
      && (forall k :: k in definitionOrder ==> k in definitions)
      && (forall k :: k in functionOrder ==> k in functionDefinitions)
    }

    /** __init__ up to its call of buildTree (callTree.py:44-55): the rows of
        GTAGS, GRTAGS and GPATH stand for the SQLite tables. */
    constructor (symbols: seq<string>, gtags: seq<Row>, grtags: seq<Row>, gpath: seq<Row>,
                 blacklist: seq<string>, showPosition: bool, files: map<string, seq<string>>)
      ensures Ordered()
      ensures this.symbols == symbols && this.blacklist == blacklist
      ensures this.showPosition == showPosition && this.files == files
      ensures traversed == map[] && checkedMacro == map[] && trees == []
      ensures definitions == Group(gtags) && definitionOrder == KeyOrder(gtags)
      ensures functionDefinitions == Group(FunctionRows(gtags))
      ensures functionOrder == KeyOrder(FunctionRows(gtags))
      ensures references == Group(grtags) && pathMap == PathTable(gpath)
    {
      this.blacklist := blacklist;
      this.showPosition := showPosition;
      this.files := files;
      this.symbols := symbols;
      traversed := map[];
      checkedMacro := map[];
      definitions := map[];
      definitionOrder := [];
      functionDefinitions := map[];
      functionOrder := [];
      references := map[];
      pathMap := map[];
      definitionMap := map[];
      functionDefinitionMap := map[];
      trees := [];
      new;
      Load(gtags, grtags, gpath);
    }

    /** The three loaders, in the order __init__ calls them (callTree.py:53-55). */
    method Load(gtags: seq<Row>, grtags: seq<Row>, gpath: seq<Row>)
      modifies this`definitions, this`definitionOrder, this`functionDefinitions, this`functionOrder,
               this`references, this`pathMap
      ensures Ordered()
      ensures definitions == Group(gtags) && definitionOrder == KeyOrder(gtags)
      ensures functionDefinitions == Group(FunctionRows(gtags))
      ensures functionOrder == KeyOrder(FunctionRows(gtags))
      ensures references == Group(grtags) && pathMap == PathTable(gpath)
    {
      LoadGtags(gtags);
      LoadRtags(grtags);
      LoadPath(gpath);
    }

    /** loadRtags: the GRTAGS rows grouped by symbol. */
    method LoadRtags(rows: seq<Row>)
      modifies this`references
      ensures references == Group(rows)
    {
      var result: map<string, seq<Record>> := map[];
      var i := 0;
      while i < |rows|
        invariant i <= |rows|
        invariant result == Group(rows[..i])
      {
        var item := rows[i];
        assert rows[..i + 1] == rows[..i] + [item];
        result := AppendRecord(result, rows[..i], item);
        i := i + 1;
      }
      assert rows[..i] == rows;
      references := result;
    }

    /** loadGtags: the GTAGS rows grouped by symbol, and separately the rows
        whose source text is present and not a define. */
    method LoadGtags(rows: seq<Row>)
      modifies this`definitions, this`definitionOrder, this`functionDefinitions, this`functionOrder
      ensures definitions == Group(rows) && definitionOrder == KeyOrder(rows)
      ensures functionDefinitions == Group(FunctionRows(rows))
      ensures functionOrder == KeyOrder(FunctionRows(rows))
      ensures Ordered()
    {
      var result: map<string, seq<Record>> := map[];
      var order: seq<string> := [];
      var functionResult: map<string, seq<Record>> := map[];
      var fOrder: seq<string> := [];
      var i := 0;
      while i < |rows|
        invariant i <= |rows|
        invariant result == Group(rows[..i]) && order == KeyOrder(rows[..i])
        invariant functionResult == Group(FunctionRows(rows[..i]))
        invariant fOrder == KeyOrder(FunctionRows(rows[..i]))
      {
        var item := rows[i];
        assert rows[..i + 1] == rows[..i] + [item];
        GroupSnoc(rows[..i], item);
        KeyOrderListsGroup(rows[..i]);
        if item.key !in result {
          order := order + [item.key];
        }
        result := AppendRecord(result, rows[..i], item);
        var sourceCode := AfterSeparators(item.dat, ' ', 3);
        if sourceCode.Some? && !IsDefineMacro(sourceCode.value) {
          ghost var fr := FunctionRows(rows[..i]);
          GroupSnoc(fr, item);
          KeyOrderListsGroup(fr);
          if item.key !in functionResult {
            fOrder := fOrder + [item.key];
          }
          functionResult := AppendRecord(functionResult, fr, item);
        }
        i := i + 1;
      }
      assert rows[..i] == rows;
      KeyOrderListsGroup(rows);
      KeyOrderListsGroup(FunctionRows(rows));
      definitions, definitionOrder := result, order;
      functionDefinitions, functionOrder := functionResult, fOrder;
    }

    /** loadPath: file id to path, the last row for a key winning. */
    method LoadPath(rows: seq<Row>)
      modifies this`pathMap
      ensures pathMap == PathTable(rows)
    {
      var result: map<string, string> := map[];
      var i := 0;
      while i < |rows|
        invariant i <= |rows|
        invariant result == PathTable(rows[..i])
      {
        var item := rows[i];
        assert rows[..i + 1] == rows[..i] + [item];
        GroupSnoc(rows[..i], item);
        result := result[item.key := item.dat];
        i := i + 1;
      }
      assert rows[..i] == rows;
      pathMap := result;
    }

    /** buildDefinitionMap: both maps, from `definitions` and from
        `functionDefinitions`, each in its key order. */
    method BuildDefinitionMap()
      requires Ordered()
      modifies this`definitionMap, this`functionDefinitionMap
      ensures definitionMap == DefinitionIndex(definitionOrder, definitions)
      ensures functionDefinitionMap == DefinitionIndex(functionOrder, functionDefinitions)
      ensures Valid()
    {
      definitionMap := IndexByLine(definitionOrder, definitions);
      functionDefinitionMap := IndexByLine(functionOrder, functionDefinitions);
      DefinitionIndexShape(definitionOrder, definitions);
      DefinitionIndexShape(functionOrder, functionDefinitions);
    }

    /** checkIsCalleeInCallerMacro, the file read from `files`. */
    method CheckIsCalleeInCallerMacro(fileSymbol: string, lineNumber: nat, callerLineNumber: nat, ghost t: Tables)
      returns (r: Result<bool>)
      requires t == Tables()
      ensures r == CalleeInMacro(t, fileSymbol, lineNumber, callerLineNumber)
    {
      if lineNumber < 2 {
        return Ok(false);
      }
      if fileSymbol !in pathMap {
        return Err(KeyError);
      }
      var filePath := pathMap[fileSymbol];
      if filePath !in files {
        return Err(AssertionError);
      }
      var codes := files[filePath];
      r := ScanContinuation(codes, callerLineNumber as int - 1, lineNumber as int - 1);
    }

    /** checkIsCallerMacro, with its cache in `checkedMacro`. */
    method CheckIsCallerMacro(syms: seq<string>, ghost defs: map<string, seq<Record>>) returns (r: Result<bool>)
      requires defs == definitions
      modifies this`checkedMacro
      ensures Tables() == old(Tables())
      ensures var spec := MacroCheck(defs, old(checkedMacro), syms);
              && (spec.Err? ==> r == Err(spec.error))
              && (spec.Ok? ==> r == Ok(spec.value.0) && checkedMacro == spec.value.1)
    {
      var result := false;
      var i := 0;
      while i < |syms|
        invariant i <= |syms| && !result
        invariant MacroCheck(defs, old(checkedMacro), syms) == MacroCheck(defs, checkedMacro, syms[i..])
      {
        var symbol := syms[i];
        assert syms[i..][1..] == syms[i + 1..];
        if symbol in checkedMacro {
          result := result || checkedMacro[symbol];
        }
        if result {
          return Ok(true);
        }
        if symbol !in definitions {
          checkedMacro := checkedMacro[symbol := false];
          return Ok(false);
        }
        var found := ScanDefinitions(definitions[symbol]);
        if found.Err? {
          return Err(found.error);
        }
        if found.value {
          checkedMacro := checkedMacro[symbol := true];
          return Ok(true);
        }
        checkedMacro := checkedMacro[symbol := false];
        i := i + 1;
      }
      return Ok(false);
    }

    /** The line numbers of one file's index, sorted, and the one
        searchEngine picks for `lineNumber`. */
    method NearestDefinition(lines: map<string, seq<string>>, lineNumber: nat) returns (callerLine: nat)
      requires lines != map[] && forall l :: l in lines ==> IsNumeric(l)
      ensures callerLine == NearestLine(lines, lineNumber)
    {
      var l :| l in lines;
      assert l in lines.Keys;
      var lineNumbers := SortedLineNumbers(lines.Keys);
      var middle := SearchEngine(lineNumbers, lineNumber);
      SearchFindsNearest(lineNumbers, lineNumber, middle);
      callerLine := lineNumbers[middle];
      NearestIs(LineValues(lines.Keys), lineNumber, callerLine);
    }

    /** findCaller: the symbols enclosing a call site, or None. */
    method FindCaller(fileSymbol: string, lineNumber: nat, ghost t: Tables) returns (r: Result<Option<seq<string>>>)
      requires t == Tables() && Ready(t)
      modifies this`checkedMacro
      ensures Tables() == t
      ensures var spec := ResolveCaller(t, old(checkedMacro), fileSymbol, lineNumber);
              && (spec.Err? ==> r == Err(spec.error))
              && (spec.Ok? ==> r == Ok(spec.value.0) && checkedMacro == spec.value.1)
    {
      if fileSymbol !in definitionMap {
        return Ok(None);
      }
      var definitions := definitionMap[fileSymbol];
      var callerLine := NearestDefinition(definitions, lineNumber);
      if NatToString(callerLine) !in definitions {
        return Err(KeyError);
      }
      r := CallerAtLine(fileSymbol, lineNumber, definitions[NatToString(callerLine)], callerLine, t);
    }

    /** findCaller from its macro test on (callTree.py:296-320). */
    method CallerAtLine(fileSymbol: string, lineNumber: nat, possibleCallerSymbol: seq<string>, callerLine: nat,
                        ghost t: Tables)
      returns (r: Result<Option<seq<string>>>)
      requires t == Tables() && Ready(t) && fileSymbol in t.definitionMap
      modifies this`checkedMacro
      ensures Tables() == t
      ensures var spec := ResolveAtLine(t, old(checkedMacro), fileSymbol, lineNumber, possibleCallerSymbol, callerLine);
              && (spec.Err? ==> r == Err(spec.error))
              && (spec.Ok? ==> r == Ok(spec.value.0) && checkedMacro == spec.value.1)
    {
      var inMacro := MacroCaller(fileSymbol, lineNumber, possibleCallerSymbol, callerLine, t);
      if inMacro.Err? {
        return Err(inMacro.error);
      }
      if inMacro.value {
        return Ok(Some(possibleCallerSymbol));
      }
      r := FunctionCaller(fileSymbol, lineNumber, t);
    }

    /** The macro test of findCaller (callTree.py:296-297). */
    method MacroCaller(fileSymbol: string, lineNumber: nat, candidates: seq<string>, callerLine: nat, ghost t: Tables)
      returns (r: Result<bool>)
      requires t == Tables() && Ready(t)
      modifies this`checkedMacro
      ensures Tables() == t
      ensures var spec := ResolveMacro(t, old(checkedMacro), fileSymbol, lineNumber, candidates, callerLine);
              && (spec.Err? ==> r == Err(spec.error))
              && (spec.Ok? ==> r == Ok(spec.value.0) && checkedMacro == spec.value.1)
    {
      var isMacro := CheckIsCallerMacro(candidates, t.definitions);
      if isMacro.Err? {
        return Err(isMacro.error);
      }
      if !isMacro.value {
        return Ok(false);
      }
      r := CheckIsCalleeInCallerMacro(fileSymbol, lineNumber, callerLine, t);
    }

    /** The function-definition fallback of findCaller (callTree.py:300-320). */
    method FunctionCaller(fileSymbol: string, lineNumber: nat, ghost t: Tables) returns (r: Result<Option<seq<string>>>)
      requires t == Tables() && Ready(t) && fileSymbol in t.definitionMap
      ensures r == ResolveFallback(t, fileSymbol, lineNumber)
    {
      if fileSymbol !in functionDefinitionMap {
        return Ok(None);
      }
      var definitions := definitionMap[fileSymbol];
      var functionLine := NearestDefinition(functionDefinitionMap[fileSymbol], lineNumber);
      if NatToString(functionLine) !in definitions {
        return Err(KeyError);
      }
      return Ok(Some(definitions[NatToString(functionLine)]));
    }

    /** The loop over one reference row's line numbers (callTree.py:350-357). */
    method CollectAtLines(fileSymbol: string, lineNumbers: seq<nat>, callers: seq<string>,
                          positions: map<string, (string, nat)>, ghost t: Tables)
      returns (r: Result<(seq<string>, map<string, (string, nat)>)>)
      requires t == Tables() && Ready(t)
      modifies this`checkedMacro
      ensures Tables() == t
      ensures var spec := CollectLines(t, fileSymbol, lineNumbers, 0,
                                       Collected(callers, positions, old(checkedMacro)));
              && (spec.Err? ==> r == Err(spec.error))
              && (spec.Ok? ==> r == Ok((spec.value.callers, spec.value.positions))
                               && checkedMacro == spec.value.cache)
    {
      var callerList := callers;
      var refPosition := positions;
      var j := 0;
      while j < |lineNumbers|
        invariant j <= |lineNumbers|
        invariant t == Tables()
        invariant CollectLines(t, fileSymbol, lineNumbers, 0, Collected(callers, positions, old(checkedMacro)))
                  == CollectLines(t, fileSymbol, lineNumbers, j, Collected(callerList, refPosition, checkedMacro))
      {
        CollectLinesNext(t, fileSymbol, lineNumbers, j, Collected(callerList, refPosition, checkedMacro));
        var lineNumber := lineNumbers[j];
        var caller := FindCaller(fileSymbol, lineNumber, t);
        if caller.Err? {
          return Err(caller.error);
        }
        if caller.value.Some? {
          refPosition := RecordPositions(refPosition, caller.value.value, (fileSymbol, lineNumber));
          callerList := callerList + caller.value.value;
        }
        j := j + 1;
      }
      return Ok((callerList, refPosition));
    }

    /** The first loop of findAllCaller (callTree.py:339-357): the callers
        found at every line of every reference, and where each was last seen. */
    method CollectCallers(refs: seq<Record>, ghost t: Tables) returns (r: Result<(seq<string>, map<string, (string, nat)>)>)
      requires t == Tables() && Ready(t)
      modifies this`checkedMacro
      ensures Tables() == t
      ensures var spec := CollectRefs(t, refs, 0, Collected([], map[], old(checkedMacro)));
              && (spec.Err? ==> r == Err(spec.error))
              && (spec.Ok? ==> r == Ok((spec.value.callers, spec.value.positions))
                               && checkedMacro == spec.value.cache)
    {
      var callerList: seq<string> := [];
      var refPosition: map<string, (string, nat)> := map[];
      var i := 0;
      while i < |refs|
        invariant i <= |refs|
        invariant t == Tables()
        invariant CollectRefs(t, refs, 0, Collected([], map[], old(checkedMacro)))
                  == CollectRefs(t, refs, i, Collected(callerList, refPosition, checkedMacro))
      {
        var found := CollectAtRow(refs[i], callerList, refPosition, t);
        if found.Err? {
          return Err(found.error);
        }
        callerList, refPosition := found.value.0, found.value.1;
        i := i + 1;
      }
      return Ok((callerList, refPosition));
    }

    /** One iteration of the first loop of findAllCaller (callTree.py:340-357):
        a reference row with fewer than 3 fields is skipped. */
    method CollectAtRow(rec: Record, callers: seq<string>, positions: map<string, (string, nat)>, ghost t: Tables)
      returns (r: Result<(seq<string>, map<string, (string, nat)>)>)
      requires t == Tables() && Ready(t)
      modifies this`checkedMacro
      ensures Tables() == t
      ensures var spec := CollectRow(t, rec, Collected(callers, positions, old(checkedMacro)));
              && (spec.Err? ==> r == Err(spec.error))
              && (spec.Ok? ==> r == Ok((spec.value.callers, spec.value.positions))
                               && checkedMacro == spec.value.cache)
    {
      var ref := Split(rec.dat, ' ');
      if |ref| < 3 {
        return Ok((callers, positions));
      }
      var lineNumbers := SplitLineNumbers(ref[2]);
      if lineNumbers.Err? {
        return Err(lineNumbers.error);
      }
      r := CollectAtLines(rec.fileId, lineNumbers.value, callers, positions, t);
    }

    /** findAllCaller: the caller tree of `symbol`. */
    method FindAllCaller(symbol: string, ghost t: Tables) returns (r: Result<Tree>)
      requires t == Tables() && Ready(t)
      modifies this`traversed, this`checkedMacro
      ensures Tables() == t
      ensures var spec := ExpandSymbol(t, old(Now()), symbol);
              && (spec.Err? ==> r == Err(spec.error))
              && (spec.Ok? ==> r == Ok(spec.value.0) && Now() == spec.value.1)
      decreases |t.references.Keys - traversed.Keys|, 1
    {
      if symbol in blacklist {
        return Ok(Blacklisted);
      }
      if symbol in traversed {
        return Ok(Traversed);
      }
      if symbol !in references {
        return Ok(Callers([]));
      }
      ghost var st := Now();
      var found := CollectCallers(references[symbol], t);
      if found.Err? {
        ExpandSymbolFails(t, st, symbol);
        return Err(found.error);
      }
      ExpandSymbolUnfolds(t, st, symbol, Collected(found.value.0, found.value.1, checkedMacro));
      r := ExpandCollectedCallers(symbol, found.value.0, found.value.1, t);
    }

    /** findAllCaller once the callers of `symbol` are collected
        (callTree.py:359-380): `symbol` is marked traversed with its
        callers, then the callers are expanded. */
    method ExpandCollectedCallers(symbol: string, callerList: seq<string>, refPosition: map<string, (string, nat)>,
                                  ghost t: Tables)
      returns (r: Result<Tree>)
      requires t == Tables() && Ready(t) && symbol in t.references && symbol !in traversed
      modifies this`traversed, this`checkedMacro
      ensures Tables() == t
      ensures var spec := ExpandCollected(t, old(Now()), symbol, Collected(callerList, refPosition, old(checkedMacro)));
              && (spec.Err? ==> r == Err(spec.error))
              && (spec.Ok? ==> r == Ok(spec.value.0) && Now() == spec.value.1)
      decreases |t.references.Keys - traversed.Keys|, 0
    {
      ghost var st := Now();
      ghost var marked := State(traversed[symbol := AsSet(callerList)], checkedMacro);
      ExpandCollectedUnfolds(t, st, symbol, Collected(callerList, refPosition, checkedMacro));
      MarkShrinks(t.references.Keys, st, symbol, AsSet(callerList), checkedMacro);
      traversed := traversed[symbol := AsSet(callerList)];
      assert Now() == marked;
      r := ExpandCallerList(callerList, refPosition, t);
    }

    /** The second loop of findAllCaller (callTree.py:359-380), over the
        callers collected, building the returned dictionary. */
    method ExpandCallerList(callerList: seq<string>, refPosition: map<string, (string, nat)>, ghost t: Tables)
      returns (r: Result<Tree>)
      requires t == Tables() && Ready(t)
      modifies this`traversed, this`checkedMacro
      ensures Tables() == t
      ensures var spec := ExpandCallers(t, old(Now()), callerList, refPosition, 0, []);
              && (spec.Err? ==> r == Err(spec.error))
              && (spec.Ok? ==> r == Ok(spec.value.0) && Now() == spec.value.1)
      decreases |t.references.Keys - traversed.Keys|, 3
    {
      var callerDict: seq<(string, Child)> := [];
      var i := 0;
      while i < |callerList|
        invariant i <= |callerList|
        invariant t == Tables()
        invariant |t.references.Keys - traversed.Keys| <= |t.references.Keys - old(traversed).Keys|
        invariant ExpandCallers(t, old(Now()), callerList, refPosition, 0, [])
                  == ExpandCallers(t, Now(), callerList, refPosition, i, callerDict)
      {
        ghost var st := Now();
        ghost var spec := ExpandStep(t, st, callerList[i], refPosition, callerDict);
        ExpandCallersNext(t, st, callerList, refPosition, i, callerDict);
        var step := ExpandCaller(callerList[i], refPosition, callerDict, t);
        if step.Err? {
          return Err(step.error);
        }
        assert spec.Ok? && Now() == spec.value.0;
        UntraversedMonotone(t.references.Keys, st.traversed.Keys, traversed.Keys);
        callerDict := step.value;
        i := i + 1;
      }
      return Ok(Callers(callerDict));
    }

    /** One iteration of the second loop of findAllCaller
        (callTree.py:361-378): the entry stored for `caller`, if any. */
    method ExpandCaller(caller: string, refPosition: map<string, (string, nat)>, callerDict: seq<(string, Child)>, ghost t: Tables)
      returns (r: Result<seq<(string, Child)>>)
      requires t == Tables() && Ready(t)
      modifies this`traversed, this`checkedMacro
      ensures Tables() == t
      ensures var spec := ExpandStep(t, old(Now()), caller, refPosition, callerDict);
              && (spec.Err? ==> r == Err(spec.error))
              && (spec.Ok? ==> r == Ok(spec.value.1) && Now() == spec.value.0)
      decreases |t.references.Keys - traversed.Keys|, 2
    {
      if caller in traversed {
        if caller in Keys(callerDict) {
          return Ok(callerDict);
        }
        if showPosition {
          if caller !in refPosition {
            return Err(KeyError);
          }
          var position := ToFileLine(Tables(), refPosition[caller].0, refPosition[caller].1);
          if position.Err? {
            return Err(position.error);
          }
          return Ok(Put(callerDict, caller, Positioned(position.value, Traversed)));
        }
        return Ok(Put(callerDict, caller, Bare(Traversed)));
      }
      if showPosition {
        if caller !in refPosition {
          return Err(KeyError);
        }
        var position := ToFileLine(Tables(), refPosition[caller].0, refPosition[caller].1);
        if position.Err? {
          return Err(position.error);
        }
        var sub := FindAllCaller(caller, t);
        if sub.Err? {
          return Err(sub.error);
        }
        return Ok(Put(callerDict, caller, Positioned(position.value, sub.value)));
      }
      var sub := FindAllCaller(caller, t);
      if sub.Err? {
        return Err(sub.error);
      }
      return Ok(Put(callerDict, caller, Bare(sub.value)));
    }

    /** buildTree: the definition maps, then one tree per root in `trees`. */
    method BuildTree() returns (r: Result<seq<(string, Tree)>>)
      requires Ordered()
      modifies this`trees, this`definitionMap, this`functionDefinitionMap, this`traversed, this`checkedMacro
      ensures definitionMap == DefinitionIndex(definitionOrder, definitions)
      ensures functionDefinitionMap == DefinitionIndex(functionOrder, functionDefinitions)
      ensures Valid()
      ensures var spec := ExpandRoots(Tables(), old(Now()), symbols, 0, []);
              && (spec.Err? ==> r == Err(spec.error))
              && (spec.Ok? ==> r == Ok(spec.value.0) && trees == spec.value.0 && Now() == spec.value.1)
    {
      trees := [];
      BuildDefinitionMap();
      r := ExpandRootList(Tables());
    }

    /** The loop of buildTree over the root symbols (callTree.py:387-389). */
    method ExpandRootList(ghost t: Tables) returns (r: Result<seq<(string, Tree)>>)
      requires t == Tables() && Ready(t) && trees == []
      modifies this`trees, this`traversed, this`checkedMacro
      ensures var spec := ExpandRoots(t, old(Now()), symbols, 0, []);
              && (spec.Err? ==> r == Err(spec.error))
              && (spec.Ok? ==> r == Ok(spec.value.0) && trees == spec.value.0 && Now() == spec.value.1)
    {
      var i := 0;
      while i < |symbols|
        invariant i <= |symbols|
        invariant t == Tables()
        invariant ExpandRoots(t, old(Now()), symbols, 0, []) == ExpandRoots(t, Now(), symbols, i, trees)
      {
        ExpandRootsNext(t, Now(), symbols, i, trees);
        var stored := ExpandRoot(symbols[i], t);
        if stored.Err? {
          return Err(stored.error);
        }
        i := i + 1;
      }
      return Ok(trees);
    }

    /** One iteration of buildTree's loop (callTree.py:388-389): the tree of
        `symbol`, stored in `trees`. */
    method ExpandRoot(symbol: string, ghost t: Tables) returns (r: Result<()>)
      requires t == Tables() && Ready(t)
      modifies this`trees, this`traversed, this`checkedMacro
      ensures Tables() == t
      ensures var spec := ExpandSymbol(t, old(Now()), symbol);
              && (spec.Err? ==> r == Err(spec.error))
              && (spec.Ok? ==> r == Ok(()) && trees == Put(old(trees), symbol, spec.value.0) && Now() == spec.value.1)
    {
      var tree := FindAllCaller(symbol, t);
      if tree.Err? {
        return Err(tree.error);
      }
      trees := Put(trees, symbol, tree.value);
      return Ok(());
    }
  }
}
