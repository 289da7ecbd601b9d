/** The meaning of caller resolution (callTree.py:201-320): which symbols
    findCaller answers for a call site, given the tables and the macro
    cache it starts with, and the cache it leaves behind.  The CallTree
    methods are proved to compute exactly these functions. */
module Resolve {

  import opened Errors
  import opened PyStr
  import opened Tags
  import opened Search

  /** What findCaller and findAllCaller read but never change: the GTAGS
      dictionary, the grouped GRTAGS references, GPATH, the two definition
      maps, the source files (path to lines), the blacklist and the
      show-position flag. */
  datatype Tables = Tables(
    definitions: map<string, seq<Record>>,
    references: map<string, seq<Record>>,
    pathMap: map<string, string>,
    definitionMap: LineIndex,
    functionDefinitionMap: LineIndex,
    files: map<string, seq<string>>,
    blacklist: seq<string>,
    showPosition: bool)

  /** The shape buildDefinitionMap gives both maps. */
  predicate Ready(t: Tables) {
    WellShaped(t.definitionMap) && WellShaped(t.functionDefinitionMap)
  }

  // ---- checkIsCallerMacro ----

  /** The source text of a GTAGS record (`dat.split(' ', 3)[3]`) is a define. */
  predicate IsMacroRecord(rec: Record) {
    match AfterSeparators(rec.dat, ' ', 3)
    case None => false
    case Some(code) => IsDefineMacro(code)
  }

  predicate HasMacroDefinition(defs: map<string, seq<Record>>, s: string) {
    s in defs && exists i :: 0 <= i < |defs[s]| && IsMacroRecord(defs[s][i])
  }

  /** Every cached verdict is the right one. */
  predicate CacheSound(defs: map<string, seq<Record>>, cache: map<string, bool>) {
    forall s :: s in cache ==> (cache[s] <==> HasMacroDefinition(defs, s))
  }

  /** The scan of one symbol's definitions (callTree.py:239-243): the first
      define macro answers true; a record with no 4th field on the way
      raises IndexError. */
  function ScanDefs(recs: seq<Record>): (r: Result<bool>)
    ensures r.Err? ==> r.error == IndexError
  {
    if recs == [] then Ok(false)
    else
      match AfterSeparators(recs[0].dat, ' ', 3)
      case None => Err(IndexError)
      case Some(code) => if IsDefineMacro(code) then Ok(true) else ScanDefs(recs[1..])
  }

  lemma {:induction false} ScanDefsMeaning(recs: seq<Record>)
    ensures ScanDefs(recs).Ok? ==>
              (ScanDefs(recs).value <==> exists i :: 0 <= i < |recs| && IsMacroRecord(recs[i]))
  {
    if recs != [] {
      ScanDefsMeaning(recs[1..]);
      assert forall i :: 0 < i < |recs| ==> recs[i] == recs[1..][i - 1];
    }
  }

  /** The scan raises IndexError exactly when a record without a 4th field
      comes before every define record. */
  lemma {:induction false} ScanDefsFails(recs: seq<Record>)
    ensures ScanDefs(recs).Err? <==>
              exists i :: 0 <= i < |recs| && AfterSeparators(recs[i].dat, ' ', 3).None?
                          && forall j :: 0 <= j < i ==> !IsMacroRecord(recs[j])
  {
    if recs != [] {
      ScanDefsFails(recs[1..]);
      assert forall i :: 0 < i < |recs| ==> recs[i] == recs[1..][i - 1];
    }
  }

  /** checkIsCallerMacro over `syms` starting from `cache`: the verdict and
      the cache afterwards.  Only a cached true short-cuts; a cached false
      scans the definitions again. */
  function MacroCheck(defs: map<string, seq<Record>>, cache: map<string, bool>, syms: seq<string>)
    : (r: Result<(bool, map<string, bool>)>)
    ensures r.Err? ==> r.error == IndexError
    decreases |syms|
  {
    if syms == [] then Ok((false, cache))
    else
      var s := syms[0];
      if s in cache && cache[s] then Ok((true, cache))
      else if s !in defs then Ok((false, cache[s := false]))
      else
        match ScanDefs(defs[s])
        case Err(e) => Err(e)
        case Ok(isMacro) =>
          if isMacro then Ok((true, cache[s := true]))
          else MacroCheck(defs, cache[s := false], syms[1..])
  }

  /** Some symbol reached before the first one without definitions has a
      define among its definitions. */
  predicate MacroBeforeUndefined(defs: map<string, seq<Record>>, syms: seq<string>)
    decreases |syms|
  {
    syms != [] && syms[0] in defs
    && (HasMacroDefinition(defs, syms[0]) || MacroBeforeUndefined(defs, syms[1..]))
  }

  /** From a sound cache, the macro test answers MacroBeforeUndefined and
      leaves a sound cache. */
  lemma {:induction false} MacroCheckSound(defs: map<string, seq<Record>>, cache: map<string, bool>,
                                           syms: seq<string>)
    requires CacheSound(defs, cache)
    requires MacroCheck(defs, cache, syms).Ok?
    ensures CacheSound(defs, MacroCheck(defs, cache, syms).value.1)
    ensures MacroCheck(defs, cache, syms).value.0 <==> MacroBeforeUndefined(defs, syms)
    decreases |syms|
  {
    if syms != [] {
      var s := syms[0];
      if s in defs && !(s in cache && cache[s]) {
        ScanDefsMeaning(defs[s]);
        if !ScanDefs(defs[s]).value {
          MacroCheckSound(defs, cache[s := false], syms[1..]);
        }
      }
    }
  }

  /** Meeting a symbol without definitions, after symbols that are defined
      but not macros, the test answers false and caches false for it. */
  lemma {:induction false} MacroCheckStopsAtUndefined(defs: map<string, seq<Record>>,
                                                      cache: map<string, bool>, syms: seq<string>, n: nat)
    requires CacheSound(defs, cache)
    requires n < |syms| && syms[n] !in defs
    requires forall m :: 0 <= m < n ==> syms[m] in defs && !HasMacroDefinition(defs, syms[m])
    requires MacroCheck(defs, cache, syms).Ok?
    ensures !MacroCheck(defs, cache, syms).value.0
    ensures syms[n] in MacroCheck(defs, cache, syms).value.1
    ensures !MacroCheck(defs, cache, syms).value.1[syms[n]]
    decreases n
  {
    var s := syms[0];
    if n > 0 {
      ScanDefsMeaning(defs[s]);
      assert !ScanDefs(defs[s]).value;
      var rest := syms[1..];
      assert forall m :: 0 <= m < n - 1 ==> rest[m] == syms[m + 1];
      MacroCheckSound(defs, cache, [s]);
      MacroCheckStopsAtUndefined(defs, cache[s := false], rest, n - 1);
    }
  }

  // ---- checkIsCalleeInCallerMacro ----

  /** Python's `xs[i]`, negative indexes counting from the end. */
  function PyIndex<T>(xs: seq<T>, i: int): T
    requires -|xs| <= i < |xs|
  {
    if i >= 0 then xs[i] else xs[|xs| + i]
  }

  /** A stripped line that continues onto the next one. */
  predicate Continued(line: string) {
    var s := Strip(line);
    s != [] && s[|s| - 1] == '\\'
  }

  /** The loop of callTree.py:211-220 from 0-based line `c`, looking for
      line `target`: each line is read (IndexError past the end) and
      stripped; reaching the target answers true; an empty line raises
      IndexError at `line[-1]`; a line ending in a backslash moves on. */
  function ContinuesTo(codes: seq<string>, c: int, target: int): Result<bool>
    decreases |codes| - c
  {
    if c < -|codes| || c >= |codes| then Err(IndexError)
    else if c == target then Ok(true)
    else
      var line := Strip(PyIndex(codes, c));
      if line == [] then Err(IndexError)
      else if line[|line| - 1] == '\\' then ContinuesTo(codes, c + 1, target)
      else Ok(false)
  }

  /** checkIsCalleeInCallerMacro: the file is found through GPATH
      (KeyError when the file id is unknown) and must exist
      (AssertionError otherwise). */
  function CalleeInMacro(t: Tables, fileSymbol: string, lineNumber: nat, callerLine: nat): Result<bool> {
    if lineNumber < 2 then Ok(false)
    else if fileSymbol !in t.pathMap then Err(KeyError)
    else if t.pathMap[fileSymbol] !in t.files then Err(AssertionError)
    else ContinuesTo(t.files[t.pathMap[fileSymbol]], callerLine as int - 1, lineNumber as int - 1)
  }

  /** From a line at or before the target, the answer is true iff the
      target line exists and every line from `c` up to (not including) the
      target is continued with a backslash. */
  lemma {:induction false} ContinuesToForward(codes: seq<string>, c: int, target: int)
    requires 0 <= c <= target
    ensures ContinuesTo(codes, c, target) == Ok(true) <==>
              target < |codes| && forall k :: c <= k < target ==> Continued(codes[k])
    decreases target - c
  {
    if c < target && c < |codes| && Continued(codes[c]) {
      ContinuesToForward(codes, c + 1, target);
    }
  }

  /** Starting after the target the scan only moves forward, so it never
      answers true. */
  lemma {:induction false} ContinuesToPastTarget(codes: seq<string>, c: int, target: int)
    requires c > target
    ensures ContinuesTo(codes, c, target) != Ok(true)
    decreases |codes| - c
  {
    if -|codes| <= c < |codes| && Continued(PyIndex(codes, c)) {
      ContinuesToPastTarget(codes, c + 1, target);
    }
  }

  /** Together: for a caller line n >= 1 and a call line m >= 2 the call
      sits in the caller's macro body iff n <= m, line m exists and lines
      n .. m-1 (1-based) all end in a backslash. */
  lemma CalleeInMacroMeaning(t: Tables, fileSymbol: string, lineNumber: nat, callerLine: nat)
    requires lineNumber >= 2 && callerLine >= 1
    requires fileSymbol in t.pathMap && t.pathMap[fileSymbol] in t.files
    ensures var codes := t.files[t.pathMap[fileSymbol]];
            CalleeInMacro(t, fileSymbol, lineNumber, callerLine) == Ok(true) <==>
              && callerLine <= lineNumber && lineNumber <= |codes|
              && forall k :: callerLine - 1 <= k < lineNumber - 1 ==> Continued(codes[k])
  {
    var codes := t.files[t.pathMap[fileSymbol]];
    if callerLine <= lineNumber {
      ContinuesToForward(codes, callerLine - 1, lineNumber - 1);
    } else {
      ContinuesToPastTarget(codes, callerLine - 1, lineNumber - 1);
    }
  }

  // ---- findCaller ----

  /** The definition line searchEngine picks in one file's line index. */
  ghost function NearestLine(lines: map<string, seq<string>>, lineNumber: nat): (v: nat)
    requires lines != map[] && forall l :: l in lines ==> IsNumeric(l)
    ensures IsNearest(LineValues(lines.Keys), lineNumber, v)
  {
    var l :| l in lines;
    assert IsNumeric(l);
    assert ParseNat(l) in LineValues(lines.Keys);
    Nearest(LineValues(lines.Keys), lineNumber)
  }

  /** The macro half of findCaller (callTree.py:296-297): whether the
      candidates at the nearest definition line `v` form a macro whose
      continued body holds the call, and the macro cache afterwards. */
  ghost function ResolveMacro(t: Tables, cache: map<string, bool>, fileSymbol: string, lineNumber: nat,
                              candidates: seq<string>, v: nat): Result<(bool, map<string, bool>)>
  {
    match MacroCheck(t.definitions, cache, candidates)
    case Err(e) => Err(e)
    case Ok(verdict) =>
      if !verdict.0 then Ok((false, verdict.1))
      else
        match CalleeInMacro(t, fileSymbol, lineNumber, v)
        case Err(e) => Err(e)
        case Ok(inBody) => Ok((inBody, verdict.1))
  }

  /** The fallback half of findCaller (callTree.py:300-320): the
      definitionMap symbols at the nearest function-definition line. */
  ghost function ResolveFallback(t: Tables, fileSymbol: string, lineNumber: nat): Result<Option<seq<string>>>
    requires Ready(t) && fileSymbol in t.definitionMap
  {
    if fileSymbol !in t.functionDefinitionMap then Ok(None)
    else
      var lines := t.definitionMap[fileSymbol];
      var w := NearestLine(t.functionDefinitionMap[fileSymbol], lineNumber);
      if NatToString(w) !in lines then Err(KeyError)
      else Ok(Some(lines[NatToString(w)]))
  }

  /** findCaller for a call at `lineNumber` in file `fileSymbol`: the
      symbols it answers (None when it finds none) and the macro cache
      afterwards. */
  ghost function ResolveCaller(t: Tables, cache: map<string, bool>, fileSymbol: string, lineNumber: nat)
    : Result<(Option<seq<string>>, map<string, bool>)>
    requires Ready(t)
  {
    if fileSymbol !in t.definitionMap then Ok((None, cache))
    else
      var lines := t.definitionMap[fileSymbol];
      var v := NearestLine(lines, lineNumber);
      if NatToString(v) !in lines then Err(KeyError)
      else
        ResolveAtLine(t, cache, fileSymbol, lineNumber, lines[NatToString(v)], v)
  }

  /** The rest of findCaller once the candidates at the nearest definition
      line `v` are known (callTree.py:296-320): the candidates when the
      macro half holds, the fallback otherwise. */
  ghost function ResolveAtLine(t: Tables, cache: map<string, bool>, fileSymbol: string, lineNumber: nat,
                               candidates: seq<string>, v: nat): Result<(Option<seq<string>>, map<string, bool>)>
    requires Ready(t) && fileSymbol in t.definitionMap
  {
    match ResolveMacro(t, cache, fileSymbol, lineNumber, candidates, v)
    case Err(e) => Err(e)
    case Ok(m) =>
      if m.0 then Ok((Some(candidates), m.1))
      else
        match ResolveFallback(t, fileSymbol, lineNumber)
        case Err(e) => Err(e)
        case Ok(o) => Ok((o, m.1))
  }

  /** The macro half at the nearest definition line of a file with
      definitions, when that line's key is present. */
  ghost function MacroAtNearest(t: Tables, cache: map<string, bool>, fileSymbol: string, lineNumber: nat)
    : Option<Result<(bool, map<string, bool>)>>
    requires Ready(t)
  {
    if fileSymbol !in t.definitionMap then None
    else
      var lines := t.definitionMap[fileSymbol];
      var v := NearestLine(lines, lineNumber);
      if NatToString(v) !in lines then None
      else Some(ResolveMacro(t, cache, fileSymbol, lineNumber, lines[NatToString(v)], v))
  }

  /** findCaller answers None exactly when the file has no definitions (the
      cache untouched), or when the macro half answers false and the file
      has no function definitions (the cache the macro test left). */
  lemma ResolveCallerNone(t: Tables, cache: map<string, bool>, fileSymbol: string, lineNumber: nat)
    requires Ready(t)
    ensures fileSymbol !in t.definitionMap ==> ResolveCaller(t, cache, fileSymbol, lineNumber) == Ok((None, cache))
    ensures forall c :: MacroAtNearest(t, cache, fileSymbol, lineNumber) == Some(Ok((false, c)))
                        && fileSymbol !in t.functionDefinitionMap
                        ==> ResolveCaller(t, cache, fileSymbol, lineNumber) == Ok((None, c))
    ensures var r := ResolveCaller(t, cache, fileSymbol, lineNumber);
            r.Ok? && r.value.0.None? ==>
              || (fileSymbol !in t.definitionMap && r.value.1 == cache)
              || (fileSymbol !in t.functionDefinitionMap
                  && MacroAtNearest(t, cache, fileSymbol, lineNumber) == Some(Ok((false, r.value.1))))
  {
  }

  /** findCaller answers the candidates of the nearest definition line only
      when they form a macro whose continued body holds the call; otherwise
      it answers the definitionMap symbols at the nearest function line. */
  lemma ResolveCallerSome(t: Tables, cache: map<string, bool>, fileSymbol: string, lineNumber: nat)
    requires Ready(t)
    ensures var r := ResolveCaller(t, cache, fileSymbol, lineNumber);
            r.Ok? && r.value.0.Some? ==>
              && fileSymbol in t.definitionMap
              && var lines := t.definitionMap[fileSymbol];
                 || (exists v :: IsNearest(LineValues(lines.Keys), lineNumber, v)
                      && NatToString(v) in lines && r.value.0.value == lines[NatToString(v)]
                      && MacroCheck(t.definitions, cache, lines[NatToString(v)]) == Ok((true, r.value.1))
                      && CalleeInMacro(t, fileSymbol, lineNumber, v) == Ok(true))
                 || (fileSymbol in t.functionDefinitionMap
                      && exists w :: IsNearest(LineValues(t.functionDefinitionMap[fileSymbol].Keys), lineNumber, w)
                           && NatToString(w) in lines && r.value.0.value == lines[NatToString(w)])
  {
    if fileSymbol in t.definitionMap {
      var lines := t.definitionMap[fileSymbol];
      var v := NearestLine(lines, lineNumber);
      if NatToString(v) in lines {
        var candidates := lines[NatToString(v)];
        var m := ResolveMacro(t, cache, fileSymbol, lineNumber, candidates, v);
        if m.Ok? && m.value.0 {
          ResolveMacroHolds(t, cache, fileSymbol, lineNumber, candidates, v);
        } else if m.Ok? {
          ResolveFallbackMeaning(t, fileSymbol, lineNumber);
        }
      }
    }
  }

  /** From a sound macro cache, findCaller leaves a sound cache. */
  lemma ResolveCallerKeepsCache(t: Tables, cache: map<string, bool>, fileSymbol: string, lineNumber: nat)
    requires Ready(t) && CacheSound(t.definitions, cache)
    ensures var r := ResolveCaller(t, cache, fileSymbol, lineNumber);
            r.Ok? ==> CacheSound(t.definitions, r.value.1)
  {
    if fileSymbol in t.definitionMap {
      var lines := t.definitionMap[fileSymbol];
      var v := NearestLine(lines, lineNumber);
      if NatToString(v) in lines && MacroCheck(t.definitions, cache, lines[NatToString(v)]).Ok? {
        MacroCheckSound(t.definitions, cache, lines[NatToString(v)]);
      }
    }
  }

  /** From a sound macro cache, the candidates findCaller answers from the
      macro half really have a define among the definitions of a symbol
      reached before the first undefined one. */
  lemma ResolveCallerSound(t: Tables, cache: map<string, bool>, fileSymbol: string, lineNumber: nat)
    requires Ready(t) && CacheSound(t.definitions, cache)
    ensures var r := ResolveCaller(t, cache, fileSymbol, lineNumber);
            r.Ok? && r.value.0.Some? ==>
              && fileSymbol in t.definitionMap
              && var lines := t.definitionMap[fileSymbol];
                 || (exists v :: IsNearest(LineValues(lines.Keys), lineNumber, v)
                      && NatToString(v) in lines && r.value.0.value == lines[NatToString(v)]
                      && MacroBeforeUndefined(t.definitions, lines[NatToString(v)])
                      && CalleeInMacro(t, fileSymbol, lineNumber, v) == Ok(true))
                 || (fileSymbol in t.functionDefinitionMap
                      && exists w :: IsNearest(LineValues(t.functionDefinitionMap[fileSymbol].Keys), lineNumber, w)
                           && NatToString(w) in lines && r.value.0.value == lines[NatToString(w)])
  {
    if fileSymbol in t.definitionMap {
      var lines := t.definitionMap[fileSymbol];
      var v := NearestLine(lines, lineNumber);
      if NatToString(v) in lines {
        ResolveAtLineSound(t, cache, fileSymbol, lineNumber, lines[NatToString(v)], v);
        ResolveFallbackMeaning(t, fileSymbol, lineNumber);
      }
    }
  }

  /** The same once the candidates at line `v` are known: the macro half's
      answer is the candidates of a real macro, anything else the
      fallback's. */
  lemma ResolveAtLineSound(t: Tables, cache: map<string, bool>, fileSymbol: string, lineNumber: nat,
                           candidates: seq<string>, v: nat)
    requires Ready(t) && fileSymbol in t.definitionMap && CacheSound(t.definitions, cache)
    ensures var r := ResolveAtLine(t, cache, fileSymbol, lineNumber, candidates, v);
            r.Ok? && r.value.0.Some? ==>
              || (&& r.value.0.value == candidates
                  && MacroBeforeUndefined(t.definitions, candidates)
                  && CalleeInMacro(t, fileSymbol, lineNumber, v) == Ok(true))
              || ResolveFallback(t, fileSymbol, lineNumber) == Ok(r.value.0)
  {
    if MacroCheck(t.definitions, cache, candidates).Ok? {
      MacroCheckSound(t.definitions, cache, candidates);
    }
  }

  /** The macro half answers true only for a macro whose continued body
      holds the call. */
  lemma ResolveMacroHolds(t: Tables, cache: map<string, bool>, fileSymbol: string, lineNumber: nat,
                          candidates: seq<string>, v: nat)
    ensures var m := ResolveMacro(t, cache, fileSymbol, lineNumber, candidates, v);
            m.Ok? && m.value.0 ==>
              && MacroCheck(t.definitions, cache, candidates) == Ok((true, m.value.1))
              && CalleeInMacro(t, fileSymbol, lineNumber, v) == Ok(true)
  {
  }

  /** The fallback answers the symbols at a nearest function-definition line. */
  lemma ResolveFallbackMeaning(t: Tables, fileSymbol: string, lineNumber: nat)
    requires Ready(t) && fileSymbol in t.definitionMap
    ensures var o := ResolveFallback(t, fileSymbol, lineNumber);
            var lines := t.definitionMap[fileSymbol];
            o.Ok? && o.value.Some? ==>
              && fileSymbol in t.functionDefinitionMap
              && exists w :: IsNearest(LineValues(t.functionDefinitionMap[fileSymbol].Keys), lineNumber, w)
                   && NatToString(w) in lines && o.value.value == lines[NatToString(w)]
  {
    if fileSymbol in t.functionDefinitionMap {
      var w := NearestLine(t.functionDefinitionMap[fileSymbol], lineNumber);
      assert IsNearest(LineValues(t.functionDefinitionMap[fileSymbol].Keys), lineNumber, w);
    }
  }

  /** Numerals as `str` writes them: no leading zeros. */
  predicate CanonicalLines(ix: LineIndex) {
    forall f, l :: f in ix && l in ix[f] ==> IsCanonical(l)
  }

  /** With canonical line keys, `str(int(key))` gives the key back, so the
      lookup of callTree.py:294 finds the nearest line's symbols. */
  lemma NearestKeyPresent(lines: map<string, seq<string>>, lineNumber: nat)
    requires lines != map[] && forall l :: l in lines ==> IsNumeric(l) && IsCanonical(l)
    ensures NatToString(NearestLine(lines, lineNumber)) in lines
  {
    var v := NearestLine(lines, lineNumber);
    var l :| l in lines && AllDigits(l) && ParseNat(l) == v;
    NatToStringParse(l);
  }

  /** Both maps indexed from the same GTAGS rows, as buildDefinitionMap does. */
  predicate IndexedFrom(t: Tables, rows: seq<Row>) {
    t.definitionMap == TableIndex(rows) && t.functionDefinitionMap == TableIndex(FunctionRows(rows))
  }

  /** Every line of functionDefinitionMap[f] is a line of definitionMap[f]. */
  lemma FunctionLinesWithin(rows: seq<Row>, f: string, l: string)
    requires f in TableIndex(FunctionRows(rows)) && l in TableIndex(FunctionRows(rows))[f]
    ensures f in TableIndex(rows) && l in TableIndex(rows)[f]
  {
    TableIndexShape(FunctionRows(rows));
    var s := TableIndex(FunctionRows(rows))[f][l][0];
    FunctionIndexWithinIndex(rows, f, l, s);
  }

  /** The keys findCaller looks up in definitionMap[f]: the nearest
      definition line, and the nearest function-definition line. */
  ghost predicate LookupsPresent(t: Tables, fileSymbol: string, lineNumber: nat)
    requires Ready(t)
  {
    fileSymbol in t.definitionMap ==>
      && NatToString(NearestLine(t.definitionMap[fileSymbol], lineNumber)) in t.definitionMap[fileSymbol]
      && (fileSymbol in t.functionDefinitionMap ==>
            NatToString(NearestLine(t.functionDefinitionMap[fileSymbol], lineNumber))
              in t.definitionMap[fileSymbol])
  }

  /** When both lookups find their key, the only KeyError findCaller can
      raise is the GPATH lookup of the macro test. */
  lemma KeyErrorFromPathOnly(t: Tables, cache: map<string, bool>, fileSymbol: string, lineNumber: nat)
    requires Ready(t) && LookupsPresent(t, fileSymbol, lineNumber)
    ensures ResolveCaller(t, cache, fileSymbol, lineNumber) == Err(KeyError) ==>
              && fileSymbol in t.definitionMap
              && CalleeInMacro(t, fileSymbol, lineNumber,
                               NearestLine(t.definitionMap[fileSymbol], lineNumber)) == Err(KeyError)
  {
  }

  /** When GTAGS writes line numbers canonically, both lookups of findCaller
      find their key (callTree.py:294, 318). */
  lemma ResolveLookupsSucceed(t: Tables, rows: seq<Row>, fileSymbol: string, lineNumber: nat)
    requires IndexedFrom(t, rows) && CanonicalLines(t.definitionMap)
    ensures Ready(t)
    ensures LookupsPresent(t, fileSymbol, lineNumber)
  {
    TableIndexShape(rows);
    TableIndexShape(FunctionRows(rows));
    if fileSymbol in t.definitionMap {
      var lines := t.definitionMap[fileSymbol];
      NearestKeyPresent(lines, lineNumber);
      if fileSymbol in t.functionDefinitionMap {
        var flines := t.functionDefinitionMap[fileSymbol];
        forall l | l in flines ensures l in lines && IsNumeric(l) && IsCanonical(l) {
          FunctionLinesWithin(rows, fileSymbol, l);
        }
        NearestKeyPresent(flines, lineNumber);
      }
    }
  }
}
