/** The meaning of findAllCaller and buildTree (callTree.py:322-389): the
    caller tree of a symbol, with the `traversed` map and the macro cache
    threaded through the whole run, so that a symbol expanded under one
    root is only marked under every later one. */
module Expansion {

  import opened Errors
  import opened PyStr
  import opened Dicts
  import opened Tags
  import opened LineNumbers
  import opened Resolve

  /** toFileLine's "File: <path>, Line <n>"; its text is not modelled. */
  datatype Position = Position(path: string, line: nat)

  /** A value of the returned dictionaries: a marker, or a dictionary from
      caller to child in insertion order. */
  datatype Tree =
    | Blacklisted
    | Traversed
    | Callers(entries: seq<(string, Child)>)

  /** With --show_position a child is {'position': ..., 'caller': ...};
      without it, the subtree itself. */
  datatype Child =
    | Bare(tree: Tree)
    | Positioned(position: Position, tree: Tree)

  /** The mutable part of CallTree during the expansion: `traversed`
      (symbol to the set of its callers) and `checkedMacro`. */
  datatype State = State(traversed: map<string, set<string>>, cache: map<string, bool>)

  /** The locals of the first loop of findAllCaller: callerList,
      refPosition, and the macro cache after the lookups so far. */
  datatype Collected = Collected(callers: seq<string>, positions: map<string, (string, nat)>,
                                 cache: map<string, bool>)

  function AsSet(xs: seq<string>): set<string> {
    set x | x in xs
  }

  /** toFileLine: KeyError when GPATH does not know the file id. */
  function ToFileLine(t: Tables, fileSymbol: string, lineNumber: nat): Result<Position> {
    if fileSymbol !in t.pathMap then Err(KeyError) else Ok(Position(t.pathMap[fileSymbol], lineNumber))
  }

  /** `for _caller in caller: refPosition[_caller] = p`. */
  function MarkAll(positions: map<string, (string, nat)>, cs: seq<string>, p: (string, nat))
    : (r: map<string, (string, nat)>)
    ensures forall c :: c in r <==> c in positions || c in cs
    ensures forall c :: c in cs ==> r[c] == p
    ensures forall c :: c in positions && c !in cs ==> r[c] == positions[c]
    decreases |cs|
  {
    if cs == [] then positions
    else
      var r := MarkAll(positions[cs[0] := p], cs[1..], p);
      assert forall c :: c in cs <==> c == cs[0] || c in cs[1..];
      r
  }

  // ---- the first loop of findAllCaller (callTree.py:339-357) ----

  /** The lookups for one reference row's decoded lines, from line i on. */
  ghost function CollectLines(t: Tables, fileSymbol: string, lines: seq<nat>, i: nat, acc: Collected)
    : Result<Collected>
    requires Ready(t)
    decreases |lines| - i
  {
    if i >= |lines| then Ok(acc)
    else
      match ResolveCaller(t, acc.cache, fileSymbol, lines[i])
      case Err(e) => Err(e)
      case Ok(found) =>
        match found.0
        case None => CollectLines(t, fileSymbol, lines, i + 1, acc.(cache := found.1))
        case Some(cs) =>
          CollectLines(t, fileSymbol, lines, i + 1,
                       Collected(acc.callers + cs, MarkAll(acc.positions, cs, (fileSymbol, lines[i])), found.1))
  }

  /** The reference rows of a symbol from row i on: a row whose dat has
      fewer than 3 space-separated fields is skipped; the 3rd field is
      decoded by splitLineNumbers. */
  ghost function CollectRefs(t: Tables, refs: seq<Record>, i: nat, acc: Collected): Result<Collected>
    requires Ready(t)
    decreases |refs| - i
  {
    if i >= |refs| then Ok(acc)
    else
      match CollectRow(t, refs[i], acc)
      case Err(e) => Err(e)
      case Ok(acc1) => CollectRefs(t, refs, i + 1, acc1)
  }

  /** One step of CollectLines: the lookup at line i, then the rest. */
  lemma CollectLinesNext(t: Tables, fileSymbol: string, lines: seq<nat>, i: nat, acc: Collected)
    requires Ready(t) && i < |lines|
    ensures var found := ResolveCaller(t, acc.cache, fileSymbol, lines[i]);
            && (found.Err? ==> CollectLines(t, fileSymbol, lines, i, acc) == Err(found.error))
            && (found.Ok? && found.value.0.None? ==>
                  CollectLines(t, fileSymbol, lines, i, acc)
                  == CollectLines(t, fileSymbol, lines, i + 1, acc.(cache := found.value.1)))
            && (found.Ok? && found.value.0.Some? ==>
                  CollectLines(t, fileSymbol, lines, i, acc)
                  == CollectLines(t, fileSymbol, lines, i + 1,
                                  Collected(acc.callers + found.value.0.value,
                                            MarkAll(acc.positions, found.value.0.value, (fileSymbol, lines[i])),
                                            found.value.1)))
  {
  }

  /** One reference row: skipped (nothing changes) when its dat has fewer
      than 3 fields, otherwise the lookups for its decoded lines. */
  ghost function CollectRow(t: Tables, rec: Record, acc: Collected): Result<Collected>
    requires Ready(t)
  {
    var fields := Split(rec.dat, ' ');
    if |fields| < 3 then Ok(acc)
    else
      match Decode(fields[2])
      case Err(e) => Err(e)
      case Ok(lines) => CollectLines(t, rec.fileId, lines, 0, acc)
  }

  /** Every caller collected has a recorded position, so the lookups
      refPosition[caller] of callTree.py:366 and 374 never fail. */
  lemma {:induction false} CollectLinesCovers(t: Tables, fileSymbol: string, lines: seq<nat>, i: nat,
                                              acc: Collected)
    requires Ready(t)
    requires forall c :: c in acc.callers ==> c in acc.positions
    requires CollectLines(t, fileSymbol, lines, i, acc).Ok?
    ensures var r := CollectLines(t, fileSymbol, lines, i, acc).value;
            forall c :: c in r.callers ==> c in r.positions
    decreases |lines| - i
  {
    if i < |lines| {
      var found := ResolveCaller(t, acc.cache, fileSymbol, lines[i]).value;
      if found.0.None? {
        CollectLinesCovers(t, fileSymbol, lines, i + 1, acc.(cache := found.1));
      } else {
        var cs := found.0.value;
        var acc1 := Collected(acc.callers + cs, MarkAll(acc.positions, cs, (fileSymbol, lines[i])), found.1);
        assert forall c :: c in acc1.callers ==> c in acc.callers || c in cs;
        CollectLinesCovers(t, fileSymbol, lines, i + 1, acc1);
      }
    }
  }

  lemma {:induction false} CollectRefsCovers(t: Tables, refs: seq<Record>, i: nat, acc: Collected)
    requires Ready(t)
    requires forall c :: c in acc.callers ==> c in acc.positions
    requires CollectRefs(t, refs, i, acc).Ok?
    ensures var r := CollectRefs(t, refs, i, acc).value;
            forall c :: c in r.callers ==> c in r.positions
    decreases |refs| - i
  {
    if i < |refs| {
      var fields := Split(refs[i].dat, ' ');
      if |fields| >= 3 {
        CollectLinesCovers(t, refs[i].fileId, Decode(fields[2]).value, 0, acc);
      }
      CollectRefsCovers(t, refs, i + 1, CollectRow(t, refs[i], acc).value);
    }
  }

  // ---- the recursion (callTree.py:325-380) ----

  lemma {:induction false} SubsetSize<T>(a: set<T>, b: set<T>)
    requires a <= b
    ensures |a| <= |b|
    decreases |a|
  {
    if a != {} {
      var x :| x in a;
      SubsetSize(a - {x}, b - {x});
    }
  }

  /** Marking a further symbol of `refs` as traversed shrinks the set of
      references not yet traversed. */
  lemma UntraversedShrinks(refs: set<string>, done: set<string>, s: string)
    requires s in refs && s !in done
    ensures |refs - (done + {s})| < |refs - done|
  {
    assert refs - (done + {s}) == (refs - done) - {s};
  }

  lemma UntraversedMonotone(refs: set<string>, done: set<string>, more: set<string>)
    requires done <= more
    ensures |refs - more| <= |refs - done|
  {
    SubsetSize(refs - more, refs - done);
  }

  /** Entries already in `traversed` stay, with the same value. */
  predicate Extends(st: State, st1: State) {
    && st.traversed.Keys <= st1.traversed.Keys
    && forall k :: k in st.traversed ==> st1.traversed[k] == st.traversed[k]
  }

  lemma ExtendsTransitive(a: State, b: State, c: State)
    requires Extends(a, b) && Extends(b, c)
    ensures Extends(a, c)
  {
  }

  lemma ExtendsKeys(a: State, b: State)
    requires Extends(a, b)
    ensures a.traversed.Keys <= b.traversed.Keys
    ensures forall k :: k in a.traversed ==> b.traversed[k] == a.traversed[k]
  {
    forall k | k in a.traversed
      ensures k in b.traversed && b.traversed[k] == a.traversed[k]
    {
      assert (k, a.traversed[k]) in a.traversed.Items;
    }
  }

  /** refPosition[caller] passed to toFileLine. */
  function PositionOf(t: Tables, positions: map<string, (string, nat)>, c: string): Result<Position> {
    if c !in positions then Err(KeyError) else ToFileLine(t, positions[c].0, positions[c].1)
  }

  /** findAllCaller(s) from state `st`: the tree and the state afterwards.
      The blacklist is tested first, then `traversed`, then `references`. */
  ghost function ExpandSymbol(t: Tables, st: State, s: string): (r: Result<(Tree, State)>)
    requires Ready(t)
    ensures r.Ok? ==> Extends(st, r.value.1)
    decreases |t.references.Keys - st.traversed.Keys|, 1
  {
    if s in t.blacklist then Ok((Blacklisted, st))
    else if s in st.traversed then Ok((Traversed, st))
    else if s !in t.references then Ok((Callers([]), st))
    else
      match CollectRefs(t, t.references[s], 0, Collected([], map[], st.cache))
      case Err(e) => Err(e)
      case Ok(c) => ExpandCollected(t, st, s, c)
  }

  /** The rest of findAllCaller once the callers of `s` are collected:
      `traversed[s]` is set before any caller is expanded. */
  ghost function ExpandCollected(t: Tables, st: State, s: string, c: Collected): (r: Result<(Tree, State)>)
    requires Ready(t) && s in t.references && s !in st.traversed
    ensures r.Ok? ==> Extends(st, r.value.1)
    decreases |t.references.Keys - st.traversed.Keys|, 0
  {
    var st1 := State(st.traversed[s := AsSet(c.callers)], c.cache);
    MarkShrinks(t.references.Keys, st, s, AsSet(c.callers), c.cache);
    var r := ExpandCallers(t, st1, c.callers, c.positions, 0, []);
    if r.Ok? then ExtendsTransitive(st, st1, r.value.1); r else r
  }

  /** Marking an untraversed referenced symbol keeps what was traversed and
      leaves fewer referenced symbols untraversed. */
  lemma MarkShrinks(refs: set<string>, st: State, s: string, callers: set<string>, cache: map<string, bool>)
    requires s in refs && s !in st.traversed
    ensures var st1 := State(st.traversed[s := callers], cache);
            && Extends(st, st1)
            && |refs - st1.traversed.Keys| < |refs - st.traversed.Keys|
  {
    assert st.traversed[s := callers].Keys == st.traversed.Keys + {s};
    UntraversedShrinks(refs, st.traversed.Keys, s);
  }

  /** One iteration of the second loop of findAllCaller, for caller `c`:
      the state and the dictionary afterwards.  A caller already traversed
      is marked @Traversed unless it is already a key; any other caller is
      expanded and stored, replacing an earlier value in place. */
  ghost function ExpandStep(t: Tables, st: State, c: string, positions: map<string, (string, nat)>,
                            dict: seq<(string, Child)>): (r: Result<(State, seq<(string, Child)>)>)
    requires Ready(t)
    ensures r.Ok? ==> Extends(st, r.value.0)
    ensures r.Ok? ==> Keys(r.value.1) == if c in Keys(dict) then Keys(dict) else Keys(dict) + [c]
    decreases |t.references.Keys - st.traversed.Keys|, 2, 0
  {
    if c in st.traversed then
      if c in Keys(dict) then Ok((st, dict))
      else if t.showPosition then
        match PositionOf(t, positions, c)
        case Err(e) => Err(e)
        case Ok(p) => Ok((st, Put(dict, c, Positioned(p, Traversed))))
      else Ok((st, Put(dict, c, Bare(Traversed))))
    else if t.showPosition then
      match PositionOf(t, positions, c)
      case Err(e) => Err(e)
      case Ok(p) =>
        match ExpandSymbol(t, st, c)
        case Err(e) => Err(e)
        case Ok(sub) => Ok((sub.1, Put(dict, c, Positioned(p, sub.0))))
    else
      match ExpandSymbol(t, st, c)
      case Err(e) => Err(e)
      case Ok(sub) => Ok((sub.1, Put(dict, c, Bare(sub.0))))
  }

  /** The second loop of findAllCaller from caller i on, with the
      dictionary built so far. */
  ghost function ExpandCallers(t: Tables, st: State, callers: seq<string>, positions: map<string, (string, nat)>,
                               i: nat, dict: seq<(string, Child)>): (r: Result<(Tree, State)>)
    requires Ready(t)
    ensures r.Ok? ==> Extends(st, r.value.1)
    decreases |t.references.Keys - st.traversed.Keys|, 2, |callers| - i
  {
    if i >= |callers| then Ok((Callers(dict), st))
    else
      match ExpandStep(t, st, callers[i], positions, dict)
      case Err(e) => Err(e)
      case Ok(next) =>
        ExtendsKeys(st, next.0);
        UntraversedMonotone(t.references.Keys, st.traversed.Keys, next.0.traversed.Keys);
        var r := ExpandCallers(t, next.0, callers, positions, i + 1, next.1);
        if r.Ok? then ExtendsTransitive(st, next.0, r.value.1); r else r
  }

  /** An error while collecting the callers of `s` is findAllCaller's
      error. */
  lemma ExpandSymbolFails(t: Tables, st: State, s: string)
    requires Ready(t) && Expands(t, st, s)
    ensures var c := CollectRefs(t, t.references[s], 0, Collected([], map[], st.cache));
            c.Err? ==> ExpandSymbol(t, st, s) == Err(c.error)
  {
  }

  lemma ExpandSymbolUnfolds(t: Tables, st: State, s: string, c: Collected)
    requires Ready(t) && Expands(t, st, s)
    requires CollectRefs(t, t.references[s], 0, Collected([], map[], st.cache)) == Ok(c)
    ensures ExpandSymbol(t, st, s) == ExpandCollected(t, st, s, c)
  {
  }

  lemma ExpandCollectedUnfolds(t: Tables, st: State, s: string, c: Collected)
    requires Ready(t) && s in t.references && s !in st.traversed
    ensures ExpandCollected(t, st, s, c)
            == ExpandCallers(t, State(st.traversed[s := AsSet(c.callers)], c.cache), c.callers, c.positions, 0, [])
  {
  }

  /** One step of ExpandCallers: an error of the step ends the loop;
      otherwise the loop goes on from the step's state, which has no fewer
      symbols traversed. */
  lemma ExpandCallersNext(t: Tables, st: State, callers: seq<string>, positions: map<string, (string, nat)>,
                          i: nat, dict: seq<(string, Child)>)
    requires Ready(t) && i < |callers|
    ensures var step := ExpandStep(t, st, callers[i], positions, dict);
            && (step.Err? ==> ExpandCallers(t, st, callers, positions, i, dict) == Err(step.error))
            && (step.Ok? ==>
                  && ExpandCallers(t, st, callers, positions, i, dict)
                     == ExpandCallers(t, step.value.0, callers, positions, i + 1, step.value.1)
                  && st.traversed.Keys <= step.value.0.traversed.Keys)
  {
    var step := ExpandStep(t, st, callers[i], positions, dict);
    if step.Ok? {
      ExtendsKeys(st, step.value.0);
    }
  }

  /** buildTree's loop over the roots from root i on. */
  ghost function ExpandRoots(t: Tables, st: State, roots: seq<string>, i: nat, trees: seq<(string, Tree)>)
    : (r: Result<(seq<(string, Tree)>, State)>)
    requires Ready(t)
    ensures r.Ok? ==> Extends(st, r.value.1)
    decreases |roots| - i
  {
    if i >= |roots| then Ok((trees, st))
    else
      match ExpandSymbol(t, st, roots[i])
      case Err(e) => Err(e)
      case Ok(sub) => ExpandRoots(t, sub.1, roots, i + 1, Put(trees, roots[i], sub.0))
  }

  /** One step of ExpandRoots: an error of the root's expansion ends the
      loop; otherwise the loop goes on with its tree stored. */
  lemma ExpandRootsNext(t: Tables, st: State, roots: seq<string>, i: nat, trees: seq<(string, Tree)>)
    requires Ready(t) && i < |roots|
    ensures var sub := ExpandSymbol(t, st, roots[i]);
            && (sub.Err? ==> ExpandRoots(t, st, roots, i, trees) == Err(sub.error))
            && (sub.Ok? ==> ExpandRoots(t, st, roots, i, trees)
                            == ExpandRoots(t, sub.value.1, roots, i + 1, Put(trees, roots[i], sub.value.0)))
  {
  }

  // ---- properties ----

  /** The three early exits, in the order of callTree.py:326-333; none of
      them changes the state.  A blacklisted symbol is @Blacklisted even
      as a root and even when already traversed. */
  lemma EarlyExits(t: Tables, st: State, s: string)
    requires Ready(t)
    ensures s in t.blacklist ==> ExpandSymbol(t, st, s) == Ok((Blacklisted, st))
    ensures s !in t.blacklist && s in st.traversed ==> ExpandSymbol(t, st, s) == Ok((Traversed, st))
    ensures s !in t.blacklist && s !in st.traversed && s !in t.references ==>
              ExpandSymbol(t, st, s) == Ok((Callers([]), st))
  {
  }

  /** A symbol is expanded when it is not blacklisted, not yet traversed
      and referenced somewhere. */
  predicate Expands(t: Tables, st: State, s: string) {
    s !in t.blacklist && s !in st.traversed && s in t.references
  }

  /** The dictionary built by the second loop has the callers as keys, each
      once, in the order of their first occurrence. */
  lemma {:induction false} ExpandCallersKeys(t: Tables, st: State, callers: seq<string>,
                                             positions: map<string, (string, nat)>, i: nat,
                                             dict: seq<(string, Child)>)
    requires Ready(t) && i <= |callers|
    requires Keys(dict) == FirstOccurrences(callers[..i])
    requires ExpandCallers(t, st, callers, positions, i, dict).Ok?
    ensures var tree := ExpandCallers(t, st, callers, positions, i, dict).value.0;
            tree.Callers? && Keys(tree.entries) == FirstOccurrences(callers)
    decreases |callers| - i
  {
    if i == |callers| {
      assert callers[..i] == callers;
    } else {
      var next := ExpandStep(t, st, callers[i], positions, dict).value;
      FirstOccurrencesPrefix(callers, i);
      ExpandCallersKeys(t, next.0, callers, positions, i + 1, next.1);
    }
  }

  /** An expanded symbol is recorded in `traversed` with the set of callers
      found, and the returned dictionary has exactly those callers as keys,
      each once. */
  lemma ExpandedKeys(t: Tables, st: State, s: string)
    requires Ready(t) && Expands(t, st, s) && ExpandSymbol(t, st, s).Ok?
    ensures var r := ExpandSymbol(t, st, s).value;
            && s in r.1.traversed
            && r.0.Callers? && Distinct(Keys(r.0.entries))
            && forall c :: c in Keys(r.0.entries) <==> c in r.1.traversed[s]
  {
    var c := CollectRefs(t, t.references[s], 0, Collected([], map[], st.cache)).value;
    assert ExpandSymbol(t, st, s) == ExpandCollected(t, st, s, c);
    var st1 := State(st.traversed[s := AsSet(c.callers)], c.cache);
    ExpandCallersKeys(t, st1, c.callers, c.positions, 0, []);
    ExtendsKeys(st1, ExpandCallers(t, st1, c.callers, c.positions, 0, []).value.1);
  }

  /** `traversed` is shared by all later calls: once a symbol has been
      expanded, every later call for it answers @Traversed and changes
      nothing, so each symbol is expanded at most once per run. */
  lemma ExpandedOnce(t: Tables, st: State, s: string, later: State)
    requires Ready(t) && Expands(t, st, s) && ExpandSymbol(t, st, s).Ok?
    requires Extends(ExpandSymbol(t, st, s).value.1, later)
    ensures ExpandSymbol(t, later, s) == Ok((Traversed, later))
  {
    ExpandedKeys(t, st, s);
    ExtendsKeys(ExpandSymbol(t, st, s).value.1, later);
  }

  /** buildTree stores one tree per distinct root, in the order of the roots. */
  lemma {:induction false} ExpandRootsKeys(t: Tables, st: State, roots: seq<string>, i: nat,
                                           trees: seq<(string, Tree)>)
    requires Ready(t) && i <= |roots|
    requires Keys(trees) == FirstOccurrences(roots[..i])
    requires ExpandRoots(t, st, roots, i, trees).Ok?
    ensures Keys(ExpandRoots(t, st, roots, i, trees).value.0) == FirstOccurrences(roots)
    decreases |roots| - i
  {
    if i == |roots| {
      assert roots[..i] == roots;
    } else {
      var sub := ExpandSymbol(t, st, roots[i]).value;
      FirstOccurrencesPrefix(roots, i);
      ExpandRootsKeys(t, sub.1, roots, i + 1, Put(trees, roots[i], sub.0));
    }
  }

  // ---- the macro cache stays sound through the whole run ----

  /** From a sound macro cache, the lookups for one row's lines leave a
      sound cache. */
  lemma {:induction false} CollectLinesSound(t: Tables, fileSymbol: string, lines: seq<nat>, i: nat,
                                             acc: Collected)
    requires Ready(t) && CacheSound(t.definitions, acc.cache)
    requires CollectLines(t, fileSymbol, lines, i, acc).Ok?
    ensures CacheSound(t.definitions, CollectLines(t, fileSymbol, lines, i, acc).value.cache)
    decreases |lines| - i
  {
    if i < |lines| {
      ResolveCallerKeepsCache(t, acc.cache, fileSymbol, lines[i]);
      var found := ResolveCaller(t, acc.cache, fileSymbol, lines[i]).value;
      if found.0.None? {
        CollectLinesSound(t, fileSymbol, lines, i + 1, acc.(cache := found.1));
      } else {
        CollectLinesSound(t, fileSymbol, lines, i + 1,
                          Collected(acc.callers + found.0.value,
                                    MarkAll(acc.positions, found.0.value, (fileSymbol, lines[i])), found.1));
      }
    }
  }

  /** The same for the reference rows of a symbol from row i on. */
  lemma {:induction false} CollectRefsSound(t: Tables, refs: seq<Record>, i: nat, acc: Collected)
    requires Ready(t) && CacheSound(t.definitions, acc.cache)
    requires CollectRefs(t, refs, i, acc).Ok?
    ensures CacheSound(t.definitions, CollectRefs(t, refs, i, acc).value.cache)
    decreases |refs| - i
  {
    if i < |refs| {
      var fields := Split(refs[i].dat, ' ');
      if |fields| >= 3 {
        CollectLinesSound(t, refs[i].fileId, Decode(fields[2]).value, 0, acc);
      }
      CollectRefsSound(t, refs, i + 1, CollectRow(t, refs[i], acc).value);
    }
  }

  /** findAllCaller from a sound macro cache leaves a sound cache. */
  lemma {:induction false} ExpandSymbolSound(t: Tables, st: State, s: string)
    requires Ready(t) && CacheSound(t.definitions, st.cache) && ExpandSymbol(t, st, s).Ok?
    ensures CacheSound(t.definitions, ExpandSymbol(t, st, s).value.1.cache)
    decreases |t.references.Keys - st.traversed.Keys|, 1
  {
    if Expands(t, st, s) {
      var c := CollectRefs(t, t.references[s], 0, Collected([], map[], st.cache)).value;
      CollectRefsSound(t, t.references[s], 0, Collected([], map[], st.cache));
      ExpandCollectedSound(t, st, s, c);
    }
  }

  lemma {:induction false} ExpandCollectedSound(t: Tables, st: State, s: string, c: Collected)
    requires Ready(t) && s in t.references && s !in st.traversed
    requires CacheSound(t.definitions, c.cache) && ExpandCollected(t, st, s, c).Ok?
    ensures CacheSound(t.definitions, ExpandCollected(t, st, s, c).value.1.cache)
    decreases |t.references.Keys - st.traversed.Keys|, 0
  {
    MarkShrinks(t.references.Keys, st, s, AsSet(c.callers), c.cache);
    ExpandCallersSound(t, State(st.traversed[s := AsSet(c.callers)], c.cache), c.callers, c.positions, 0, []);
  }

  lemma {:induction false} ExpandStepSound(t: Tables, st: State, c: string, positions: map<string, (string, nat)>,
                                           dict: seq<(string, Child)>)
    requires Ready(t) && CacheSound(t.definitions, st.cache) && ExpandStep(t, st, c, positions, dict).Ok?
    ensures CacheSound(t.definitions, ExpandStep(t, st, c, positions, dict).value.0.cache)
    decreases |t.references.Keys - st.traversed.Keys|, 2, 0
  {
    if c !in st.traversed {
      ExpandSymbolSound(t, st, c);
    }
  }

  lemma {:induction false} ExpandCallersSound(t: Tables, st: State, callers: seq<string>,
                                              positions: map<string, (string, nat)>, i: nat,
                                              dict: seq<(string, Child)>)
    requires Ready(t) && CacheSound(t.definitions, st.cache)
    requires ExpandCallers(t, st, callers, positions, i, dict).Ok?
    ensures CacheSound(t.definitions, ExpandCallers(t, st, callers, positions, i, dict).value.1.cache)
    decreases |t.references.Keys - st.traversed.Keys|, 2, |callers| - i
  {
    if i < |callers| {
      ExpandStepSound(t, st, callers[i], positions, dict);
      var next := ExpandStep(t, st, callers[i], positions, dict).value;
      ExtendsKeys(st, next.0);
      UntraversedMonotone(t.references.Keys, st.traversed.Keys, next.0.traversed.Keys);
      ExpandCallersSound(t, next.0, callers, positions, i + 1, next.1);
    }
  }

  /** buildTree's loop from a sound macro cache leaves a sound cache; the
      cache starts empty, so every value the run caches for a symbol is true
      exactly when one of its definitions is a define. */
  lemma {:induction false} ExpandRootsSound(t: Tables, st: State, roots: seq<string>, i: nat,
                                            trees: seq<(string, Tree)>)
    requires Ready(t) && CacheSound(t.definitions, st.cache) && ExpandRoots(t, st, roots, i, trees).Ok?
    ensures CacheSound(t.definitions, ExpandRoots(t, st, roots, i, trees).value.1.cache)
    decreases |roots| - i
  {
    if i < |roots| {
      ExpandSymbolSound(t, st, roots[i]);
      var sub := ExpandSymbol(t, st, roots[i]).value;
      ExpandRootsSound(t, sub.1, roots, i + 1, Put(trees, roots[i], sub.0));
    }
  }
}
