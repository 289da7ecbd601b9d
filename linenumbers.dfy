/** GNU Global's compact line-number lists as GRTAGS stores them and
    splitLineNumbers (callTree.py:171-199) decodes them: comma-separated
    entries, each either a delta `d` from the previous number or a run
    `d-r` of r+1 consecutive lines starting at previous+d; the next entry
    counts from the last line of the run. */
module LineNumbers {

  import opened Errors
  import opened PyStr
  import opened Search

  datatype Entry =
    | Plain(delta: nat)
    | Run(delta: nat, repeats: nat)

  /** One comma-separated token: a token without '-' must be numeric; one
      with '-' must split into exactly two pieces (else the unpacking
      `[num, repeats] = ...` fails) that are both numeric. */
  function ParseEntry(tok: string): (r: Result<Entry>)
    ensures r.Ok? && r.value.Plain? ==> '-' !in tok && IsNumeric(tok)
    ensures r.Ok? && r.value.Run? ==> '-' in tok
  {
    if '-' !in tok then
      if IsNumeric(tok) then Ok(Plain(ParseNat(tok))) else Err(AssertionError)
    else
      var parts := Split(tok, '-');
      if |parts| != 2 then Err(ValueError)
      else if !IsNumeric(parts[0]) || !IsNumeric(parts[1]) then Err(AssertionError)
      else Ok(Run(ParseNat(parts[0]), ParseNat(parts[1])))
  }

  /** The tokens parsed in order; the first bad token ends the decoding. */
  function ParseEntries(toks: seq<string>): Result<seq<Entry>> {
    if toks == [] then Ok([])
    else
      match ParseEntries(toks[..|toks| - 1])
      case Err(e) => Err(e)
      case Ok(es) =>
        match ParseEntry(toks[|toks| - 1])
        case Err(e) => Err(e)
        case Ok(x) => Ok(es + [x])
  }

  /** How far an entry moves curNumber. */
  function Advance(e: Entry): nat {
    match e
    case Plain(d) => d
    case Run(d, r) => d + r
  }

  /** The value of curNumber after the entries. */
  function Final(es: seq<Entry>): nat {
    if es == [] then 0 else Final(es[..|es| - 1]) + Advance(es[|es| - 1])
  }

  /** `start, start + 1, ..., start + n - 1`. */
  function RunFrom(start: nat, n: nat): seq<nat> {
    seq(n, i requires 0 <= i => start + i)
  }

  /** The numbers one entry appends when curNumber is `cur`. */
  function Emit(e: Entry, cur: nat): seq<nat> {
    match e
    case Plain(d) => [cur + d]
    case Run(d, r) => RunFrom(cur + d, r + 1)
  }

  /** All numbers the entries append, in order. */
  function Expand(es: seq<Entry>): seq<nat> {
    if es == [] then []
    else Expand(es[..|es| - 1]) + Emit(es[|es| - 1], Final(es[..|es| - 1]))
  }

  /** The number of values an entry list stands for: one per plain entry
      and r + 1 per run. */
  function Size(es: seq<Entry>): nat {
    if es == [] then 0
    else
      var e := es[|es| - 1];
      Size(es[..|es| - 1]) + (if e.Plain? then 1 else e.repeats + 1)
  }

  /** The meaning of a whole line-number list. */
  function Decode(s: string): Result<seq<nat>> {
    match ParseEntries(Split(s, ','))
    case Err(e) => Err(e)
    case Ok(es) => Ok(Expand(es))
  }

  lemma ParseEntriesStep(toks: seq<string>, k: nat)
    requires k < |toks| && ParseEntries(toks[..k]).Ok?
    ensures ParseEntry(toks[k]).Err? ==> ParseEntries(toks[..k + 1]) == Err(ParseEntry(toks[k]).error)
    ensures ParseEntry(toks[k]).Ok? ==>
              ParseEntries(toks[..k + 1]) == Ok(ParseEntries(toks[..k]).value + [ParseEntry(toks[k]).value])
  {
    assert toks[..k + 1][..k] == toks[..k];
  }

  lemma ExpandSnoc(es: seq<Entry>, e: Entry)
    ensures Expand(es + [e]) == Expand(es) + Emit(e, Final(es))
    ensures Final(es + [e]) == Final(es) + Advance(e)
  {
    assert (es + [e])[..|es|] == es;
  }

  lemma EmitRun(e: Entry, cur: nat, start: nat)
    requires e.Run? && start == cur + e.delta
    ensures Emit(e, cur) == RunFrom(start, e.repeats + 1)
  {
  }

  lemma {:induction false} ParseEntriesErrPersists(toks: seq<string>, k: nat)
    requires k <= |toks| && ParseEntries(toks[..k]).Err?
    ensures ParseEntries(toks) == ParseEntries(toks[..k])
    decreases |toks| - k
  {
    if k == |toks| {
      assert toks[..k] == toks;
    } else {
      assert toks[..k + 1][..k] == toks[..k];
      ParseEntriesErrPersists(toks, k + 1);
    }
  }

  /** `for i in range(count): out.append(start + i)`. */
  method AppendRun(list: seq<nat>, start: nat, count: nat) returns (out: seq<nat>)
    ensures out == list + RunFrom(start, count)
  {
    out := list;
    var i := 0;
    while i < count
      invariant i <= count
      invariant out == list + RunFrom(start, i)
    {
      assert RunFrom(start, i + 1) == RunFrom(start, i) + [start + i];
      out := out + [start + i];
      i := i + 1;
    }
  }

  /** One token of the loop of splitLineNumbers: the numbers it appends
      and the new curNumber, or the exception the token raises. */
  method AppendEntry(lineNumberList: seq<nat>, curNumber: nat, num: string)
    returns (r: Result<(seq<nat>, nat)>)
    ensures ParseEntry(num).Err? ==> r == Err(ParseEntry(num).error)
    ensures ParseEntry(num).Ok? ==>
              r == Ok((lineNumberList + Emit(ParseEntry(num).value, curNumber),
                       curNumber + Advance(ParseEntry(num).value)))
  {
    if '-' !in num {
      if !IsNumeric(num) {
        return Err(AssertionError);
      }
      var cur := curNumber + ParseNat(num);
      return Ok((lineNumberList + [cur], cur));
    }
    var parts := Split(num, '-');
    if |parts| != 2 {
      return Err(ValueError);
    }
    var n, repeats := parts[0], parts[1];
    if !IsNumeric(n) || !IsNumeric(repeats) {
      return Err(AssertionError);
    }
    var cur := curNumber + ParseNat(n);
    EmitRun(Run(ParseNat(n), ParseNat(repeats)), curNumber, cur);
    var list := AppendRun(lineNumberList, cur, ParseNat(repeats) + 1);
    cur := cur + ParseNat(repeats);
    return Ok((list, cur));
  }

  /** splitLineNumbers: the decoded list, or the exception a malformed
      token raises. */
  method SplitLineNumbers(lineNumbers: string) returns (r: Result<seq<nat>>)
    ensures r == Decode(lineNumbers)
  {
    var lineNumberList: seq<nat> := [];
    var curNumber: nat := 0;
    var tokens := Split(lineNumbers, ',');
    ghost var es: seq<Entry> := [];
    var k := 0;
    while k < |tokens|
      invariant k <= |tokens|
      invariant ParseEntries(tokens[..k]) == Ok(es)
      invariant lineNumberList == Expand(es) && curNumber == Final(es)
    {
      ParseEntriesStep(tokens, k);
      var next := AppendEntry(lineNumberList, curNumber, tokens[k]);
      if next.Err? {
        ParseEntriesErrPersists(tokens, k + 1);
        return Err(next.error);
      }
      ExpandSnoc(es, ParseEntry(tokens[k]).value);
      lineNumberList, curNumber := next.value.0, next.value.1;
      es := es + [ParseEntry(tokens[k]).value];
      k := k + 1;
    }
    assert tokens[..|tokens|] == tokens;
    return Ok(lineNumberList);
  }

  // ---- what a decoded list looks like ----

  /** One value per plain entry and r + 1 values per run. */
  lemma {:induction false} ExpandLength(es: seq<Entry>)
    ensures |Expand(es)| == Size(es)
  {
    if es != [] {
      ExpandLength(es[..|es| - 1]);
    }
  }

  /** Every decoded value is at most the final curNumber, and the last value
      is the final curNumber: after a run the next entry counts from the
      run's last line. */
  lemma {:induction false} ExpandBounded(es: seq<Entry>)
    ensures forall i :: 0 <= i < |Expand(es)| ==> Expand(es)[i] <= Final(es)
    ensures es != [] ==> |Expand(es)| > 0 && Expand(es)[|Expand(es)| - 1] == Final(es)
  {
    if es != [] {
      var p := es[..|es| - 1];
      ExpandBounded(p);
      var out := Expand(es);
      assert out == Expand(p) + Emit(es[|es| - 1], Final(p));
      forall i | 0 <= i < |out| ensures out[i] <= Final(es) {
        if i < |Expand(p)| {
          assert out[i] == Expand(p)[i];
        }
      }
    }
  }

  /** Deltas are never negative, so the decoded list is non-decreasing. */
  lemma {:induction false} ExpandSorted(es: seq<Entry>)
    ensures Sorted(Expand(es))
  {
    if es != [] {
      var p := es[..|es| - 1];
      ExpandSorted(p);
      ExpandBounded(p);
      var out := Expand(es);
      var n := |Expand(p)|;
      assert out == Expand(p) + Emit(es[|es| - 1], Final(p));
      forall i, j | 0 <= i < j < |out| ensures out[i] <= out[j] {
        if j < n {
          assert out[i] == Expand(p)[i] && out[j] == Expand(p)[j];
        } else if i < n {
          assert out[i] == Expand(p)[i] <= Final(p);
        }
      }
    }
  }

  /** Decoding succeeds iff every token parses, and then entry i is token i. */
  lemma {:induction false} ParseEntriesOk(toks: seq<string>)
    ensures ParseEntries(toks).Ok? <==> forall i :: 0 <= i < |toks| ==> ParseEntry(toks[i]).Ok?
    ensures ParseEntries(toks).Ok? ==>
              && |ParseEntries(toks).value| == |toks|
              && forall i :: 0 <= i < |toks| ==> ParseEntries(toks).value[i] == ParseEntry(toks[i]).value
  {
    if toks != [] {
      var p := toks[..|toks| - 1];
      ParseEntriesOk(p);
      assert forall i :: 0 <= i < |p| ==> p[i] == toks[i];
    }
  }

  /** A token without '-' that is not numeric (the empty token included)
      fails the assertion of callTree.py:186, and so does a run with a
      non-numeric half (callTree.py:191-192). */
  lemma NonNumericTokenFails(s: string, i: nat)
    requires i < |Split(s, ',')|
    requires var tok := Split(s, ',')[i];
             ('-' !in tok && !IsNumeric(tok))
             || ('-' in tok && |Split(tok, '-')| == 2
                 && (!IsNumeric(Split(tok, '-')[0]) || !IsNumeric(Split(tok, '-')[1])))
    ensures Decode(s).Err?
  {
    ParseEntriesOk(Split(s, ','));
  }

  // ---- the encoding GNU Global writes ----

  function EntryText(e: Entry): string {
    match e
    case Plain(d) => NatToString(d)
    case Run(d, r) => NatToString(d) + "-" + NatToString(r)
  }

  function Texts(es: seq<Entry>): (ts: seq<string>)
    ensures |ts| == |es|
  {
    if es == [] then [] else Texts(es[..|es| - 1]) + [EntryText(es[|es| - 1])]
  }

  /** A list of entries written as "d1,d2-r2,...". */
  function Encode(es: seq<Entry>): string
    requires es != []
  {
    Join(Texts(es), ',')
  }

  lemma NumeralHasNoSeparator(n: nat, c: char)
    requires !IsDigit(c)
    ensures c !in NatToString(n)
  {
  }

  lemma ParseEntryText(e: Entry)
    ensures ParseEntry(EntryText(e)) == Ok(e)
  {
    match e
    case Plain(d) =>
      NumeralHasNoSeparator(d, '-');
      ParseNatToString(d);
    case Run(d, r) =>
      var a, b := NatToString(d), NatToString(r);
      NumeralHasNoSeparator(d, '-');
      NumeralHasNoSeparator(r, '-');
      assert Join([a, b], '-') == a + "-" + b;
      SplitJoin([a, b], '-');
      assert EntryText(e)[|a|] == '-';
      ParseNatToString(d);
      ParseNatToString(r);
  }

  lemma {:induction false} TextsHaveNoComma(es: seq<Entry>)
    ensures forall i :: 0 <= i < |es| ==> ',' !in Texts(es)[i]
  {
    if es != [] {
      var p := es[..|es| - 1];
      TextsHaveNoComma(p);
      var e := es[|es| - 1];
      NumeralHasNoSeparator(e.delta, ',');
      if e.Run? {
        NumeralHasNoSeparator(e.repeats, ',');
      }
      assert forall i :: 0 <= i < |p| ==> Texts(es)[i] == Texts(p)[i];
    }
  }

  lemma {:induction false} ParseTexts(es: seq<Entry>)
    ensures ParseEntries(Texts(es)) == Ok(es)
  {
    if es != [] {
      var p := es[..|es| - 1];
      ParseTexts(p);
      assert Texts(es)[..|es| - 1] == Texts(p);
      assert Texts(es)[|es| - 1] == EntryText(es[|es| - 1]);
      ParseEntryText(es[|es| - 1]);
      assert p + [es[|es| - 1]] == es;
    }
  }

  /** Decoding an encoded list gives back exactly the numbers it stands for. */
  lemma DecodeEncode(es: seq<Entry>)
    requires es != []
    ensures Decode(Encode(es)) == Ok(Expand(es))
  {
    TextsHaveNoComma(es);
    SplitJoin(Texts(es), ',');
    ParseTexts(es);
  }
}
