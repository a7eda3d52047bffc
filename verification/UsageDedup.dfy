/**
 Streamed transcript lines reduced to one usage per message. A message is logged once per content
 block, each line repeating its usage; the two scripts reduce the lines differently, and this module
 says what each keeps and when they agree.
 */
module UsageDedup {
  import opened Text

  datatype Field = Input | Output | CacheRead | Write5m | Write1h

  datatype Usage = Usage(input: int, output: int, cacheRead: int, write5m: int, write1h: int)
  {
    function Get(f: Field): int {
      match f
      case Input => input
      case Output => output
      case CacheRead => cacheRead
      case Write5m => write5m
      case Write1h => write1h
    }
    function Sum(): int { input + output + cacheRead + write5m + write1h }
  }

  /** The usage object of a line: the cache-write total and its optional breakdown by lifetime. */
  datatype Raw = Raw(input: int, output: int, cacheRead: int, writes: int, write5m: Option<int>, write1h: Option<int>)

  /** The (session, message) pair a line belongs to. */
  type Key = (string, string)

  datatype Line = Line(key: Key, usage: Raw, timestamp: string, model: string, branch: string)

  /** A transcript line as it is logged: the usage may be absent or empty. */
  datatype Logged = Logged(key: Key, usage: Option<Raw>, timestamp: string, model: string, branch: string)

  const NO_TOKENS := Raw(0, 0, 0, 0, None, None)

  function AsLine(l: Logged): Line {
    Line(l.key, if l.usage.None? then NO_TOKENS else l.usage.value, l.timestamp, l.model, l.branch)
  }

  /** The lines parse.py reads: those that carry a usage. */
  function WithUsage(logged: seq<Logged>): seq<Line> {
    if logged == [] then []
    else
      var l := logged[|logged| - 1];
      WithUsage(logged[..|logged| - 1]) + if l.usage.None? then [] else [AsLine(l)]
  }

  /** The lines generate.py reads: all, an absent usage counting no tokens. */
  function Lines(logged: seq<Logged>): seq<Line> {
    if logged == [] then [] else Lines(logged[..|logged| - 1]) + [AsLine(logged[|logged| - 1])]
  }

  function OrZero(v: Option<int>): int { if v.None? then 0 else v.value }

  /** parse.py: a breakdown that is absent, or all zero, stands for 5-minute writes. */
  function ParsedUsage(raw: Raw): Usage {
    var w5, w1h := OrZero(raw.write5m), OrZero(raw.write1h);
    Usage(raw.input, raw.output, raw.cacheRead, if w5 == 0 && w1h == 0 && raw.writes != 0 then raw.writes else w5, w1h)
  }

  /** generate.py: only an absent breakdown does. */
  function GeneratedUsage(raw: Raw): Usage {
    if raw.write5m.None? && raw.write1h.None? then Usage(raw.input, raw.output, raw.cacheRead, raw.writes, 0)
    else Usage(raw.input, raw.output, raw.cacheRead, OrZero(raw.write5m), OrZero(raw.write1h))
  }

  /** The two readings of a line differ exactly when a breakdown is given, is all zero, and the total is not. */
  lemma ReadingsAgree(raw: Raw)
    ensures ParsedUsage(raw) == GeneratedUsage(raw) <==>
      !(&& (raw.write5m.Some? || raw.write1h.Some?)
        && OrZero(raw.write5m) == 0 && OrZero(raw.write1h) == 0 && raw.writes != 0)
  {
  }

  /** A reading is the line's own counts; its writes are the breakdown, or else all of them five-minute ones. */
  lemma ReadingsAreTheCounts(raw: Raw)
    ensures forall u <- [ParsedUsage(raw), GeneratedUsage(raw)] ::
      u.input == raw.input && u.output == raw.output && u.cacheRead == raw.cacheRead
    ensures raw.write5m.None? && raw.write1h.None? ==>
      forall u <- [ParsedUsage(raw), GeneratedUsage(raw)] :: u.write5m == raw.writes && u.write1h == 0
    ensures OrZero(raw.write5m) != 0 || OrZero(raw.write1h) != 0 ==>
      forall u <- [ParsedUsage(raw), GeneratedUsage(raw)] ::
        u.write5m == OrZero(raw.write5m) && u.write1h == OrZero(raw.write1h)
  {
  }

  type Reading = Raw -> Usage

  function Bigger(a: int, b: int): int { if b > a then b else a }

  function Join(u: Usage, v: Usage): Usage {
    Usage(Bigger(u.input, v.input), Bigger(u.output, v.output), Bigger(u.cacheRead, v.cacheRead),
          Bigger(u.write5m, v.write5m), Bigger(u.write1h, v.write1h))
  }

  /** The per-field maximum over the lines of a message. */
  function FieldMax(read: Reading, lines: seq<Line>, k: Key): Option<Usage> {
    if lines == [] then None
    else
      var before, line := FieldMax(read, lines[..|lines| - 1], k), lines[|lines| - 1];
      if line.key != k then before
      else if before.None? then Some(read(line.usage))
      else Some(Join(before.value, read(line.usage)))
  }

  /** The first usage of the largest sum over the lines of a message. */
  function Largest(read: Reading, lines: seq<Line>, k: Key): Option<Usage> {
    if lines == [] then None
    else
      var before, line := Largest(read, lines[..|lines| - 1], k), lines[|lines| - 1];
      if line.key != k then before
      else if before.None? || read(line.usage).Sum() > before.value.Sum() then Some(read(line.usage))
      else before
  }

  predicate Has(lines: seq<Line>, k: Key) { exists l <- lines :: l.key == k }

  /** `n` is the greatest value of a field over the lines of a message. */
  predicate IsMax(read: Reading, lines: seq<Line>, k: Key, f: Field, n: int) {
    && (forall l <- lines :: l.key == k ==> read(l.usage).Get(f) <= n)
    && exists l <- lines :: l.key == k && read(l.usage).Get(f) == n
  }

  lemma JoinIsMax(u: Usage, v: Usage, f: Field)
    ensures Join(u, v).Get(f) == Bigger(u.Get(f), v.Get(f))
  {
  }

  lemma MaxAppend(read: Reading, lines: seq<Line>, line: Line, k: Key, f: Field, n: int)
    requires line.key == k && IsMax(read, lines, k, f, n)
    ensures IsMax(read, lines + [line], k, f, Bigger(n, read(line.usage).Get(f)))
  {
    var l :| l in lines && l.key == k && read(l.usage).Get(f) == n;
    assert l in lines + [line] && line in lines + [line];
  }

  lemma MaxSkip(read: Reading, lines: seq<Line>, line: Line, k: Key, f: Field, n: int)
    requires line.key != k && IsMax(read, lines, k, f, n)
    ensures IsMax(read, lines + [line], k, f, n)
  {
    var l :| l in lines && l.key == k && read(l.usage).Get(f) == n;
    assert l in lines + [line];
  }

  lemma HasAppend(lines: seq<Line>, line: Line, k: Key)
    ensures Has(lines + [line], k) <==> Has(lines, k) || line.key == k
  {
    if Has(lines, k) {
      var l :| l in lines && l.key == k;
      assert l in lines + [line];
    }
    assert line in lines + [line];
  }

  /** FieldMax is the maximum of every field, for exactly the messages that have a line. */
  lemma {:induction false} FieldMaxIsMax(read: Reading, lines: seq<Line>, k: Key)
    ensures FieldMax(read, lines, k).Some? <==> Has(lines, k)
    ensures FieldMax(read, lines, k).Some? ==>
      forall f :: IsMax(read, lines, k, f, FieldMax(read, lines, k).value.Get(f))
  {
    if lines != [] {
      var shorter, line := lines[..|lines| - 1], lines[|lines| - 1];
      var before := FieldMax(read, shorter, k);
      FieldMaxIsMax(read, shorter, k);
      assert lines == shorter + [line];
      HasAppend(shorter, line, k);
      if line.key == k && before.None? {
        assert line in lines;
        forall f ensures IsMax(read, lines, k, f, read(line.usage).Get(f)) { OnlyLine(read, shorter, line, k, f); }
      } else if before.Some? {
        forall f ensures IsMax(read, lines, k, f, FieldMax(read, lines, k).value.Get(f)) {
          if line.key == k {
            MaxAppend(read, shorter, line, k, f, before.value.Get(f));
            JoinIsMax(before.value, read(line.usage), f);
          } else {
            MaxSkip(read, shorter, line, k, f, before.value.Get(f));
          }
        }
      }
    }
  }

  lemma OnlyLine(read: Reading, shorter: seq<Line>, line: Line, k: Key, f: Field)
    requires line.key == k && !Has(shorter, k)
    ensures IsMax(read, shorter + [line], k, f, read(line.usage).Get(f))
  {
    assert line in shorter + [line];
  }

  lemma SameFieldsSameUsage(u: Usage, v: Usage)
    requires forall f :: u.Get(f) == v.Get(f)
    ensures u == v
  {
    assert u.Get(Input) == v.Get(Input) && u.Get(Output) == v.Get(Output) && u.Get(CacheRead) == v.Get(CacheRead);
    assert u.Get(Write5m) == v.Get(Write5m) && u.Get(Write1h) == v.Get(Write1h);
  }

  /** What lines say, whatever their order and repetition. */
  function Readings(read: Reading, lines: seq<Line>): set<(Key, Usage)> {
    set l <- lines :: (l.key, read(l.usage))
  }

  lemma MaxTransfers(read: Reading, a: seq<Line>, b: seq<Line>, k: Key, f: Field, n: int)
    requires Readings(read, a) == Readings(read, b) && IsMax(read, a, k, f, n)
    ensures IsMax(read, b, k, f, n)
  {
    var l :| l in a && l.key == k && read(l.usage).Get(f) == n;
    assert (l.key, read(l.usage)) in Readings(read, b);
    var m :| m in b && (m.key, read(m.usage)) == (l.key, read(l.usage));
    forall m <- b | m.key == k ensures read(m.usage).Get(f) <= n {
      assert (m.key, read(m.usage)) in Readings(read, a);
    }
  }

  lemma HasTransfers(read: Reading, a: seq<Line>, b: seq<Line>, k: Key)
    requires Readings(read, a) == Readings(read, b) && Has(a, k)
    ensures Has(b, k)
  {
    var l :| l in a && l.key == k;
    assert (l.key, read(l.usage)) in Readings(read, b);
  }

  lemma MaxIsUnique(read: Reading, lines: seq<Line>, k: Key, f: Field, n: int, m: int)
    requires IsMax(read, lines, k, f, n) && IsMax(read, lines, k, f, m)
    ensures n == m
  {
  }

  /** The per-field maximum depends on neither the order nor the repetition of lines. */
  lemma FieldMaxIgnoresOrder(read: Reading, a: seq<Line>, b: seq<Line>, k: Key)
    requires Readings(read, a) == Readings(read, b)
    ensures FieldMax(read, a, k) == FieldMax(read, b, k)
  {
    FieldMaxIsMax(read, a, k);
    FieldMaxIsMax(read, b, k);
    if Has(b, k) { HasTransfers(read, b, a, k); }
    if Has(a, k) {
      HasTransfers(read, a, b, k);
      var u, v := FieldMax(read, a, k).value, FieldMax(read, b, k).value;
      forall f ensures u.Get(f) == v.Get(f) {
        MaxTransfers(read, a, b, k, f, u.Get(f));
        MaxIsUnique(read, b, k, f, u.Get(f), v.Get(f));
      }
      SameFieldsSameUsage(u, v);
    }
  }

  /** The largest tuple is one of the lines', and none of them sums to more. */
  lemma {:induction false} LargestIsALine(read: Reading, lines: seq<Line>, k: Key)
    ensures Largest(read, lines, k).Some? <==> Has(lines, k)
    ensures Largest(read, lines, k).Some? ==>
      var u := Largest(read, lines, k).value;
      && (exists l <- lines :: l.key == k && read(l.usage) == u)
      && (forall l <- lines :: l.key == k ==> read(l.usage).Sum() <= u.Sum())
  {
    if lines != [] {
      var shorter, line := lines[..|lines| - 1], lines[|lines| - 1];
      LargestIsALine(read, shorter, k);
      assert lines == shorter + [line];
      HasAppend(shorter, line, k);
      var before := Largest(read, shorter, k);
      if before.Some? && Largest(read, lines, k) == before {
        var l :| l in shorter && l.key == k && read(l.usage) == before.value;
        assert l in lines;
      } else if line.key == k {
        assert line in lines;
      }
    }
  }

  lemma BelowInEveryField(u: Usage, v: Usage)
    requires forall f :: u.Get(f) <= v.Get(f)
    ensures u.Sum() <= v.Sum()
    ensures u.Sum() == v.Sum() ==> u == v
  {
    assert u.Get(Input) <= v.Get(Input) && u.Get(Output) <= v.Get(Output) && u.Get(CacheRead) <= v.Get(CacheRead);
    assert u.Get(Write5m) <= v.Get(Write5m) && u.Get(Write1h) <= v.Get(Write1h);
  }

  lemma LinesAreBelow(read: Reading, lines: seq<Line>, k: Key, l: Line)
    requires l in lines && l.key == k
    ensures FieldMax(read, lines, k).Some? && read(l.usage).Sum() <= FieldMax(read, lines, k).value.Sum()
    ensures var u := FieldMax(read, lines, k).value; read(l.usage).Sum() == u.Sum() ==> read(l.usage) == u
  {
    FieldMaxIsMax(read, lines, k);
    var u := FieldMax(read, lines, k).value;
    forall f ensures read(l.usage).Get(f) <= u.Get(f) {
      assert IsMax(read, lines, k, f, u.Get(f));
    }
    BelowInEveryField(read(l.usage), u);
  }

  // ---- the scripts' loops ----

  datatype Entry = Entry(usage: Usage, timestamp: string, model: string, branch: string)

  /** The first line of a message, which gives its metadata. */
  predicate IsFirst(lines: seq<Line>, k: Key, i: nat) {
    i < |lines| && lines[i].key == k && forall j | 0 <= j < i :: lines[j].key != k
  }

  /** The first branch a message's lines name. */
  function FirstBranch(lines: seq<Line>, k: Key): string {
    if lines == [] then ""
    else
      var before, line := FirstBranch(lines[..|lines| - 1], k), lines[|lines| - 1];
      if before == "" && line.key == k then line.branch else before
  }

  /** FirstBranch is the branch of the first of the message's lines that name one. */
  lemma {:induction false} FirstBranchIsFirst(lines: seq<Line>, k: Key)
    ensures FirstBranch(lines, k) == "" <==> forall l <- lines :: l.key == k ==> l.branch == ""
    ensures FirstBranch(lines, k) != "" ==>
      exists i :: 0 <= i < |lines| && lines[i].key == k && lines[i].branch == FirstBranch(lines, k)
                  && forall j | 0 <= j < i :: lines[j].key == k ==> lines[j].branch == ""
  {
    if lines != [] {
      var n := |lines| - 1;
      var before := FirstBranch(lines[..n], k);
      FirstBranchIsFirst(lines[..n], k);
      assert lines == lines[..n] + [lines[n]];
      if before != "" {
        var i :| 0 <= i < n && lines[..n][i].key == k && lines[..n][i].branch == before
                 && forall j | 0 <= j < i :: lines[..n][j].key == k ==> lines[..n][j].branch == "";
        assert lines[i] in lines;
        forall j | 0 <= j < i ensures lines[j].key == k ==> lines[j].branch == "" { assert lines[..n][j] == lines[j]; }
      } else {
        forall j | 0 <= j < n ensures lines[j].key == k ==> lines[j].branch == "" { assert lines[j] in lines[..n]; }
        assert lines[n] in lines;
      }
    }
  }

  ghost predicate Described(lines: seq<Line>, k: Key, e: Entry) {
    && (exists i: nat :: IsFirst(lines, k, i) && e.timestamp == lines[i].timestamp && e.model == lines[i].model)
    && e.branch == FirstBranch(lines, k)
  }

  /** parse.py's table: per message the field maximum, and the first line's metadata. */
  ghost predicate Parsed(lines: seq<Line>, agg: map<Key, Entry>) {
    && (forall k :: k in agg <==> FieldMax(ParsedUsage, lines, k).Some?)
    && (forall k <- agg :: Some(agg[k].usage) == FieldMax(ParsedUsage, lines, k) && Described(lines, k, agg[k]))
  }

  lemma DescribedStays(lines: seq<Line>, line: Line, k: Key, e: Entry)
    requires Described(lines, k, e)
    ensures Described(lines + [line], k, e.(branch := FirstBranch(lines + [line], k)))
  {
    var i: nat :| IsFirst(lines, k, i) && e.timestamp == lines[i].timestamp && e.model == lines[i].model;
    assert IsFirst(lines + [line], k, i);
  }

  lemma {:induction false} NoBranchYet(lines: seq<Line>, k: Key)
    requires !Has(lines, k)
    ensures FirstBranch(lines, k) == ""
  {
    if lines != [] {
      var shorter, line := lines[..|lines| - 1], lines[|lines| - 1];
      assert lines == shorter + [line];
      HasAppend(shorter, line, k);
      NoBranchYet(shorter, k);
    }
  }

  lemma DescribedFirst(lines: seq<Line>, line: Line, e: Entry)
    requires !Has(lines, line.key)
    requires e.timestamp == line.timestamp && e.model == line.model && e.branch == line.branch
    ensures Described(lines + [line], line.key, e)
  {
    assert (lines + [line])[..|lines|] == lines;
    NoBranchYet(lines, line.key);
    forall j | 0 <= j < |lines| ensures lines[j].key != line.key { assert lines[j] in lines; }
    assert IsFirst(lines + [line], line.key, |lines|);
  }

  /** Each field replaced where the new line has more. */
  method Raise(prev: Usage, rec: Usage) returns (u: Usage)
    ensures u == Join(prev, rec)
  {
    u := prev;
    if rec.input > u.input { u := u.(input := rec.input); }
    if rec.output > u.output { u := u.(output := rec.output); }
    if rec.cacheRead > u.cacheRead { u := u.(cacheRead := rec.cacheRead); }
    if rec.write5m > u.write5m { u := u.(write5m := rec.write5m); }
    if rec.write1h > u.write1h { u := u.(write1h := rec.write1h); }
  }

  /** One line's update of the table. */
  method FoldLine(ghost before: seq<Line>, line: Line, agg: map<Key, Entry>) returns (next: map<Key, Entry>)
    requires Parsed(before, agg)
    ensures Parsed(before + [line], next)
  {
    var k, rec := line.key, ParsedUsage(line.usage);
    ghost var lines := before + [line];
    assert lines[..|before|] == before;
    FieldMaxIsMax(ParsedUsage, before, k);
    forall key | key in agg ensures Described(lines, key, agg[key].(branch := FirstBranch(lines, key))) {
      DescribedStays(before, line, key, agg[key]);
    }
    if k !in agg {
      next := agg[k := Entry(rec, line.timestamp, line.model, line.branch)];
      DescribedFirst(before, line, next[k]);
    } else {
      var prev := agg[k];
      var raised := Raise(prev.usage, rec);
      prev := prev.(usage := raised);
      if prev.branch == "" && line.branch != "" { prev := prev.(branch := line.branch); }
      next := agg[k := prev];
    }
  }

  /** parse.py's loop: a line without a usage is skipped. */
  method ParseLines(logged: seq<Logged>) returns (agg: map<Key, Entry>)
    ensures Parsed(WithUsage(logged), agg)
  {
    agg := map[];
    for i := 0 to |logged|
      invariant Parsed(WithUsage(logged[..i]), agg)
    {
      assert logged[..i + 1][..i] == logged[..i];
      if logged[i].usage.None? {
        assert WithUsage(logged[..i + 1]) == WithUsage(logged[..i]);
        continue;
      }
      agg := FoldLine(WithUsage(logged[..i]), AsLine(logged[i]), agg);
    }
    assert logged[..|logged|] == logged;
  }

  /** generate.py's table: per message the first usage of the largest sum. */
  ghost predicate Kept(lines: seq<Line>, usage: map<Key, Usage>) {
    && (forall k :: k in usage <==> Has(lines, k))
    && (forall k <- usage :: Some(usage[k]) == Largest(GeneratedUsage, lines, k))
  }

  /** One line's update of generate.py's table. */
  method KeepLine(ghost before: seq<Line>, line: Line, usage: map<Key, Usage>) returns (next: map<Key, Usage>)
    requires Kept(before, usage)
    ensures Kept(before + [line], next)
  {
    var k, tuple := line.key, GeneratedUsage(line.usage);
    assert (before + [line])[..|before|] == before;
    forall key ensures Has(before + [line], key) <==> Has(before, key) || line.key == key {
      HasAppend(before, line, key);
    }
    LargestIsALine(GeneratedUsage, before, k);
    next := if k !in usage || tuple.Sum() > usage[k].Sum() then usage[k := tuple] else usage;
  }

  /** generate.py's loop: a line without a usage counts no tokens. */
  method KeepLargest(logged: seq<Logged>) returns (usage: map<Key, Usage>)
    ensures Kept(Lines(logged), usage)
  {
    usage := map[];
    for i := 0 to |logged|
      invariant Kept(Lines(logged[..i]), usage)
    {
      assert logged[..i + 1][..i] == logged[..i];
      usage := KeepLine(Lines(logged[..i]), AsLine(logged[i]), usage);
    }
    assert logged[..|logged|] == logged;
  }

  /** Two parses of the same readings give the same tokens to the same messages. */
  lemma ParsesAgree(a: seq<Line>, b: seq<Line>, agg: map<Key, Entry>, agg': map<Key, Entry>)
    requires Readings(ParsedUsage, a) == Readings(ParsedUsage, b) && Parsed(a, agg) && Parsed(b, agg')
    ensures agg.Keys == agg'.Keys && forall k <- agg :: agg[k].usage == agg'[k].usage
  {
    forall k ensures FieldMax(ParsedUsage, a, k) == FieldMax(ParsedUsage, b, k) {
      FieldMaxIgnoresOrder(ParsedUsage, a, b, k);
    }
    forall k <- agg ensures agg[k].usage == agg'[k].usage {
      assert k in agg';
    }
  }

  // ---- the two tables ----

  /** Counts are counts. */
  predicate NonNegative(raw: Raw) {
    && raw.input >= 0 && raw.output >= 0 && raw.cacheRead >= 0 && raw.writes >= 0
    && OrZero(raw.write5m) >= 0 && OrZero(raw.write1h) >= 0
  }

  predicate AllNonNegative(logged: seq<Logged>) {
    forall l <- logged :: l.usage.Some? ==> NonNegative(l.usage.value)
  }

  /** parse.py reads no fewer tokens in a line, field by field, and generate.py none below zero. */
  lemma ParsedReadsMore(raw: Raw)
    requires NonNegative(raw)
    ensures forall f :: 0 <= GeneratedUsage(raw).Get(f) <= ParsedUsage(raw).Get(f)
    ensures 0 <= GeneratedUsage(raw).Sum() <= ParsedUsage(raw).Sum()
    ensures GeneratedUsage(raw).Sum() == ParsedUsage(raw).Sum() ==> GeneratedUsage(raw) == ParsedUsage(raw)
  {
  }

  const NOTHING := Usage(0, 0, 0, 0, 0)

  lemma NothingIsTheOnlyZero(u: Usage)
    requires (forall f :: 0 <= u.Get(f)) && u.Sum() <= 0
    ensures u == NOTHING
  {
    assert 0 <= u.Get(Input) && 0 <= u.Get(Output) && 0 <= u.Get(CacheRead);
    assert 0 <= u.Get(Write5m) && 0 <= u.Get(Write1h);
  }

  /** What generate.py reads beyond parse.py is lines without tokens. */
  lemma {:induction false} LinesSplit(logged: seq<Logged>, l: Line)
    requires AllNonNegative(logged)
    ensures l in WithUsage(logged) ==> l in Lines(logged) && NonNegative(l.usage)
    ensures l in Lines(logged) ==> l in WithUsage(logged) || l.usage == NO_TOKENS
  {
    if logged != [] {
      var n := |logged| - 1;
      assert logged == logged[..n] + [logged[n]] && logged[n] in logged;
      LinesSplit(logged[..n], l);
    }
  }

  /** One line that both scripts read as the maximum of every field. */
  predicate OneLineHasAll(lines: seq<Line>, k: Key, u: Usage) {
    exists l <- lines :: l.key == k && ParsedUsage(l.usage) == GeneratedUsage(l.usage) == u
  }

  /** A line that generate.py reads as having as many tokens as parse.py counts is read alike by both. */
  lemma LineThatHasAll(lines: seq<Line>, k: Key, l: Line)
    requires l in lines && l.key == k && NonNegative(l.usage)
    ensures FieldMax(ParsedUsage, lines, k).Some?
    ensures var u := FieldMax(ParsedUsage, lines, k).value;
            && 0 <= GeneratedUsage(l.usage).Sum() <= u.Sum()
            && (GeneratedUsage(l.usage).Sum() == u.Sum() ==> ParsedUsage(l.usage) == GeneratedUsage(l.usage) == u)
  {
    ParsedReadsMore(l.usage);
    LinesAreBelow(ParsedUsage, lines, k, l);
  }

  /** The messages of the two tables: generate.py also keeps those no line of which carries a usage. */
  lemma TablesHaveTheseMessages(logged: seq<Logged>, agg: map<Key, Entry>, usage: map<Key, Usage>, k: Key)
    requires Parsed(WithUsage(logged), agg) && Kept(Lines(logged), usage) && AllNonNegative(logged)
    ensures k in agg <==> Has(WithUsage(logged), k)
    ensures k in usage <==> Has(Lines(logged), k)
    ensures k in agg ==> k in usage
    ensures k in usage && k !in agg ==> usage[k] == NOTHING
  {
    FieldMaxIsMax(ParsedUsage, WithUsage(logged), k);
    if l :| l in WithUsage(logged) && l.key == k { LinesSplit(logged, l); }
    if k in usage {
      LargestIsALine(GeneratedUsage, Lines(logged), k);
      var kept :| kept in Lines(logged) && kept.key == k && GeneratedUsage(kept.usage) == usage[k];
      LinesSplit(logged, kept);
    }
  }

  /**
   The scripts' tables compared: parse.py never counts fewer tokens for a message, and the two count
   the same exactly when one line, read alike by both, carries every maximum.
   */
  lemma TablesAgree(logged: seq<Logged>, agg: map<Key, Entry>, usage: map<Key, Usage>, k: Key)
    requires Parsed(WithUsage(logged), agg) && Kept(Lines(logged), usage) && AllNonNegative(logged) && k in agg
    ensures k in usage
    ensures usage[k].Sum() <= agg[k].usage.Sum()
    ensures usage[k].Sum() == agg[k].usage.Sum() <==> usage[k] == agg[k].usage
    ensures usage[k] == agg[k].usage <==> OneLineHasAll(WithUsage(logged), k, agg[k].usage)
  {
    TablesHaveTheseMessages(logged, agg, usage, k);
    KeptIsBelow(logged, k, usage[k], agg[k].usage);
    if OneLineHasAll(WithUsage(logged), k, agg[k].usage) {
      var l :| l in WithUsage(logged) && l.key == k && ParsedUsage(l.usage) == GeneratedUsage(l.usage) == agg[k].usage;
      LinesSplit(logged, l);
      LargestIsALine(GeneratedUsage, Lines(logged), k);
      assert GeneratedUsage(l.usage).Sum() <= usage[k].Sum();
    }
  }

  lemma KeptLine(lines: seq<Line>, k: Key, v: Usage) returns (l: Line)
    requires Largest(GeneratedUsage, lines, k) == Some(v)
    ensures l in lines && l.key == k && GeneratedUsage(l.usage) == v
  {
    LargestIsALine(GeneratedUsage, lines, k);
    l :| l in lines && l.key == k && GeneratedUsage(l.usage) == v;
  }

  lemma CountedLine(lines: seq<Line>, k: Key) returns (l: Line)
    requires FieldMax(ParsedUsage, lines, k).Some?
    ensures l in lines && l.key == k
  {
    FieldMaxIsMax(ParsedUsage, lines, k);
    l :| l in lines && l.key == k;
  }

  /** What generate.py keeps of a message is at most its field maximum, and only equal through one line. */
  lemma KeptIsBelow(logged: seq<Logged>, k: Key, v: Usage, u: Usage)
    requires AllNonNegative(logged)
    requires Largest(GeneratedUsage, Lines(logged), k) == Some(v)
    requires FieldMax(ParsedUsage, WithUsage(logged), k) == Some(u)
    ensures v.Sum() <= u.Sum()
    ensures v.Sum() == u.Sum() ==> v == u && OneLineHasAll(WithUsage(logged), k, u)
  {
    var kept := KeptLine(Lines(logged), k, v);
    LinesSplit(logged, kept);
    if kept in WithUsage(logged) {
      LineThatHasAll(WithUsage(logged), k, kept);
    } else {
      var l := CountedLine(WithUsage(logged), k);
      LinesSplit(logged, l);
      NothingIsLeast(WithUsage(logged), k, l, u);
    }
  }

  /** Against a line without tokens: if nothing is the most, a line with a usage has nothing too. */
  lemma NothingIsLeast(lines: seq<Line>, k: Key, l: Line, u: Usage)
    requires l in lines && l.key == k && NonNegative(l.usage) && FieldMax(ParsedUsage, lines, k) == Some(u)
    ensures 0 <= u.Sum()
    ensures u.Sum() == 0 ==> u == NOTHING && OneLineHasAll(lines, k, u)
  {
    LineThatHasAll(lines, k, l);
    ParsedReadsMore(l.usage);
    if u.Sum() == 0 { NothingIsTheOnlyZero(GeneratedUsage(l.usage)); }
  }

  /** Two lines of one message whose maxima lie apart: three tokens to parse.py, two to generate.py. */
  lemma TablesCanDiffer(k: Key)
    ensures var a := Line(k, Raw(1, 0, 0, 0, None, None), "", "", "");
            var b := Line(k, Raw(0, 2, 0, 0, None, None), "", "", "");
            && FieldMax(ParsedUsage, [a, b], k) == Some(Usage(1, 2, 0, 0, 0))
            && Largest(GeneratedUsage, [a, b], k) == Some(Usage(0, 2, 0, 0, 0))
  {
    var a := Line(k, Raw(1, 0, 0, 0, None, None), "", "", "");
    var b := Line(k, Raw(0, 2, 0, 0, None, None), "", "", "");
    assert [a, b][..1] == [a] && [a][..0] == [];
    assert FieldMax(ParsedUsage, [a], k) == Some(Usage(1, 0, 0, 0, 0));
    assert Largest(GeneratedUsage, [a], k) == Some(Usage(1, 0, 0, 0, 0));
  }
}
