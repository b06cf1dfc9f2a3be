/**
  * The run-length encoded line table (`Lines`): one source line per recorded
  * entry, with consecutive equal lines stored as a single `(line, count)` run.
  */
module LineTable {
  import opened Wrappers

  /** A run: `occurrences` consecutive entries, all recorded on source line `line`. */
  datatype LineEncoding = LineEncoding(line: nat, occurrences: nat)

  function Repeat(line: nat, k: nat): (s: seq<nat>)
    ensures |s| == k
    ensures forall i :: 0 <= i < k ==> s[i] == line
  {
    if k == 0 then [] else Repeat(line, k - 1) + [line]
  }

  /** The uncompressed table: each run written out `occurrences` times, in order. */
  function Expand(runs: seq<LineEncoding>): seq<nat>
  {
    if runs == [] then []
    else
      var last := runs[|runs| - 1];
      Expand(runs[..|runs| - 1]) + Repeat(last.line, last.occurrences)
  }

  /** The sum of the run counts. */
  function Total(runs: seq<LineEncoding>): nat
  {
    if runs == [] then 0 else Total(runs[..|runs| - 1]) + runs[|runs| - 1].occurrences
  }

  /** The shape `add_line` keeps: no empty run, and no two adjacent runs on the same line. */
  predicate Canonical(runs: seq<LineEncoding>)
  {
    && (forall i :: 0 <= i < |runs| ==> runs[i].occurrences >= 1)
    && (forall i :: 0 < i < |runs| ==> runs[i - 1].line != runs[i].line)
  }

  /** `add_line` on the run list: extend the last run when it is on `line`, else open a run `(line, 1)`. */
  function Record(runs: seq<LineEncoding>, line: nat): (r: seq<LineEncoding>)
    ensures |runs| <= |r| <= |runs| + 1
    ensures |r| > 0 && r[|r| - 1].line == line
  {
    if |runs| > 0 && runs[|runs| - 1].line == line then
      runs[|runs| - 1 := runs[|runs| - 1].(occurrences := runs[|runs| - 1].occurrences + 1)]
    else
      runs + [LineEncoding(line, 1)]
  }

  lemma ExpandSnoc(runs: seq<LineEncoding>, r: LineEncoding)
    ensures Expand(runs + [r]) == Expand(runs) + Repeat(r.line, r.occurrences)
  {
  }

  lemma {:induction false} ExpandConcat(a: seq<LineEncoding>, b: seq<LineEncoding>)
    ensures Expand(a + b) == Expand(a) + Expand(b)
    decreases |b|
  {
    if b == [] {
      assert a + b == a;
    } else {
      var b' := b[..|b| - 1];
      var r := b[|b| - 1];
      assert a + b == (a + b') + [r];
      assert b == b' + [r];
      ExpandSnoc(a + b', r);
      ExpandConcat(a, b');
      ExpandSnoc(b', r);
    }
  }

  /** The uncompressed table has as many entries as the runs count. */
  lemma {:induction false} ExpandLength(runs: seq<LineEncoding>)
    ensures |Expand(runs)| == Total(runs)
    decreases |runs|
  {
    if runs != [] {
      ExpandLength(runs[..|runs| - 1]);
    }
  }

  /** Recording `line` appends exactly `line` to the uncompressed table. */
  lemma RecordExpands(runs: seq<LineEncoding>, line: nat)
    ensures Expand(Record(runs, line)) == Expand(runs) + [line]
    ensures Total(Record(runs, line)) == Total(runs) + 1
  {
  }

  /**
    * Recording either appends the run `(line, 1)` to the unchanged table, or
    * keeps the length and only increments the count of a last run already on
    * `line`; every earlier run is untouched, and the table stays canonical.
    */
  lemma RecordKeepsEarlierRuns(runs: seq<LineEncoding>, line: nat)
    ensures var r := Record(runs, line);
      && |runs| <= |r| <= |runs| + 1
      && (forall i :: 0 <= i < |runs| - 1 ==> r[i] == runs[i])
      && (|r| == |runs| + 1 ==> r == runs + [LineEncoding(line, 1)])
      && (|r| == |runs| ==>
            && runs != [] && runs[|runs| - 1].line == line
            && r[|r| - 1] == runs[|runs| - 1].(occurrences := runs[|runs| - 1].occurrences + 1))
      && (Canonical(runs) ==> Canonical(r))
  {
  }

  /** A canonical table is determined by its uncompressed contents (the encoding is unique). */
  lemma {:induction false} CanonicalUnique(a: seq<LineEncoding>, b: seq<LineEncoding>)
    requires Canonical(a) && Canonical(b)
    requires Expand(a) == Expand(b)
    ensures a == b
    decreases |a| + |b|
  {
    LastOfExpand(a);
    LastOfExpand(b);
    if a != [] && b != [] {
      PeelLastRun(a, b);
      CanonicalUnique(a[..|a| - 1], b[..|b| - 1]);
      assert a == a[..|a| - 1] + [a[|a| - 1]];
      assert b == b[..|b| - 1] + [b[|b| - 1]];
    }
  }

  /** Two non-empty canonical tables with the same contents end in the same run. */
  lemma PeelLastRun(a: seq<LineEncoding>, b: seq<LineEncoding>)
    requires Canonical(a) && Canonical(b) && a != [] && b != []
    requires Expand(a) == Expand(b)
    ensures a[|a| - 1] == b[|b| - 1]
    ensures Expand(a[..|a| - 1]) == Expand(b[..|b| - 1])
  {
    var a', x := a[..|a| - 1], a[|a| - 1];
    var b', y := b[..|b| - 1], b[|b| - 1];
    // Both last runs end the same table, on its last line, and span its trailing run.
    LastRunLength(a);
    LastRunLength(b);
    assert x == y;
    assert a == a' + [x];
    assert b == b' + [y];
    ExpandSnoc(a', x);
    ExpandSnoc(b', y);
    SamePrefix(Expand(a'), Expand(b'), Repeat(x.line, x.occurrences));
  }

  lemma SamePrefix(p: seq<nat>, q: seq<nat>, r: seq<nat>)
    requires p + r == q + r
    ensures p == q
  {
    assert p == (p + r)[..|p|];
    assert q == (q + r)[..|q|];
  }

  /** How many entries at the end of `e` are equal to `v`. */
  function TrailLen(e: seq<nat>, v: nat): nat
  {
    if e == [] || e[|e| - 1] != v then 0 else 1 + TrailLen(e[..|e| - 1], v)
  }

  lemma {:induction false} TrailLenRepeat(p: seq<nat>, v: nat, k: nat)
    ensures TrailLen(p + Repeat(v, k), v) == TrailLen(p, v) + k
    decreases k
  {
    if k == 0 {
      assert p + Repeat(v, k) == p;
    } else {
      var q := p + Repeat(v, k);
      assert q[..|q| - 1] == p + Repeat(v, k - 1);
      TrailLenRepeat(p, v, k - 1);
    }
  }

  /** In a canonical table the last run is exactly the trailing run of equal entries. */
  lemma LastRunLength(runs: seq<LineEncoding>)
    requires Canonical(runs) && runs != []
    ensures TrailLen(Expand(runs), runs[|runs| - 1].line) == runs[|runs| - 1].occurrences
  {
    var init, last := runs[..|runs| - 1], runs[|runs| - 1];
    assert runs == init + [last];
    ExpandSnoc(init, last);
    TrailLenRepeat(Expand(init), last.line, last.occurrences);
    LastOfExpand(init);
  }

  /** A non-empty canonical table ends in an entry of its last run, and has no empty expansion. */
  lemma LastOfExpand(runs: seq<LineEncoding>)
    requires Canonical(runs)
    ensures runs == [] <==> Expand(runs) == []
    ensures runs != [] ==> Expand(runs)[|Expand(runs)| - 1] == runs[|runs| - 1].line
  {
  }

  /** `Lines`: the table as the chunk stores it, updated in place. */
  class Lines {
    var lines: seq<LineEncoding>
    /** The line of every recorded entry, in recording order. */
    ghost var entries: seq<nat>

    ghost predicate Valid()
      reads this
    {
      Canonical(lines) && Expand(lines) == entries
    }

    constructor ()
      ensures Valid()
      ensures lines == [] && entries == []
    {
      lines := [];
      entries := [];
    }

    /** `add_line`: records one more entry on `lineNum`. */
    method AddLine(lineNum: nat)
      requires Valid()
      modifies this
      ensures Valid()
      ensures entries == old(entries) + [lineNum]

      ensures lines == Record(old(lines), lineNum)
    {
      RecordExpands(lines, lineNum);
      RecordKeepsEarlierRuns(lines, lineNum);
      if |lines| > 0 && lines[|lines| - 1].line == lineNum {
        var last := lines[|lines| - 1];
        lines := lines[|lines| - 1 := last.(occurrences := last.occurrences + 1)];
      } else {
        lines := lines + [LineEncoding(lineNum, 1)];
      }
      entries := entries + [lineNum];
    }

    /**
      * `get_line`: the line of entry `idx`, found by scanning the runs while
      * accumulating their counts; None when `idx` is past the last entry.
      */
    method GetLine(idx: nat) returns (r: Option<nat>)
      ensures r == if idx < |Expand(lines)| then Some(Expand(lines)[idx]) else None
      ensures Valid() ==> r == if idx < |entries| then Some(entries[idx]) else None
    {
      var start := 0;
      var k := 0;
      while k < |lines|
        invariant 0 <= k <= |lines|
        invariant start == |Expand(lines[..k])|
        invariant start <= idx
      {
        var le := lines[k];
        ExpandConcat(lines[..k] + [le], lines[k + 1..]);
        ExpandSnoc(lines[..k], le);
        assert lines[..k] + [le] + lines[k + 1..] == lines;
        assert lines[..k + 1] == lines[..k] + [le];
        if idx < start + le.occurrences {
          return Some(le.line);
        }
        start := start + le.occurrences;
        k := k + 1;
      }
      assert lines[..k] == lines;
      return None;
    }
  }

  /** The table of the in-file test: lines 12, 12, 14, 14, 14, 15 recorded in order. */
  method ExampleTable() returns (table: Lines)
    ensures fresh(table) && table.Valid()
    ensures table.entries == [12, 12, 14, 14, 14, 15]
  {
    table := new Lines();
    table.AddLine(12);
    table.AddLine(12);
    table.AddLine(14);
    table.AddLine(14);
    table.AddLine(14);
    table.AddLine(15);
  }

  /** The lookups of the in-file test: on the empty table, then at 0, 2, 4, 5 and 6. */
  method LinesExample() returns (found: seq<Option<nat>>)
    ensures found == [None, Some(12), Some(14), Some(14), Some(15), None]
  {
    var empty := new Lines();
    var none := empty.GetLine(0);
    var table := ExampleTable();
    var l0 := table.GetLine(0);
    var l2 := table.GetLine(2);
    var l4 := table.GetLine(4);
    var l5 := table.GetLine(5);
    var l6 := table.GetLine(6);
    found := [none, l0, l2, l4, l5, l6];
  }
}
