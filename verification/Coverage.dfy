/**
 The coverage report: merging the records of an lcov file, collecting the lines a change wrote,
 and the gate on how many of those are covered.
 */
module Coverage {
  import opened Wrappers

  // ---- Merging an lcov file ----------------------------------------------------------------

  // One line of the file. A data line whose numbers do not read is skipped; paths are as they
  // come out of being made relative to the repository.
  datatype Line =
    | SourceFile(path: string)
    | Data(numbers: Option<(int, int)>)
    | LinesFound(n: int)
    | LinesHit(n: int)
    | EndOfRecord
    | Other

  datatype Record = Record(path: string, line: int, hits: int)

  type Hits = map<string, map<int, int>>

  // The file a data line belongs to, after reading `lines`.
  function Current(lines: seq<Line>): Option<string> {
    if lines == [] then None
    else
      match lines[|lines| - 1]
      case SourceFile(path) => Some(path)
      case EndOfRecord => None
      case _ => Current(lines[..|lines| - 1])
  }

  // The data records of a report, each with the file it belongs to.
  function Records(lines: seq<Line>): seq<Record> {
    if lines == [] then []
    else
      var (init, last) := (lines[..|lines| - 1], lines[|lines| - 1]);
      if last.Data? && last.numbers.Some? && Current(init).Some?
      then Records(init) + [Record(Current(init).value, last.numbers.value.0, last.numbers.value.1)]
      else Records(init)
  }

  function Totals(lines: seq<Line>): (int, int) {
    if lines == [] then (0, 0)
    else
      var (found, hit) := Totals(lines[..|lines| - 1]);
      match lines[|lines| - 1]
      case LinesFound(n) => (found + n, hit)
      case LinesHit(n) => (found, hit + n)
      case _ => (found, hit)
  }

  ghost predicate Instrumented(hits: Hits, path: string, line: int) {
    path in hits && line in hits[path]
  }

  /** `hits` holds, for each line with a record, the largest of its counts, and none below zero. */
  ghost predicate Merges(hits: Hits, records: seq<Record>) {
    && (forall r :: r in records ==> Instrumented(hits, r.path, r.line) && r.hits <= hits[r.path][r.line])
    && (forall path :: path in hits ==> exists r :: r in records && r.path == path)
    && (forall path, line :: Instrumented(hits, path, line) ==> Attained(hits[path][line], records, path, line))
  }

  // Some record of the line has that count, or the count is zero and some record is below it.
  ghost predicate Attained(count: int, records: seq<Record>, path: string, line: int) {
    count >= 0 && exists r :: r in records && r.path == path && r.line == line && (r.hits == count || count == 0)
  }

  // The map after one more record.
  function Merged(hits: Hits, r: Record): Hits {
    var file := if r.path in hits then hits[r.path] else map[];
    var before := if r.line in file then file[r.line] else 0;
    hits[r.path := file[r.line := if before < r.hits then r.hits else before]]
  }

  lemma MergedEntry(hits: Hits, r: Record, path: string, line: int)
    ensures path in Merged(hits, r) <==> path in hits || path == r.path
    ensures Instrumented(Merged(hits, r), path, line) <==>
            Instrumented(hits, path, line) || (path == r.path && line == r.line)
    ensures Instrumented(Merged(hits, r), path, line) ==>
              var before := if Instrumented(hits, path, line) then hits[path][line] else 0;
              Merged(hits, r)[path][line]
              == if path == r.path && line == r.line && before < r.hits then r.hits else before
  {
  }

  lemma AttainedStill(count: int, records: seq<Record>, extra: Record, path: string, line: int)
    requires Attained(count, records, path, line)
    ensures Attained(count, records + [extra], path, line)
  {
    var r :| r in records && r.path == path && r.line == line && (r.hits == count || count == 0);
    assert r in records + [extra];
  }

  lemma MergesOneMore(hits: Hits, records: seq<Record>, r: Record)
    requires Merges(hits, records)
    ensures Merges(Merged(hits, r), records + [r])
  {
    hide Merged, Attained;
    var after, all := Merged(hits, r), records + [r];
    forall path, line | Instrumented(after, path, line)
      ensures Attained(after[path][line], all, path, line)
    {
      MergedEntry(hits, r, path, line);
      NewlyAttained(after[path][line], records, r, path, line);
      if Instrumented(hits, path, line) { AttainedStill(hits[path][line], records, r, path, line); }
    }
    forall q | q in all
      ensures Instrumented(after, q.path, q.line) && q.hits <= after[q.path][q.line]
    {
      MergedEntry(hits, r, q.path, q.line);
      assert q in records || q == r;
    }
    forall path | path in after
      ensures exists q :: q in all && q.path == path
    {
      MergedEntry(hits, r, path, 0);
      if path == r.path {
        assert r in all;
      } else {
        var q :| q in records && q.path == path;
        assert q in all;
      }
    }
  }

  lemma NewlyAttained(count: int, records: seq<Record>, r: Record, path: string, line: int)
    ensures r.path == path && r.line == line && count >= 0 && (count == r.hits || count == 0) ==>
              Attained(count, records + [r], path, line)
  {
    assert r in records + [r];
  }

  method ParseLcov(lines: seq<Line>) returns (files: Hits, found: int, hit: int)
    ensures Merges(files, Records(lines))
    ensures (found, hit) == Totals(lines)
  {
    files, found, hit := map[], 0, 0;
    var current: Option<string> := None;
    for i := 0 to |lines|
      invariant current == Current(lines[..i])
      invariant Merges(files, Records(lines[..i]))
      invariant (found, hit) == Totals(lines[..i])
    {
      hide Merges, Merged;
      assert lines[..i + 1][..i] == lines[..i];
      match lines[i] {
        case SourceFile(path) => current := Some(path);
        case Data(numbers) =>
          if current.Some? && numbers.Some? {
            var (line, hits) := numbers.value;
            MergesOneMore(files, Records(lines[..i]), Record(current.value, line, hits));
            files := Merged(files, Record(current.value, line, hits));
          }
        case LinesFound(n) => found := found + n;
        case LinesHit(n) => hit := hit + n;
        case EndOfRecord => current := None;
        case Other =>
      }
    }
    assert lines[..|lines|] == lines;
  }

  /** The merge is determined by which records there are: not by their order or repetition. */
  lemma MergeIsDetermined(a: Hits, b: Hits, rs: seq<Record>, ss: seq<Record>)
    requires Merges(a, rs) && Merges(b, ss)
    requires forall r :: r in rs <==> r in ss
    ensures a == b
  {
    hide Merges, Dominated;
    SameRecordsDominate(rs, ss);
    SameRecordsDominate(ss, rs);
    forall path
      ensures path in a <==> path in b
      ensures path in a ==> a[path] == b[path]
    {
      SameFile(a, b, rs, ss, path);
    }
  }

  lemma RecordOfLine(hits: Hits, records: seq<Record>, path: string, line: int) returns (r: Record)
    requires Merges(hits, records) && Instrumented(hits, path, line)
    ensures r in records && r.path == path && r.line == line
    ensures r.hits == hits[path][line] || hits[path][line] == 0
  {
    assert Attained(hits[path][line], records, path, line);
    r :| r in records && r.path == path && r.line == line && (r.hits == hits[path][line] || hits[path][line] == 0);
  }

  lemma RecordOfFile(hits: Hits, records: seq<Record>, path: string) returns (r: Record)
    requires Merges(hits, records) && path in hits
    ensures r in records && r.path == path
  {
    r :| r in records && r.path == path;
  }

  lemma LineOfRecord(hits: Hits, records: seq<Record>, r: Record)
    requires Merges(hits, records) && r in records
    ensures Instrumented(hits, r.path, r.line) && r.hits <= hits[r.path][r.line] && hits[r.path][r.line] >= 0
  {
    assert Attained(hits[r.path][r.line], records, r.path, r.line);
  }

  // `count` is the largest count among the records of the line.
  ghost predicate Largest(count: int, records: seq<Record>, path: string, line: int) {
    && (exists r :: r in records && r.path == path && r.line == line && r.hits == count)
    && (forall r :: r in records && r.path == path && r.line == line ==> r.hits <= count)
  }

  /**
   A line's merged count is the largest of its records' counts if and only if one of them is not
   negative; when all are, it is zero.
   */
  lemma MaximumIff(hits: Hits, records: seq<Record>, path: string, line: int)
    requires Merges(hits, records) && Instrumented(hits, path, line)
    ensures Largest(hits[path][line], records, path, line) <==>
            exists r :: r in records && r.path == path && r.line == line && r.hits >= 0
    ensures (forall r :: r in records && r.path == path && r.line == line ==> r.hits < 0) ==> hits[path][line] == 0
  {
    hide Merges;
    var r := RecordOfLine(hits, records, path, line);
    forall q | q in records && q.path == path && q.line == line
      ensures q.hits <= hits[path][line] && hits[path][line] >= 0
    {
      LineOfRecord(hits, records, q);
    }
  }

  /** A line whose only record counts -1 is merged to 0, which no record says. */
  lemma NegativeCountIsLost(path: string, line: int)
    ensures var records := Records([SourceFile(path), Data(Some((line, -1)))]);
            && records == [Record(path, line, -1)]
            && Merges(map[path := map[line := 0]], records)
            && !Largest(0, records, path, line)
  {
    var r := Record(path, line, -1);
    RecordsAppend([], SourceFile(path));
    assert [] + [SourceFile(path)] == [SourceFile(path)];
    RecordsAppend([SourceFile(path)], Data(Some((line, -1))));
    assert [SourceFile(path)] + [Data(Some((line, -1)))] == [SourceFile(path), Data(Some((line, -1)))];
    assert Records([]) == [] && [] + [r] == [r];
    NothingMerged();
    MergesOneMore(map[], [], r);
    assert Merged(map[], r) == map[path := map[line := 0]];
    assert r in [r];
  }

  lemma NothingMerged()
    ensures Merges(map[], [])
  {
  }

  // Every record of `rs` has one of `ss` for the same line with at least its count.
  ghost predicate Dominated(rs: seq<Record>, ss: seq<Record>) {
    forall r :: r in rs ==> Answered(r, ss)
  }

  ghost predicate Answered(r: Record, ss: seq<Record>) {
    exists s :: s in ss && s.path == r.path && s.line == r.line && r.hits <= s.hits
  }

  lemma FilesBelow(a: Hits, b: Hits, rs: seq<Record>, ss: seq<Record>, path: string)
    requires Merges(a, rs) && Merges(b, ss) && Dominated(rs, ss) && path in a
    ensures path in b
  {
    hide Merges;
    var r := RecordOfFile(a, rs, path);
    assert Answered(r, ss);
    var s :| s in ss && s.path == r.path;
    LineOfRecord(b, ss, s);
  }

  lemma CountBelow(a: Hits, b: Hits, rs: seq<Record>, ss: seq<Record>, path: string, line: int)
    requires Merges(a, rs) && Merges(b, ss) && Dominated(rs, ss)
    requires Instrumented(a, path, line)
    ensures Instrumented(b, path, line) && a[path][line] <= b[path][line]
  {
    hide Merges;
    var r := RecordOfLine(a, rs, path, line);
    assert Answered(r, ss);
    var s :| s in ss && s.path == r.path && s.line == r.line && r.hits <= s.hits;
    LineOfRecord(b, ss, s);
  }

  lemma SameFile(a: Hits, b: Hits, rs: seq<Record>, ss: seq<Record>, path: string)
    requires Merges(a, rs) && Merges(b, ss) && Dominated(rs, ss) && Dominated(ss, rs)
    ensures path in a <==> path in b
    ensures path in a ==> a[path] == b[path]
  {
    hide Merges, Dominated;
    if path in a { FilesBelow(a, b, rs, ss, path); }
    if path in b { FilesBelow(b, a, ss, rs, path); }
    if path in a {
      forall line
        ensures line in a[path] <==> line in b[path]
        ensures line in a[path] ==> a[path][line] == b[path][line]
      {
        if Instrumented(a, path, line) { CountBelow(a, b, rs, ss, path, line); }
        if Instrumented(b, path, line) { CountBelow(b, a, ss, rs, path, line); }
      }
    }
  }

  lemma SameRecordsDominate(rs: seq<Record>, ss: seq<Record>)
    requires forall r :: r in rs ==> r in ss
    ensures Dominated(rs, ss)
  {
    forall r | r in rs ensures Answered(r, ss) {
      assert r in ss;
    }
  }

  // ---- Blocks in any order -----------------------------------------------------------------

  // One file's part of a report: whatever comes before its name, and whatever comes between its
  // name and its end - data, line totals, function and branch records alike.
  datatype Block = Block(preamble: seq<Line>, path: string, body: seq<Line>) {
    predicate Closed() {
      Inner(preamble) && Inner(body)
    }
  }

  // Neither names a file nor ends one.
  predicate Inner(lines: seq<Line>) {
    forall i :: 0 <= i < |lines| ==> !lines[i].SourceFile? && !lines[i].EndOfRecord?
  }

  function BlockLines(b: Block): seq<Line> {
    b.preamble + [SourceFile(b.path)] + b.body + [EndOfRecord]
  }

  function Report(blocks: seq<Block>): seq<Line> {
    if blocks == [] then [] else Report(blocks[..|blocks| - 1]) + BlockLines(blocks[|blocks| - 1])
  }

  ghost predicate AllClosed(blocks: seq<Block>) {
    forall b :: b in blocks ==> b.Closed()
  }

  ghost predicate Within(r: Record, b: Block) {
    r.path == b.path && Data(Some((r.line, r.hits))) in b.body
  }

  ghost predicate Reported(r: Record, blocks: seq<Block>) {
    exists b :: b in blocks && Within(r, b)
  }

  lemma RecordsAppend(lines: seq<Line>, last: Line)
    ensures Current(lines + [last]) == (match last case SourceFile(path) => Some(path)
                                                   case EndOfRecord => None
                                                   case _ => Current(lines))
    ensures Records(lines + [last])
            == if last.Data? && last.numbers.Some? && Current(lines).Some?
               then Records(lines) + [Record(Current(lines).value, last.numbers.value.0, last.numbers.value.1)]
               else Records(lines)
  {
    assert (lines + [last])[..|lines|] == lines;
  }

  // Lines that neither name nor end a file count for the file they come in, if any.
  lemma {:induction false} RecordsOfInner(before: seq<Line>, lines: seq<Line>, r: Record)
    requires Inner(lines)
    ensures Current(before + lines) == Current(before)
    ensures r in Records(before + lines) <==>
            r in Records(before) || (Current(before) == Some(r.path) && Data(Some((r.line, r.hits))) in lines)
    decreases |lines|
  {
    hide Records, Current;
    if lines == [] {
      assert before + lines == before;
    } else {
      var init, last := lines[..|lines| - 1], lines[|lines| - 1];
      RecordsOfInner(before, init, r);
      RecordsAppend(before + init, last);
      assert before + lines == before + init + [last];
      assert lines == init + [last];
    }
  }

  lemma RecordsOfBlock(before: seq<Line>, b: Block, r: Record)
    requires b.Closed() && Current(before) == None
    ensures Current(before + BlockLines(b)) == None
    ensures r in Records(before + BlockLines(b)) <==> r in Records(before) || Within(r, b)
  {
    hide Records, Current;
    var named := before + b.preamble + [SourceFile(b.path)];
    RecordsOfInner(before, b.preamble, r);
    RecordsAppend(before + b.preamble, SourceFile(b.path));
    RecordsOfInner(named, b.body, r);
    RecordsAppend(named + b.body, EndOfRecord);
    Regrouped(before, b.preamble, [SourceFile(b.path)], b.body, [EndOfRecord]);
  }

  lemma Regrouped<T>(a: seq<T>, b: seq<T>, c: seq<T>, d: seq<T>, e: seq<T>)
    ensures a + (b + c + d + e) == a + b + c + d + e
  {
  }

  lemma {:induction false} RecordsOfReport(blocks: seq<Block>, r: Record)
    requires AllClosed(blocks)
    ensures Current(Report(blocks)) == None
    ensures r in Records(Report(blocks)) <==> Reported(r, blocks)
  {
    if blocks != [] {
      hide Records, Current, Within, Reported, BlockLines;
      var init, b := blocks[..|blocks| - 1], blocks[|blocks| - 1];
      RecordsOfReport(init, r);
      RecordsOfBlock(Report(init), b, r);
      assert blocks == init + [b];
      ReportedOneMore(r, init, b);
    }
  }

  lemma ReportedOneMore(r: Record, blocks: seq<Block>, b: Block)
    ensures Reported(r, blocks + [b]) <==> Reported(r, blocks) || Within(r, b)
  {
    hide Within;
    if Reported(r, blocks) {
      var c :| c in blocks && Within(r, c);
      assert c in blocks + [b];
    }
    assert b in blocks + [b];
  }

  lemma {:induction false} TotalsAdd(a: seq<Line>, b: seq<Line>)
    ensures Totals(a + b) == (Totals(a).0 + Totals(b).0, Totals(a).1 + Totals(b).1)
    decreases |b|
  {
    if b == [] {
      assert a + b == a;
    } else {
      var init := b[..|b| - 1];
      TotalsAdd(a, init);
      assert (a + b)[..|a + b| - 1] == a + init;
    }
  }

  // Moving one block to the end changes no total.
  lemma TotalsOfMoved(blocks: seq<Block>, i: nat)
    requires i < |blocks|
    ensures var rest := blocks[..i] + blocks[i + 1..];
            var (moved, all) := (Totals(BlockLines(blocks[i])), Totals(Report(rest)));
            Totals(Report(blocks)) == (all.0 + moved.0, all.1 + moved.1)
    decreases |blocks|
  {
    hide Totals, BlockLines;
    var init, last := blocks[..|blocks| - 1], blocks[|blocks| - 1];
    var rest := blocks[..i] + blocks[i + 1..];
    TotalsAdd(Report(init), BlockLines(last));
    if i == |init| {
      assert rest == init;
    } else {
      TotalsOfMoved(init, i);
      var less := init[..i] + init[i + 1..];
      assert rest == less + [last];
      assert rest[..|rest| - 1] == less;
      TotalsAdd(Report(less), BlockLines(last));
    }
  }

  lemma {:induction false} SameTotals(blocks: seq<Block>, others: seq<Block>)
    requires multiset(blocks) == multiset(others)
    ensures Totals(Report(blocks)) == Totals(Report(others))
    decreases |blocks|
  {
    hide Totals, BlockLines, Report;
    if blocks == [] {
      assert |others| == |multiset(others)| == 0;
    } else {
      var n := |blocks| - 1;
      var i := IndexOf(others, blocks, n);
      SameTotals(blocks[..n], others[..i] + others[i + 1..]);
      TotalsOfMoved(blocks, n);
      assert blocks[..n] + blocks[n + 1..] == blocks[..n];
      TotalsOfMoved(others, i);
    }
  }

  // The last of `ts` is somewhere in `us`, and taking it out of both leaves the same elements.
  lemma IndexOf<T>(us: seq<T>, ts: seq<T>, n: nat) returns (i: nat)
    requires n + 1 == |ts| && multiset(ts) == multiset(us)
    ensures i < |us| && us[i] == ts[n]
    ensures |us| == |ts| && multiset(ts[..n]) == multiset(us[..i] + us[i + 1..])
  {
    assert ts[n] in multiset(ts);
    assert ts[n] in us;
    i :| 0 <= i < |us| && us[i] == ts[n];
    assert ts == ts[..n] + [ts[n]];
    assert us == us[..i] + [us[i]] + us[i + 1..];
    var rest := us[..i] + us[i + 1..];
    assert multiset(rest) == multiset(us[..i]) + multiset(us[i + 1..]);
    assert multiset(ts[..n]) + multiset{ts[n]} == multiset(rest) + multiset{ts[n]};
    assert multiset(ts[..n]) == multiset(ts[..n]) + multiset{ts[n]} - multiset{ts[n]};
    assert multiset(rest) == multiset(rest) + multiset{ts[n]} - multiset{ts[n]};
    assert |ts| == |multiset(ts)| == |multiset(us)| == |us|;
  }

  /**
   However the blocks of a report are ordered, and whatever other lines they carry, it merges to
   the same counts and the same totals.
   */
  lemma BlockOrderIsIrrelevant(a: Hits, b: Hits, blocks: seq<Block>, others: seq<Block>)
    requires multiset(blocks) == multiset(others) && AllClosed(blocks)
    requires Merges(a, Records(Report(blocks))) && Merges(b, Records(Report(others)))
    ensures a == b
    ensures Totals(Report(blocks)) == Totals(Report(others))
  {
    hide Merges, Records, Totals, Report, Within;
    SameTotals(blocks, others);
    assert forall x :: x in blocks <==> x in multiset(blocks);
    assert forall x :: x in others <==> x in multiset(others);
    assert AllClosed(others);
    forall r ensures r in Records(Report(blocks)) <==> r in Records(Report(others)) {
      RecordsOfReport(blocks, r);
      RecordsOfReport(others, r);
    }
    MergeIsDetermined(a, b, Records(Report(blocks)), Records(Report(others)));
  }

  // ---- The lines a change wrote ------------------------------------------------------------

  // One line of a diff without context; a hunk header that does not read is skipped.
  datatype DiffLine = NewFile(path: string) | NoFile | Hunk(range: Option<(int, nat)>) | Content

  type Changed = map<string, set<int>>

  function DiffFile(diff: seq<DiffLine>): Option<string> {
    if diff == [] then None
    else
      match diff[|diff| - 1]
      case NewFile(path) => Some(path)
      case NoFile => None
      case _ => DiffFile(diff[..|diff| - 1])
  }

  // Some hunk of the diff wrote this line of this file.
  ghost predicate Writes(diff: seq<DiffLine>, path: string, line: int) {
    exists i :: 0 <= i < |diff| && HunkWrites(diff, i, path, line)
  }

  ghost predicate HunkWrites(diff: seq<DiffLine>, i: nat, path: string, line: int)
    requires i < |diff|
  {
    && diff[i].Hunk? && diff[i].range.Some? && DiffFile(diff[..i]) == Some(path)
    && diff[i].range.value.0 <= line < diff[i].range.value.0 + diff[i].range.value.1
  }

  function Range(start: int, count: nat): (r: set<int>)
    ensures forall n :: n in r <==> start <= n < start + count
  {
    if count == 0 then {} else Range(start, count - 1) + {start + count - 1}
  }

  lemma WritesOneMore(diff: seq<DiffLine>, d: DiffLine, path: string, line: int)
    ensures Writes(diff + [d], path, line) <==>
            Writes(diff, path, line) || HunkWrites(diff + [d], |diff|, path, line)
  {
    var all := diff + [d];
    assert all[..|diff|] == diff;
    forall i | 0 <= i < |diff|
      ensures HunkWrites(all, i, path, line) <==> HunkWrites(diff, i, path, line)
    {
      assert all[..i] == diff[..i];
    }
    if Writes(diff, path, line) {
      var i :| 0 <= i < |diff| && HunkWrites(diff, i, path, line);
      assert HunkWrites(all, i, path, line);
    }
  }

  /** Exactly the lines some hunk wrote, file by file. */
  method ChangedLines(diff: seq<DiffLine>) returns (changed: Changed)
    ensures forall path, line :: (path in changed && line in changed[path]) <==> Writes(diff, path, line)
  {
    changed := map[];
    var current: Option<string> := None;
    for i := 0 to |diff|
      invariant current == DiffFile(diff[..i])
      invariant forall path, line :: (path in changed && line in changed[path]) <==> Writes(diff[..i], path, line)
    {
      hide Writes;
      assert diff[..i + 1] == diff[..i] + [diff[i]];
      assert diff[..i + 1][..i] == diff[..i];
      forall path, line { WritesOneMore(diff[..i], diff[i], path, line); }
      match diff[i] {
        case NewFile(path) => current := Some(path);
        case NoFile => current := None;
        case Hunk(range) =>
          if current.Some? && range.Some? {
            var (start, count) := range.value;
            var before := if current.value in changed then changed[current.value] else {};
            changed := changed[current.value := before + Range(start, count)];
          }
        case Content =>
      }
    }
    assert diff[..|diff|] == diff;
  }

  // ---- The patch gate ----------------------------------------------------------------------

  // The changed files in the order they are taken, each with its lines in order.
  type Patch = seq<(string, seq<int>)>

  // How many of `lines` are instrumented, how many of those were hit, and which were not.
  function Judged(hits: map<int, int>, lines: seq<int>): (nat, nat, seq<int>) {
    if lines == [] then (0, 0, [])
    else
      var (total, covered, missing) := Judged(hits, lines[..|lines| - 1]);
      var line := lines[|lines| - 1];
      if line !in hits then (total, covered, missing)
      else if hits[line] > 0 then (total + 1, covered + 1, missing)
      else (total + 1, covered, missing + [line])
  }

  predicate Skipped(files: Hits, excluded: set<string>, path: string) {
    path in excluded || path !in files
  }

  function PatchOf(files: Hits, excluded: set<string>, patch: Patch): (nat, nat, Patch) {
    if patch == [] then (0, 0, [])
    else
      var (total, covered, uncovered) := PatchOf(files, excluded, patch[..|patch| - 1]);
      var (path, lines) := patch[|patch| - 1];
      if Skipped(files, excluded, path) then (total, covered, uncovered)
      else
        var (more, hit, missing) := Judged(files[path], lines);
        (total + more, covered + hit, if missing == [] then uncovered else uncovered + [(path, missing)])
  }

  method PatchCoverage(files: Hits, excluded: set<string>, patch: Patch)
    returns (total: nat, covered: nat, uncovered: Patch)
    ensures (total, covered, uncovered) == PatchOf(files, excluded, patch)
  {
    total, covered, uncovered := 0, 0, [];
    for i := 0 to |patch|
      invariant (total, covered, uncovered) == PatchOf(files, excluded, patch[..i])
    {
      assert patch[..i + 1][..i] == patch[..i];
      var (path, lines) := patch[i];
      if !Skipped(files, excluded, path) {
        var hits := files[path];
        var missing := [];
        ghost var before := (total, covered);
        for j := 0 to |lines|
          invariant (total - before.0, covered - before.1, missing) == Judged(hits, lines[..j])
        {
          assert lines[..j + 1][..j] == lines[..j];
          if lines[j] in hits {
            total := total + 1;
            if hits[lines[j]] > 0 {
              covered := covered + 1;
            } else {
              missing := missing + [lines[j]];
            }
          }
        }
        assert lines[..|lines|] == lines;
        if missing != [] {
          uncovered := uncovered + [(path, missing)];
        }
      }
    }
    assert patch[..|patch|] == patch;
  }

  function LinesIn(patch: Patch): nat {
    if patch == [] then 0 else LinesIn(patch[..|patch| - 1]) + |patch[|patch| - 1].1|
  }

  lemma {:induction false} JudgedAddsUp(hits: map<int, int>, lines: seq<int>)
    ensures var (total, covered, missing) := Judged(hits, lines);
            && covered + |missing| == total
            && (forall l :: l in missing <==> l in lines && l in hits && hits[l] <= 0)
  {
    if lines != [] {
      JudgedAddsUp(hits, lines[..|lines| - 1]);
      assert lines == lines[..|lines| - 1] + [lines[|lines| - 1]];
    }
  }

  ghost function InstrumentedAmong(hits: map<int, int>, lines: seq<int>): set<int> {
    set l | l in lines && l in hits
  }

  ghost function HitAmong(hits: map<int, int>, lines: seq<int>): set<int> {
    set l | l in lines && l in hits && hits[l] > 0
  }

  lemma InstrumentedOneMore(hits: map<int, int>, lines: seq<int>, line: int)
    requires line !in lines
    ensures |InstrumentedAmong(hits, lines + [line])|
            == |InstrumentedAmong(hits, lines)| + if line in hits then 1 else 0
  {
    var before, after := InstrumentedAmong(hits, lines), InstrumentedAmong(hits, lines + [line]);
    assert line !in before;
    if line in hits {
      assert after == before + {line};
    } else {
      assert after == before;
    }
  }

  lemma HitOneMore(hits: map<int, int>, lines: seq<int>, line: int)
    requires line !in lines
    ensures |HitAmong(hits, lines + [line])|
            == |HitAmong(hits, lines)| + if line in hits && hits[line] > 0 then 1 else 0
  {
    var before, after := HitAmong(hits, lines), HitAmong(hits, lines + [line]);
    assert line !in before;
    if line in hits && hits[line] > 0 {
      assert after == before + {line};
    } else {
      assert after == before;
    }
  }

  /** For one file: the total is the changed lines that are instrumented, the covered those hit. */
  lemma {:induction false} JudgedCounts(hits: map<int, int>, lines: seq<int>)
    requires NoRepeats(lines)
    ensures Judged(hits, lines).0 == |InstrumentedAmong(hits, lines)|
    ensures Judged(hits, lines).1 == |HitAmong(hits, lines)|
  {
    hide InstrumentedAmong, HitAmong;
    if lines == [] {
      NoneAmong(hits);
    } else {
      var init, last := lines[..|lines| - 1], lines[|lines| - 1];
      JudgedCounts(hits, init);
      assert lines == init + [last] && last !in init;
      InstrumentedOneMore(hits, init, last);
      HitOneMore(hits, init, last);
    }
  }

  lemma NoneAmong(hits: map<int, int>)
    ensures InstrumentedAmong(hits, []) == {} && HitAmong(hits, []) == {}
  {
  }

  // Line `line` of file `path` is on a list.
  ghost predicate Listed(patch: Patch, path: string, line: int) {
    exists u :: u in patch && u.0 == path && line in u.1
  }

  lemma ListedOneMore(patch: Patch, path: string, lines: seq<int>, p: string, l: int)
    ensures Listed(patch + [(path, lines)], p, l) <==> Listed(patch, p, l) || (p == path && l in lines)
  {
    var all := patch + [(path, lines)];
    if Listed(patch, p, l) {
      var u :| u in patch && u.0 == p && l in u.1;
      assert u in all;
    }
    if p == path && l in lines {
      assert (path, lines) in all;
    }
  }

  lemma {:induction false} UncoveredAre(files: Hits, excluded: set<string>, patch: Patch, path: string, line: int)
    ensures Listed(PatchOf(files, excluded, patch).2, path, line) <==>
            Listed(patch, path, line) && path !in excluded
            && Instrumented(files, path, line) && files[path][line] <= 0
  {
    hide Listed;
    if patch == [] {
      NothingListed(path, line);
    } else {
      var init := patch[..|patch| - 1];
      var (p, lines) := patch[|patch| - 1];
      UncoveredAre(files, excluded, init, path, line);
      assert patch == init + [(p, lines)];
      ListedOneMore(init, p, lines, path, line);
      if !Skipped(files, excluded, p) {
        JudgedAddsUp(files[p], lines);
        ListedOneMore(PatchOf(files, excluded, init).2, p, Judged(files[p], lines).2, path, line);
      }
    }
  }

  lemma NothingListed(path: string, line: int)
    ensures !Listed([], path, line)
  {
  }

  /**
   Nothing is lost: covered lines and lines listed as uncovered add up to the total, and the lines
   listed are exactly the changed ones that are instrumented, not excluded, and never hit.
   */
  lemma {:induction false} PatchAddsUp(files: Hits, excluded: set<string>, patch: Patch)
    ensures var (total, covered, uncovered) := PatchOf(files, excluded, patch);
            && covered + LinesIn(uncovered) == total
            && (forall path, line :: Listed(uncovered, path, line) <==>
                                     Listed(patch, path, line) && path !in excluded
                                     && Instrumented(files, path, line) && files[path][line] <= 0)
  {
    hide Listed;
    forall path, line { UncoveredAre(files, excluded, patch, path, line); }
    if patch != [] {
      var init := patch[..|patch| - 1];
      var (path, lines) := patch[|patch| - 1];
      PatchAddsUp(files, excluded, init);
      if !Skipped(files, excluded, path) {
        JudgedAddsUp(files[path], lines);
        var before, missing := PatchOf(files, excluded, init).2, Judged(files[path], lines).2;
        assert (before + [(path, missing)])[..|before|] == before;
      }
    }
  }

  // ---- The whole patch, as sets of lines ----------------------------------------------------

  // No file is taken twice, and no line of one.
  ghost predicate Once(patch: Patch) {
    && (forall i, j :: 0 <= i < j < |patch| ==> patch[i].0 != patch[j].0)
    && (forall i :: 0 <= i < |patch| ==> NoRepeats(patch[i].1))
  }

  ghost predicate NoRepeats(lines: seq<int>) {
    forall i, j :: 0 <= i < j < |lines| ==> lines[i] != lines[j]
  }

  // The lines of the patch that count: of a file not excluded, and instrumented.
  ghost function Measured(files: Hits, excluded: set<string>, patch: Patch): (m: set<(string, int)>)
    ensures forall at :: at in m <==>
              Listed(patch, at.0, at.1) && at.0 !in excluded && Instrumented(files, at.0, at.1)
  {
    var m := set u, l | u in patch && l in u.1 && u.0 !in excluded && Instrumented(files, u.0, l) :: (u.0, l);
    forall at: (string, int)
      ensures at in m <==> Listed(patch, at.0, at.1) && at.0 !in excluded && Instrumented(files, at.0, at.1)
    {
      if Listed(patch, at.0, at.1) {
        var u :| u in patch && u.0 == at.0 && at.1 in u.1;
      }
    }
    m
  }

  // Those of them that were hit.
  ghost function Hit(files: Hits, measured: set<(string, int)>): set<(string, int)> {
    set m | m in measured && Instrumented(files, m.0, m.1) && files[m.0][m.1] > 0
  }

  ghost function Paired<T(!new), U(!new)>(t: T, us: set<U>): (r: set<(T, U)>)
    ensures forall at: (T, U) :: at in r <==> at.0 == t && at.1 in us
  {
    var r := set u | u in us :: (t, u);
    forall at: (T, U) ensures at in r <==> at.0 == t && at.1 in us {
      if at.0 == t && at.1 in us {
        assert at == (t, at.1);
      }
    }
    r
  }

  lemma {:induction false} PairedCount<T(!new), U(!new)>(t: T, us: set<U>)
    ensures |Paired(t, us)| == |us|
  {
    if us == {} {
      assert Paired(t, us) == {};
    } else {
      var u :| u in us;
      PairedCount(t, us - {u});
      assert Paired(t, us) == Paired(t, us - {u}) + {(t, u)};
    }
  }

  lemma MeasuredAdds(files: Hits, excluded: set<string>, patch: Patch, path: string, lines: seq<int>)
    requires forall line :: !Listed(patch, path, line)
    ensures var was, now := Measured(files, excluded, patch), Measured(files, excluded, patch + [(path, lines)]);
            if Skipped(files, excluded, path) then now == was
            else
              var added, hit := InstrumentedAmong(files[path], lines), HitAmong(files[path], lines);
              && now == was + Paired(path, added) && was !! Paired(path, added)
              && Hit(files, now) == Hit(files, was) + Paired(path, hit) && Hit(files, was) !! Paired(path, hit)
  {
    hide Measured, Paired, Listed;
    forall p, l { ListedOneMore(patch, path, lines, p, l); }
  }

  lemma MeasuredOneMore(files: Hits, excluded: set<string>, patch: Patch, path: string, lines: seq<int>)
    requires forall line :: !Listed(patch, path, line)
    ensures var was, now := Measured(files, excluded, patch), Measured(files, excluded, patch + [(path, lines)]);
            if Skipped(files, excluded, path) then now == was
            else
              && |now| == |was| + |InstrumentedAmong(files[path], lines)|
              && |Hit(files, now)| == |Hit(files, was)| + |HitAmong(files[path], lines)|
  {
    hide Measured, Paired, Listed, Hit, InstrumentedAmong, HitAmong;
    MeasuredAdds(files, excluded, patch, path, lines);
    if !Skipped(files, excluded, path) {
      PairedCount(path, InstrumentedAmong(files[path], lines));
      PairedCount(path, HitAmong(files[path], lines));
    }
  }

  /** The total is the number of lines that count, and the covered the number of those hit. */
  lemma {:induction false} PatchCounts(files: Hits, excluded: set<string>, patch: Patch)
    requires Once(patch)
    ensures PatchOf(files, excluded, patch).0 == |Measured(files, excluded, patch)|
    ensures PatchOf(files, excluded, patch).1 == |Hit(files, Measured(files, excluded, patch))|
  {
    hide Measured, Hit, Judged, InstrumentedAmong, HitAmong, Listed;
    if patch == [] {
      NothingMeasured(files, excluded);
    } else {
      var init := patch[..|patch| - 1];
      var (path, lines) := patch[|patch| - 1];
      PatchCounts(files, excluded, init);
      assert patch == init + [(path, lines)] && NoRepeats(lines);
      assert forall line :: !Listed(init, path, line) by { FileIsNew(init, path, lines); }
      MeasuredOneMore(files, excluded, init, path, lines);
      if !Skipped(files, excluded, path) {
        JudgedCounts(files[path], lines);
      }
    }
  }

  lemma NothingMeasured(files: Hits, excluded: set<string>)
    ensures Measured(files, excluded, []) == {} && Hit(files, {}) == {}
  {
  }

  lemma FileIsNew(patch: Patch, path: string, lines: seq<int>)
    requires Once(patch + [(path, lines)])
    ensures forall line :: !Listed(patch, path, line)
  {
    var all := patch + [(path, lines)];
    forall u | u in patch ensures u.0 != path {
      var i :| 0 <= i < |patch| && patch[i] == u;
      assert all[i].0 != all[|patch|].0;
    }
  }

  // `patch` takes each changed file once, with each of its lines once.
  ghost predicate Enumerates(patch: Patch, changed: Changed) {
    && Once(patch)
    && forall path, line :: Listed(patch, path, line) <==> path in changed && line in changed[path]
  }

  /**
   From the diff to the gate: the lines that count are exactly those some hunk wrote, in a file not
   excluded, that are instrumented.
   */
  lemma DiffIsMeasured(files: Hits, excluded: set<string>, diff: seq<DiffLine>, changed: Changed, patch: Patch)
    requires forall path, line :: (path in changed && line in changed[path]) <==> Writes(diff, path, line)
    requires Enumerates(patch, changed)
    ensures forall path, line :: (path, line) in Measured(files, excluded, patch) <==>
              Writes(diff, path, line) && path !in excluded && Instrumented(files, path, line)
  {
    hide Writes, Listed, Measured;
  }

  // ---- The gate ----------------------------------------------------------------------------

  function Pct(covered: int, total: int): real {
    if total != 0 then 100.0 * covered as real / total as real else 100.0
  }

  // No instrumented line changed is a pass.
  predicate PatchPasses(files: Hits, excluded: set<string>, patch: Patch, least: real) {
    var (total, covered, _) := PatchOf(files, excluded, patch);
    total == 0 || Pct(covered, total) >= least
  }

  // The gate on the whole report, by its own counts.
  predicate ProjectPasses(lines: seq<Line>, least: real) {
    var (found, hit) := Totals(lines);
    Pct(hit, found) >= least
  }

  /**
   The patch gate passes if and only if nothing changed is measured, or the lines hit among those
   measured are at least the share asked for.
   */
  lemma PatchPassesIff(files: Hits, excluded: set<string>, patch: Patch, least: real)
    requires Once(patch)
    ensures var measured := Measured(files, excluded, patch);
            PatchPasses(files, excluded, patch, least)
            <==> measured == {} || 100.0 * |Hit(files, measured)| as real >= least * |measured| as real
  {
    hide Measured, Hit, PatchOf;
    PatchCounts(files, excluded, patch);
    var (total, covered, _) := PatchOf(files, excluded, patch);
    if total > 0 {
      ShareAtLeast(covered, total, least);
    }
  }

  lemma ShareAtLeast(covered: int, total: int, least: real)
    requires total > 0
    ensures 100.0 * covered as real / total as real >= least <==> 100.0 * covered as real >= least * total as real
  {
    var c, t := 100.0 * covered as real, total as real;
    var q := c / t;
    assert c == q * t;
    if q >= least {
      assert (q - least) * t >= 0.0;
    } else {
      assert (least - q) * t > 0.0;
    }
  }

  // The counts a report gives for lines found, and for lines hit, in order.
  function FoundCounts(lines: seq<Line>): seq<int> {
    if lines == [] then []
    else
      FoundCounts(lines[..|lines| - 1])
      + if lines[|lines| - 1].LinesFound? then [lines[|lines| - 1].n] else []
  }

  function HitCounts(lines: seq<Line>): seq<int> {
    if lines == [] then []
    else HitCounts(lines[..|lines| - 1]) + if lines[|lines| - 1].LinesHit? then [lines[|lines| - 1].n] else []
  }

  function Sum(ns: seq<int>): int {
    if ns == [] then 0 else Sum(ns[..|ns| - 1]) + ns[|ns| - 1]
  }

  lemma SumAppends(ns: seq<int>, n: int)
    ensures Sum(ns + [n]) == Sum(ns) + n
  {
    assert (ns + [n])[..|ns|] == ns;
  }

  lemma {:induction false} TotalsAreSums(lines: seq<Line>)
    ensures Totals(lines) == (Sum(FoundCounts(lines)), Sum(HitCounts(lines)))
  {
    if lines != [] {
      var init, last := lines[..|lines| - 1], lines[|lines| - 1];
      TotalsAreSums(init);
      assert FoundCounts(init) + [] == FoundCounts(init) && HitCounts(init) + [] == HitCounts(init);
      if last.LinesFound? { SumAppends(FoundCounts(init), last.n); }
      if last.LinesHit? { SumAppends(HitCounts(init), last.n); }
    }
  }

  /**
   The gate on the report compares the sum of the lines it says were hit with the sum of those it
   says were found: a report that found none counts as wholly covered.
   */
  lemma ProjectPassesIff(lines: seq<Line>, least: real)
    ensures var found, hit := Sum(FoundCounts(lines)), Sum(HitCounts(lines));
            && (found > 0 ==> (ProjectPasses(lines, least) <==> 100.0 * hit as real >= least * found as real))
            && (found == 0 ==> (ProjectPasses(lines, least) <==> 100.0 >= least))
  {
    TotalsAreSums(lines);
    if Sum(FoundCounts(lines)) > 0 {
      ShareAtLeast(Sum(HitCounts(lines)), Sum(FoundCounts(lines)), least);
    }
  }

  ghost predicate Raised(a: Hits, b: Hits) {
    && a.Keys == b.Keys
    && forall path :: path in a ==>
         a[path].Keys == b[path].Keys && forall line :: line in a[path] ==> a[path][line] <= b[path][line]
  }

  lemma {:induction false} RaisedJudged(a: map<int, int>, b: map<int, int>, lines: seq<int>)
    requires a.Keys == b.Keys && forall line :: line in a ==> a[line] <= b[line]
    ensures Judged(a, lines).0 == Judged(b, lines).0 && Judged(a, lines).1 <= Judged(b, lines).1
  {
    if lines != [] {
      RaisedJudged(a, b, lines[..|lines| - 1]);
    }
  }

  lemma {:induction false} RaisedPatch(a: Hits, b: Hits, excluded: set<string>, patch: Patch)
    requires Raised(a, b)
    ensures PatchOf(a, excluded, patch).0 == PatchOf(b, excluded, patch).0
    ensures PatchOf(a, excluded, patch).1 <= PatchOf(b, excluded, patch).1
  {
    if patch != [] {
      RaisedPatch(a, b, excluded, patch[..|patch| - 1]);
      var (path, lines) := patch[|patch| - 1];
      if !Skipped(a, excluded, path) {
        RaisedJudged(a[path], b[path], lines);
      }
    }
  }

  lemma PctGrows(covered: int, more: int, total: int)
    requires total > 0 && covered <= more
    ensures Pct(covered, total) <= Pct(more, total)
  {
    var c, m, t := 100.0 * covered as real, 100.0 * more as real, total as real;
    assert m / t - c / t == (m - c) / t;
  }

  // Raising counts of records, one by one, in place.
  ghost predicate RecordsRaised(rs: seq<Record>, ss: seq<Record>) {
    |rs| == |ss| && forall i :: 0 <= i < |rs| ==>
      rs[i].path == ss[i].path && rs[i].line == ss[i].line && rs[i].hits <= ss[i].hits
  }

  lemma RaisedDominates(rs: seq<Record>, ss: seq<Record>)
    requires RecordsRaised(rs, ss)
    ensures Dominated(rs, ss)
  {
    forall r | r in rs ensures Answered(r, ss) {
      var i :| 0 <= i < |rs| && rs[i] == r;
      assert ss[i] in ss;
    }
  }

  // The file and line of a record of `ss` have one in `rs`.
  lemma LinesStay(a: Hits, b: Hits, rs: seq<Record>, ss: seq<Record>, s: Record)
    requires Merges(a, rs) && Merges(b, ss) && RecordsRaised(rs, ss) && s in ss
    ensures Instrumented(a, s.path, s.line)
  {
    hide Merges;
    var i :| 0 <= i < |ss| && ss[i] == s;
    assert rs[i] in rs;
    LineOfRecord(a, rs, rs[i]);
  }

  lemma RaisedRecordsRaise(a: Hits, b: Hits, rs: seq<Record>, ss: seq<Record>)
    requires Merges(a, rs) && Merges(b, ss) && RecordsRaised(rs, ss)
    ensures Raised(a, b)
  {
    hide Merges, RecordsRaised, Dominated;
    RaisedDominates(rs, ss);
    forall path ensures path in a <==> path in b {
      if path in a { FilesBelow(a, b, rs, ss, path); }
      if path in b {
        var s := RecordOfFile(b, ss, path);
        LinesStay(a, b, rs, ss, s);
      }
    }
    forall path, line | path in a
      ensures line in a[path] <==> line in b[path]
      ensures line in a[path] ==> a[path][line] <= b[path][line]
    {
      if Instrumented(a, path, line) { CountBelow(a, b, rs, ss, path, line); }
      if Instrumented(b, path, line) {
        var s := RecordOfLine(b, ss, path, line);
        LinesStay(a, b, rs, ss, s);
      }
    }
  }

  /**
   Raising any hit counts in the report never turns a passing patch gate into a failing one.
   */
  lemma GateIsMonotone(a: Hits, b: Hits, rs: seq<Record>, ss: seq<Record>, excluded: set<string>, patch: Patch,
                       least: real)
    requires Merges(a, rs) && Merges(b, ss) && RecordsRaised(rs, ss)
    requires PatchPasses(a, excluded, patch, least)
    ensures PatchPasses(b, excluded, patch, least)
  {
    hide Merges, RecordsRaised, Raised, PatchOf, Pct;
    RaisedRecordsRaise(a, b, rs, ss);
    RaisedPatch(a, b, excluded, patch);
    var (total, covered, _) := PatchOf(a, excluded, patch);
    if total > 0 {
      PctGrows(covered, PatchOf(b, excluded, patch).1, total);
    }
  }
}
