/**
  The rotating diagnostics log: one active file and a fixed number of backups.

  Slot 0 of the directory is the active file and slot k is backup k; a slot is
  empty when its file does not exist. A file is the sequence of its lines, each
  with its length in bytes (line end included) and, for a provenance header,
  the process it names.
 */
module DiagnosticsLog {
  import opened Wrappers

  const MAX_RECORD_BYTES: nat := 2048
  const MAX_COUNTER: nat := 0x7fff_ffff_ffff_ffff

  type pos = n: nat | n > 0 witness 1

  datatype Line = Line(bytes: pos, header: Option<string>)
  type File = seq<Line>

  datatype Limits = Limits(activeBytes: nat, header: Line, process: string)
  datatype Sink = Sink(files: seq<Option<File>>, evicted: nat, rejected: nat)

  function Size(f: File): nat {
    if f == [] then 0 else Size(f[..|f| - 1]) + f[|f| - 1].bytes
  }

  /** `_active_file_matches_process`: only so many bytes of the first line are read. */
  predicate Owned(f: File, process: string) {
    || f == []
    || f[0].bytes == 1
    || (f[0].bytes <= MAX_RECORD_BYTES + 2 && f[0].header == Some(process))
  }

  function AddLoss(counter: nat): nat {
    if counter + 1 <= MAX_COUNTER then counter + 1 else MAX_COUNTER
  }

  // ---------------------------------------------------------- specification

  /** Every file moves one slot up; the one in the last slot goes. */
  function Rotated(s: Sink): Sink
    requires s.files != []
  {
    var n := |s.files| - 1;
    s.(files := [None] + s.files[..n], evicted := if s.files[n].Some? then AddLoss(s.evicted) else s.evicted)
  }

  predicate MustRotate(l: Limits, s: Sink, line: Line)
    requires s.files != []
  {
    && s.files[0].Some?
    && (!Owned(s.files[0].value, l.process) || Size(s.files[0].value) + line.bytes > l.activeBytes)
  }

  predicate Refuses(l: Limits, line: Line) { l.header.bytes + line.bytes > l.activeBytes }

  function Contents(f: Option<File>): File { if f.Some? then f.value else [] }

  /** A new or empty file starts with the process header. */
  function Opening(l: Limits, f: Option<File>): File {
    if Contents(f) == [] then [l.header] else []
  }

  function Ready(l: Limits, s: Sink, line: Line): Sink
    requires s.files != []
  {
    if MustRotate(l, s, line) then Rotated(s) else s
  }

  function Written(l: Limits, s: Sink, line: Line): (r: Sink)
    requires s.files != []
    ensures |r.files| == |s.files|
  {
    var ready := Ready(l, s, line);
    if Refuses(l, line) then ready.(rejected := AddLoss(ready.rejected))
    else
      var active := Contents(ready.files[0]) + Opening(l, ready.files[0]) + [line];
      ready.(files := ready.files[0 := Some(active)])
  }

  function WrittenAll(l: Limits, s: Sink, lines: seq<Line>): (r: Sink)
    requires s.files != []
    ensures |r.files| == |s.files|
    decreases |lines|
  {
    if lines == [] then s else WrittenAll(l, Written(l, s, lines[0]), lines[1..])
  }

  // ---------------------------------------------------------- the live sink

  class OperationalDiagnostics {
    const limits: Limits
    const slots: array<Option<File>>
    var evicted: nat
    var rejected: nat

    ghost predicate Valid()
      reads this
    {
      slots.Length > 0
    }

    ghost function View(): Sink
      reads this, slots
    {
      Sink(slots[..], evicted, rejected)
    }

    /** The process takes the directory over with whatever files it finds there. */
    constructor (limits: Limits, found: seq<Option<File>>)
      requires found != []
      ensures Valid() && fresh(slots) && this.limits == limits
      ensures View() == Sink(found, 0, 0)
    {
      this.limits := limits;
      slots := new Option<File>[|found|](i requires 0 <= i < |found| => found[i]);
      evicted, rejected := 0, 0;
      new;
      assert slots[..] == found;
    }

    /** The renames of the backups, from the oldest down, so that none overwrites a file. */
    method ShiftBackups()
      requires slots.Length > 1 && slots[slots.Length - 1] == None
      modifies slots
      ensures slots[0] == old(slots[0]) && slots[1] == None
      ensures forall k :: 2 <= k < slots.Length ==> slots[k] == old(slots[k - 1])
    {
      var index := slots.Length - 1;
      while index > 1
        invariant 1 <= index < slots.Length && slots[index] == None
        invariant forall k :: 0 <= k < index ==> slots[k] == old(slots[k])
        invariant forall k :: index < k < slots.Length ==> slots[k] == old(slots[k - 1])
      {
        index := index - 1;
        if slots[index].Some? {
          slots[index + 1] := slots[index];
          slots[index] := None;
        }
      }
    }

    /** `_rotate`: every file moves one slot up and the one in the last slot goes. */
    method Rotate()
      requires Valid()
      modifies `evicted, slots
      ensures Valid() && View() == Rotated(old(View()))
    {
      var backups := slots.Length - 1;
      if slots[backups].Some? {
        slots[backups] := None;
        evicted := AddLoss(evicted);
      }
      if backups > 0 {
        ShiftBackups();
        if slots[0].Some? {
          slots[1] := slots[0];
          slots[0] := None;
        }
      }
      assert slots[..] == [None] + old(slots[..])[..backups];
    }

    /** `_write`. */
    method Write(line: Line)
      requires Valid()
      modifies this, slots
      ensures Valid() && View() == Written(limits, old(View()), line)
      ensures WithinLimit(limits, old(slots[..])) ==> WithinLimit(limits, slots[..])
    {
      if WithinLimit(limits, slots[..]) {
        WriteFits(limits, View(), line);
      }
      if slots[0].Some? && !Owned(slots[0].value, limits.process) {
        Rotate();
      }
      if slots[0].Some? && Size(slots[0].value) + line.bytes > limits.activeBytes {
        Rotate();
      }
      assert View() == Ready(limits, old(View()), line);
      if limits.header.bytes + line.bytes > limits.activeBytes {
        rejected := AddLoss(rejected);
        return;
      }
      ghost var ready := View();
      var active := if slots[0].Some? then slots[0].value else [];
      if active == [] {
        active := [limits.header];
      }
      assert active + [line] == Contents(ready.files[0]) + Opening(limits, ready.files[0]) + [line];
      slots[0] := Some(active + [line]);
      assert slots[..] == ready.files[0 := Some(active + [line])];
    }
  }

  // ------------------------------------------------------------ byte budget

  ghost predicate WithinLimit(l: Limits, files: seq<Option<File>>) {
    forall k :: 0 <= k < |files| ==> Size(Contents(files[k])) <= l.activeBytes
  }

  function Total(files: seq<Option<File>>): nat {
    if files == [] then 0 else Total(files[1..]) + Size(Contents(files[0]))
  }

  lemma {:induction false} TotalBound(l: Limits, files: seq<Option<File>>)
    requires WithinLimit(l, files)
    ensures Total(files) <= |files| * l.activeBytes
  {
    if files == [] {
    } else {
      TotalBound(l, files[1..]);
      assert |files| * l.activeBytes == (|files| - 1) * l.activeBytes + l.activeBytes;
    }
  }

  lemma SizeAppend(f: File, line: Line)
    ensures Size(f + [line]) == Size(f) + line.bytes
  {
    assert (f + [line])[..|f|] == f;
  }

  lemma WriteFits(l: Limits, s: Sink, line: Line)
    requires s.files != [] && WithinLimit(l, s.files)
    ensures WithinLimit(l, Written(l, s, line).files)
  {
    var ready := Ready(l, s, line);
    assert WithinLimit(l, ready.files);
    if !Refuses(l, line) {
      var before := Contents(ready.files[0]) + Opening(l, ready.files[0]);
      SizeAppend(before, line);
      SizeAppend([], l.header);
      assert [] + [l.header] == [l.header];
      assert before == Contents(ready.files[0]) || before == [l.header];
    }
  }

  lemma {:induction false} RunFits(l: Limits, s: Sink, lines: seq<Line>)
    requires s.files != [] && WithinLimit(l, s.files)
    ensures WithinLimit(l, WrittenAll(l, s, lines).files)
    decreases |lines|
  {
    if lines == [] {
    } else {
      WriteFits(l, s, lines[0]);
      RunFits(l, Written(l, s, lines[0]), lines[1..]);
    }
  }

  /** Every run that starts within budget keeps the whole log within
      (backups + 1) times the active-file limit. */
  lemma LogStaysWithinBudget(l: Limits, s: Sink, lines: seq<Line>, backups: nat)
    requires |s.files| == backups + 1 && WithinLimit(l, s.files)
    ensures Total(WrittenAll(l, s, lines).files) <= (backups + 1) * l.activeBytes
  {
    RunFits(l, s, lines);
    TotalBound(l, WrittenAll(l, s, lines).files);
  }

  // --------------------------------------------------------- one write

  /** The active file was opened by this process: it is empty, its first line is
      blank, or its first line is short enough to be read and names the process. */
  ghost predicate OpenedBy(f: File, process: string) {
    f == [] || f[0].bytes == 1 || (f[0].bytes <= 2050 && f[0].header == Some(process))
  }

  /** A write moves the files one slot up exactly when the active file is
      another process's or the record would take it past its limit. It then
      refuses a record that does not fit below a header on its own, and
      otherwise adds it to the active file, with a header where that is new. */
  lemma WriteIsAnswered(l: Limits, s: Sink, line: Line)
    requires s.files != []
    ensures var (s', n) := (Written(l, s, line), |s.files|);
      var rotates := s.files[0].Some?
                     && (!OpenedBy(s.files[0].value, l.process) || Size(s.files[0].value) + line.bytes > l.activeBytes);
      var refused := l.header.bytes + line.bytes > l.activeBytes;
      var active := if rotates || s.files[0].None? then [] else s.files[0].value;
      && |s'.files| == n
      && s'.files[0] == (if !refused then Some((if active == [] then [l.header] else active) + [line])
                         else if rotates then None else s.files[0])
      && (forall k :: 1 <= k < n ==> s'.files[k] == if rotates then s.files[k - 1] else s.files[k])
      && s'.evicted == (if rotates && s.files[n - 1].Some? && s.evicted < 0x7fff_ffff_ffff_ffff then s.evicted + 1
                        else if rotates && s.files[n - 1].Some? then 0x7fff_ffff_ffff_ffff else s.evicted)
      && s'.rejected == (if refused && s.rejected < 0x7fff_ffff_ffff_ffff then s.rejected + 1
                         else if refused then 0x7fff_ffff_ffff_ffff else s.rejected)
  {
    var active := Contents(Ready(l, s, line).files[0]);
    assert active + Opening(l, Ready(l, s, line).files[0]) == if active == [] then [l.header] else active;
  }

  // ----------------------------------------------------------- conservation

  /** All retained lines, oldest file first. */
  function Trail(files: seq<Option<File>>): seq<Line> {
    if files == [] then [] else Trail(files[1..]) + Contents(files[0])
  }

  lemma Assoc(a: seq<Line>, b: seq<Line>, c: seq<Line>)
    ensures (a + b) + c == a + (b + c)
  {
  }

  lemma {:induction false} TrailLast(files: seq<Option<File>>)
    requires files != []
    ensures Trail(files) == Contents(files[|files| - 1]) + Trail(files[..|files| - 1])
  {
    var n := |files| - 1;
    if n == 0 {
      assert files[1..] == [] && files[..0] == [];
    } else {
      var tail := files[1..];
      TrailLast(tail);
      assert tail[n - 1] == files[n] && tail[..n - 1] == files[..n][1..] && files[..n][0] == files[0];
      Assoc(Contents(files[n]), Trail(tail[..n - 1]), Contents(files[0]));
    }
  }

  /** The file that one write pushes out of the last slot, if any. */
  function Lost(l: Limits, s: Sink, line: Line): Option<File>
    requires s.files != []
  {
    if MustRotate(l, s, line) then s.files[|s.files| - 1] else None
  }

  /** The lines one write adds. */
  function Added(l: Limits, s: Sink, line: Line): seq<Line>
    requires s.files != []
  {
    if Refuses(l, line) then [] else Opening(l, Ready(l, s, line).files[0]) + [line]
  }

  lemma WriteConserves(l: Limits, s: Sink, line: Line)
    requires s.files != []
    ensures Contents(Lost(l, s, line)) + Trail(Written(l, s, line).files) == Trail(s.files) + Added(l, s, line)
    ensures s.evicted <= MAX_COUNTER ==>
              Written(l, s, line).evicted == if Lost(l, s, line).Some? then AddLoss(s.evicted) else s.evicted
  {
    var ready, lost := Ready(l, s, line).files, Contents(Lost(l, s, line));
    ReadyConserves(l, s, line);
    AddedLast(l, s, line);
    Assoc(lost, Trail(ready), Added(l, s, line));
  }

  lemma ReadyConserves(l: Limits, s: Sink, line: Line)
    requires s.files != []
    ensures Contents(Lost(l, s, line)) + Trail(Ready(l, s, line).files) == Trail(s.files)
  {
    var ready := Ready(l, s, line).files;
    if MustRotate(l, s, line) {
      TrailLast(s.files);
      assert ready[1..] == s.files[..|s.files| - 1];
    }
  }

  lemma AddedLast(l: Limits, s: Sink, line: Line)
    requires s.files != []
    ensures Trail(Written(l, s, line).files) == Trail(Ready(l, s, line).files) + Added(l, s, line)
  {
    var ready, after := Ready(l, s, line).files, Written(l, s, line).files;
    if !Refuses(l, line) {
      assert after[1..] == ready[1..];
      assert Contents(after[0]) == Contents(ready[0]) + Added(l, s, line);
    }
  }

  /** The files a run loses, in the order it loses them. */
  function LostFiles(l: Limits, s: Sink, lines: seq<Line>): seq<File>
    requires s.files != []
    decreases |lines|
  {
    if lines == [] then []
    else
      var lost := Lost(l, s, lines[0]);
      (if lost.Some? then [lost.value] else []) + LostFiles(l, Written(l, s, lines[0]), lines[1..])
  }

  function Flat(files: seq<File>): seq<Line> {
    if files == [] then [] else files[0] + Flat(files[1..])
  }

  function AddedLines(l: Limits, s: Sink, lines: seq<Line>): seq<Line>
    requires s.files != []
    decreases |lines|
  {
    if lines == [] then [] else Added(l, s, lines[0]) + AddedLines(l, Written(l, s, lines[0]), lines[1..])
  }

  function Capped(n: nat): nat { if n <= MAX_COUNTER then n else MAX_COUNTER }

  /** Over every run from any pattern of existing files: the retained lines are
      what was there and what was added, in order, less whole files taken from
      the old end, and the eviction counter counts exactly those files. */
  lemma RunConserves(l: Limits, s: Sink, lines: seq<Line>)
    requires s.files != [] && s.evicted <= MAX_COUNTER
    ensures Flat(LostFiles(l, s, lines)) + Trail(WrittenAll(l, s, lines).files) ==
            Trail(s.files) + AddedLines(l, s, lines)
    ensures WrittenAll(l, s, lines).evicted == Capped(s.evicted + |LostFiles(l, s, lines)|)
    ensures |LostFiles(l, s, lines)| <= |lines|
  {
    LinesConserved(l, s, lines);
    LossesCounted(l, s, lines);
  }

  lemma {:induction false} LinesConserved(l: Limits, s: Sink, lines: seq<Line>)
    requires s.files != []
    ensures Flat(LostFiles(l, s, lines)) + Trail(WrittenAll(l, s, lines).files) ==
            Trail(s.files) + AddedLines(l, s, lines)
    decreases |lines|
  {
    if lines == [] {
    } else {
      var next := Written(l, s, lines[0]);
      WriteConserves(l, s, lines[0]);
      LinesConserved(l, next, lines[1..]);
      LostFirst(l, s, lines);
      Chain(Contents(Lost(l, s, lines[0])), Flat(LostFiles(l, next, lines[1..])), Trail(WrittenAll(l, s, lines).files),
            Trail(next.files), Trail(s.files), Added(l, s, lines[0]), AddedLines(l, next, lines[1..]));
    }
  }

  lemma {:induction false} LossesCounted(l: Limits, s: Sink, lines: seq<Line>)
    requires s.files != [] && s.evicted <= MAX_COUNTER
    ensures WrittenAll(l, s, lines).evicted == Capped(s.evicted + |LostFiles(l, s, lines)|)
    ensures |LostFiles(l, s, lines)| <= |lines|
    decreases |lines|
  {
    if lines == [] {
    } else {
      LossesCounted(l, Written(l, s, lines[0]), lines[1..]);
    }
  }

  lemma LostFirst(l: Limits, s: Sink, lines: seq<Line>)
    requires s.files != [] && lines != []
    ensures Flat(LostFiles(l, s, lines)) ==
            Contents(Lost(l, s, lines[0])) + Flat(LostFiles(l, Written(l, s, lines[0]), lines[1..]))
  {
    var rest := LostFiles(l, Written(l, s, lines[0]), lines[1..]);
    if Lost(l, s, lines[0]).Some? {
      assert LostFiles(l, s, lines)[1..] == rest;
    } else {
      assert LostFiles(l, s, lines) == rest;
    }
  }

  /** One write after another: what the first lost and added frames the rest. */
  lemma Chain(lost: seq<Line>, later: seq<Line>, end: seq<Line>, middle: seq<Line>, start: seq<Line>,
          added: seq<Line>, more: seq<Line>)
    requires lost + middle == start + added && later + end == middle + more
    ensures (lost + later) + end == start + (added + more)
  {
    assert (lost + later) + end == lost + (middle + more);
    assert lost + (middle + more) == (start + added) + more;
  }

  /** A refused record moves the files exactly when it finds an active file
      that is another process's or has no room for it. */
  lemma RefusedStillRotates(l: Limits, s: Sink, line: Line)
    requires s.files != [] && Refuses(l, line)
    ensures Written(l, s, line).files == s.files <==> !MustRotate(l, s, line)
  {
    if MustRotate(l, s, line) {
      assert Rotated(s).files[0].None?;
    }
  }

  /** After one rotation there is no active file, so refused records rotate nothing more. */
  lemma {:induction false} RefusedRest(l: Limits, s: Sink, lines: seq<Line>)
    requires s.files != [] && s.files[0].None? && forall i :: 0 <= i < |lines| ==> Refuses(l, lines[i])
    ensures LostFiles(l, s, lines) == [] && WrittenAll(l, s, lines).files == s.files
    decreases |lines|
  {
    if lines == [] {
    } else {
      RefusedRest(l, Written(l, s, lines[0]), lines[1..]);
    }
  }

  /** Some record of the run finds an active file that it must rotate. */
  ghost predicate SomeRotates(l: Limits, s: Sink, lines: seq<Line>)
    requires s.files != []
  {
    exists i :: 0 <= i < |lines| && MustRotate(l, s, lines[i])
  }

  /** A run of refused records rotates the log at most once, and it loses a file
      exactly when it rotates a log whose last slot is taken. */
  lemma {:induction false} RefusedRunLoses(l: Limits, s: Sink, lines: seq<Line>)
    requires s.files != [] && forall i :: 0 <= i < |lines| ==> Refuses(l, lines[i])
    ensures WrittenAll(l, s, lines).files == if SomeRotates(l, s, lines) then Rotated(s).files else s.files
    ensures |LostFiles(l, s, lines)| <= 1
    ensures LostFiles(l, s, lines) != [] <==> s.files[|s.files| - 1].Some? && SomeRotates(l, s, lines)
    decreases |lines|
  {
    if lines == [] {
    } else {
      var next := Written(l, s, lines[0]);
      if MustRotate(l, s, lines[0]) {
        RefusedRest(l, next, lines[1..]);
      } else {
        assert next == s.(rejected := AddLoss(s.rejected));
        RefusedRunLoses(l, next, lines[1..]);
        SameRotations(l, s, next, lines);
      }
    }
  }

  lemma SameRotations(l: Limits, s: Sink, next: Sink, lines: seq<Line>)
    requires s.files != [] && next.files == s.files && lines != [] && !MustRotate(l, s, lines[0])
    ensures SomeRotates(l, s, lines) <==> SomeRotates(l, next, lines[1..])
  {
    if i :| 0 <= i < |lines| && MustRotate(l, s, lines[i]) {
      assert lines[1..][i - 1] == lines[i];
    }
    if i :| 0 <= i < |lines[1..]| && MustRotate(l, next, lines[1..][i]) {
      assert MustRotate(l, s, lines[i + 1]);
    }
  }

  /** A log with one backup whose oldest file goes to a record that is not even written. */
  lemma RefusedRecordEvicts()
    ensures var header := Line(600, Some("new"));
      var l := Limits(2048, header, "new");
      var oldest, active := [Line(600, Some("old")), Line(900, None)], [header, Line(900, None)];
      var s := Sink([Some(active), Some(oldest)], 0, 0);
      Refuses(l, Line(1500, None)) && Written(l, s, Line(1500, None)) == Sink([None, Some(active)], 1, 1)
  {
    var header := Line(600, Some("new"));
    var active := [header, Line(900, None)];
    SizeAppend([header], Line(900, None));
    assert [header] + [Line(900, None)] == active;
    SizeAppend([], header);
    assert [] + [header] == [header];
    assert Size(active) == 1500;
  }

  /** An accepted record ends up last in an active file that names its process. */
  lemma AcceptedIsAttributed(l: Limits, s: Sink, line: Line)
    requires s.files != [] && !Refuses(l, line)
    requires l.header.header == Some(l.process) && l.header.bytes <= MAX_RECORD_BYTES
    ensures var active := Written(l, s, line).files[0];
      active.Some? && Owned(active.value, l.process) && active.value[|active.value| - 1] == line
  {
  }
}
