/**
 * The backend `LogMonitor` and its `LogFileHandler`: on startup every
 * `.log` file under the watched directories is read whole and its cursor
 * set to the end; afterwards a modification notification reads the file
 * from its cursor (from the start again when the file shrank below it)
 * and enqueues each non-blank line on the `LogQueue`.
 *
 * The disk is a map from path to content, and a cursor is a character
 * offset into that content. A path missing from the map is a file whose
 * read raises, which the source catches and reports.
 */
module LogMonitor {
  import opened Text
  import opened LogParser
  import opened LogQueue

  /** A watchdog modification event. */
  datatype Event = Event(srcPath: string, isDirectory: bool)

  type Disk = map<string, string>

  /** A file the monitor reads: its name ends in ".log". */
  predicate LogFile(path: string) {
    EndsWith(path, ".log")
  }

  /** `file_positions.get(path, 0)`. */
  function Cursor(positions: map<string, nat>, path: string): nat {
    if path in positions then positions[path] else 0
  }

  /** `initial_read_complete.get(path, False)`. */
  predicate Tailed(complete: map<string, bool>, path: string) {
    path in complete && complete[path]
  }

  /** The queue entries for some lines of `path`, in line order. */
  function Entries(path: string, lines: seq<string>): (r: seq<RawLine>)
    ensures |r| == |lines|
    ensures forall i :: 0 <= i < |lines| ==> r[i] == RawLine(path, lines[i])
    decreases |lines|
  {
    if lines == [] then []
    else Entries(path, lines[..|lines| - 1]) + [RawLine(path, lines[|lines| - 1])]
  }

  lemma EntriesAppend(path: string, a: seq<string>, b: seq<string>)
    ensures Entries(path, a + b) == Entries(path, a) + Entries(path, b)
  {
    var l, r := Entries(path, a + b), Entries(path, a) + Entries(path, b);
    assert |l| == |r|;
    forall i | 0 <= i < |l| ensures l[i] == r[i] {
      if i < |a| {
        assert (a + b)[i] == a[i];
      } else {
        assert (a + b)[i] == b[i - |a|];
      }
    }
  }

  // ---------------------------------------------------------------------
  // Reading from the cursor

  /**
   * The text `read_new_lines` reads: what follows the cursor, or the whole
   * file when it is now shorter than the cursor (rotation). It is empty
   * exactly when the early return is taken.
   */
  function Unread(content: string, cursor: nat): (r: string)
    ensures cursor <= |content| ==> content == content[..cursor] + r
    ensures |content| < cursor ==> r == content
    ensures r == [] <==> cursor == |content| || content == []
  {
    if |content| < cursor then content else content[cursor..]
  }

  /** The entries one `read_new_lines(path)` enqueues. */
  function NewEntries(positions: map<string, nat>, path: string, disk: Disk): seq<RawLine> {
    if path in disk then Entries(path, NonBlankLines(Unread(disk[path], Cursor(positions, path)))) else []
  }

  /** The cursors after one `read_new_lines(path)`: the end of the file, unless it returned early. */
  function Advance(positions: map<string, nat>, path: string, disk: Disk): map<string, nat> {
    if path in disk && Unread(disk[path], Cursor(positions, path)) != [] then positions[path := |disk[path]|]
    else positions
  }

  /**
   * What a read enqueues is made of non-blank stripped lines of that file;
   * and a repeated notification without growth reads nothing and moves no
   * cursor.
   */
  lemma TailRepeat(positions: map<string, nat>, path: string, disk: Disk)
    ensures forall e :: e in NewEntries(positions, path, disk) ==>
      e.filePath == path && e.content != [] && Strip(e.content) == e.content
    ensures NewEntries(Advance(positions, path, disk), path, disk) == []
    ensures Advance(Advance(positions, path, disk), path, disk) == Advance(positions, path, disk)
  {
    if path in disk {
      var lines := NonBlankLines(Unread(disk[path], Cursor(positions, path)));
      NonBlankLinesItems(Unread(disk[path], Cursor(positions, path)));
      forall e | e in NewEntries(positions, path, disk)
        ensures e.filePath == path && e.content != [] && Strip(e.content) == e.content
      {
        var i :| 0 <= i < |lines| && NewEntries(positions, path, disk)[i] == e;
      }
      var p := Advance(positions, path, disk);
      assert Unread(disk[path], Cursor(p, path)) == [];
      assert NonBlankLines([]) == [];
    }
  }

  /**
   * A file that grew by `b` after a read that ended at a line break: the
   * lines read before and the lines read now are exactly the lines of the
   * whole file, so tailing neither loses nor repeats a line.
   */
  lemma TailAfterGrowth(positions: map<string, nat>, path: string, disk: Disk, a: string, b: string)
    requires path in disk && disk[path] == a + b
    requires path in positions && positions[path] == |a|
    requires a == [] || IsNewline(a[|a| - 1])
    ensures Entries(path, NonBlankLines(a)) + NewEntries(positions, path, disk) == Entries(path, NonBlankLines(a + b))
  {
    assert (a + b)[|a|..] == b;
    NonBlankLinesAppend(a, b);
    EntriesAppend(path, NonBlankLines(a), NonBlankLines(b));
  }

  /** A file truncated below the cursor is read again from its first line. */
  lemma TailAfterRotation(positions: map<string, nat>, path: string, disk: Disk)
    requires path in disk && disk[path] != [] && |disk[path]| < Cursor(positions, path)
    ensures NewEntries(positions, path, disk) == Entries(path, NonBlankLines(disk[path]))
    ensures Advance(positions, path, disk)[path] == |disk[path]|
  {
  }

  // ---------------------------------------------------------------------
  // The initial read

  /** `process_file` runs on `path` during the initial read and succeeds. */
  predicate ReadOnStart(path: string, disk: Disk) {
    LogFile(path) && path in disk
  }

  /** The entries the initial read enqueues, for the walk's listing `walked`. */
  function StartEntries(walked: seq<string>, disk: Disk): seq<RawLine>
    decreases |walked|
  {
    if walked == [] then []
    else
      var path := walked[|walked| - 1];
      StartEntries(walked[..|walked| - 1], disk)
        + (if ReadOnStart(path, disk) then Entries(path, NonBlankLines(disk[path])) else [])
  }

  /** The handler's cursors and flags, with the queue's waiting entries. */
  datatype Tail = Tail(positions: map<string, nat>, complete: map<string, bool>, pending: seq<RawLine>)

  /** `process_file`: the whole file is enqueued, its cursor set to its end and its flag set. */
  function ReadFile(t: Tail, path: string, disk: Disk): Tail {
    if path in disk then
      Tail(t.positions[path := |disk[path]|], t.complete[path := true],
           t.pending + Entries(path, NonBlankLines(disk[path])))
    else t
  }

  /** `read_existing_files` over the walk's listing `walked`. */
  function StartRead(t: Tail, walked: seq<string>, disk: Disk): Tail
    decreases |walked|
  {
    if walked == [] then t
    else
      var path := walked[|walked| - 1];
      var before := StartRead(t, walked[..|walked| - 1], disk);
      if LogFile(path) then ReadFile(before, path, disk) else before
  }

  /**
   * After the initial read a file is tailed exactly when it was tailed
   * before or was read; every file read has its cursor at its end; any
   * other cursor is as it was.
   */
  lemma {:induction false} StartState(t: Tail, walked: seq<string>, disk: Disk)
    ensures forall path :: Tailed(StartRead(t, walked, disk).complete, path) <==>
      Tailed(t.complete, path) || (path in walked && ReadOnStart(path, disk))
    ensures forall path :: path in walked && ReadOnStart(path, disk) ==>
      path in StartRead(t, walked, disk).positions && StartRead(t, walked, disk).positions[path] == |disk[path]|
    ensures forall path :: !(path in walked && ReadOnStart(path, disk)) ==>
      Cursor(StartRead(t, walked, disk).positions, path) == Cursor(t.positions, path)
    decreases |walked|
  {
    if walked != [] {
      var init := walked[..|walked| - 1];
      StartState(t, init, disk);
      assert walked == init + [walked[|walked| - 1]];
    }
  }

  /** The initial read enqueues the non-blank lines of the files read, file by file in listing order. */
  lemma {:induction false} StartEnqueues(t: Tail, walked: seq<string>, disk: Disk)
    ensures StartRead(t, walked, disk).pending == t.pending + StartEntries(walked, disk)
    decreases |walked|
  {
    if walked != [] {
      StartEnqueues(t, walked[..|walked| - 1], disk);
    }
  }

  /** Each initially read file is then up to date: a notification without growth reads nothing. */
  lemma StartUpToDate(t: Tail, walked: seq<string>, disk: Disk, path: string)
    requires path in walked && ReadOnStart(path, disk)
    ensures NewEntries(StartRead(t, walked, disk).positions, path, disk) == []
  {
    StartState(t, walked, disk);
    assert NonBlankLines([]) == [];
  }

  // ---------------------------------------------------------------------
  // The objects

  class FileHandler {
    var positions: map<string, nat>
    var complete: map<string, bool>
    const queue: Queue

    function State(): Tail
      reads this, queue
    {
      Tail(positions, complete, queue.pending)
    }

    constructor (queue: Queue)
      ensures this.queue == queue && positions == map[] && complete == map[]
    {
      this.queue := queue;
      positions := map[];
      complete := map[];
    }

    /**
     * `on_modified`: a directory, a file not ending in ".log" or a file
     * the initial read did not complete is ignored; any other file is
     * read from its cursor.
     */
    method OnModified(event: Event, disk: Disk)
      modifies this, queue
      ensures var acted := !event.isDirectory && LogFile(event.srcPath) && Tailed(old(complete), event.srcPath);
        && (acted ==>
              positions == Advance(old(positions), event.srcPath, disk)
              && queue.pending == old(queue.pending) + NewEntries(old(positions), event.srcPath, disk))
        && (!acted ==> positions == old(positions) && queue.pending == old(queue.pending))
      ensures complete == old(complete)
      ensures queue.emitted == old(queue.emitted) && queue.running == old(queue.running)
    {
      if event.isDirectory {
        return;
      }
      if LogFile(event.srcPath) && Tailed(complete, event.srcPath) {
        ReadNewLines(event.srcPath, disk);
      }
    }

    /** `read_new_lines`. */
    method ReadNewLines(path: string, disk: Disk)
      modifies this, queue
      ensures positions == Advance(old(positions), path, disk)
      ensures queue.pending == old(queue.pending) + NewEntries(old(positions), path, disk)
      ensures complete == old(complete)
      ensures queue.emitted == old(queue.emitted) && queue.running == old(queue.running)
    {
      if path !in disk {
        return;
      }
      var content := disk[path];
      var last := Cursor(positions, path);
      if |content| < last {
        last := 0;
      }
      if |content| == last {
        return;
      }
      EnqueueLines(path, NonBlankLines(content[last..]));
      positions := positions[path := |content|];
    }

    /** `process_file` of the initial read: the whole file, then the cursor at its end and the flag set. */
    method ReadWhole(path: string, disk: Disk)
      modifies this, queue
      ensures State() == ReadFile(old(State()), path, disk)
      ensures queue.emitted == old(queue.emitted) && queue.running == old(queue.running)
    {
      if path !in disk {
        return;
      }
      var content := disk[path];
      EnqueueLines(path, NonBlankLines(content));
      positions := positions[path := |content|];
      complete := complete[path := true];
    }

    /** The loop over the lines read: each one goes to `log_queue.add_log`. */
    method EnqueueLines(path: string, lines: seq<string>)
      modifies queue
      ensures queue.pending == old(queue.pending) + Entries(path, lines)
      ensures queue.emitted == old(queue.emitted) && queue.running == old(queue.running)
    {
      for k := 0 to |lines|
        invariant queue.pending == old(queue.pending) + Entries(path, lines[..k])
        invariant queue.emitted == old(queue.emitted) && queue.running == old(queue.running)
      {
        assert lines[..k + 1][..k] == lines[..k];
        queue.Add(RawLine(path, lines[k]));
      }
      assert lines[..|lines|] == lines;
    }
  }

  class Monitor {
    var running: bool
    const handler: FileHandler

    constructor (queue: Queue)
      ensures !running && handler.queue == queue
      ensures handler.positions == map[] && handler.complete == map[]
    {
      handler := new FileHandler(queue);
      running := false;
    }

    /**
     * `start`: a running monitor is left alone; otherwise the existing
     * files are read and the monitor runs. Files that appear later are
     * never marked complete, so they are never tailed.
     */
    method Start(walked: seq<string>, disk: Disk)
      modifies this, handler, handler.queue
      ensures running
      ensures old(running) ==> handler.State() == old(handler.State())
      ensures !old(running) ==> handler.State() == StartRead(old(handler.State()), walked, disk)
      ensures handler.queue.emitted == old(handler.queue.emitted) && handler.queue.running == old(handler.queue.running)
    {
      if running {
        return;
      }
      ReadExistingFiles(walked, disk);
      running := true;
    }

    /** `stop`: only a running monitor stops; the files are not touched. */
    method Stop()
      modifies this
      ensures !running
    {
      if !running {
        return;
      }
      running := false;
    }

    /**
     * `read_existing_files`: every ".log" file of the walk of `node_logs`
     * and then `python_logs`, in the order `walked` lists them; a file whose
     * read fails is skipped and the others are still read.
     */
    method ReadExistingFiles(walked: seq<string>, disk: Disk)
      modifies handler, handler.queue
      ensures handler.State() == StartRead(old(handler.State()), walked, disk)
      ensures handler.queue.emitted == old(handler.queue.emitted) && handler.queue.running == old(handler.queue.running)
    {
      for k := 0 to |walked|
        invariant handler.State() == StartRead(old(handler.State()), walked[..k], disk)
        invariant handler.queue.emitted == old(handler.queue.emitted) && handler.queue.running == old(handler.queue.running)
      {
        assert walked[..k + 1][..k] == walked[..k];
        if LogFile(walked[k]) {
          handler.ReadWhole(walked[k], disk);
        }
      }
      assert walked[..|walked|] == walked;
    }
  }
}
