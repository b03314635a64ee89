/**
 * The logger as a state machine over values. Each step function gives the
 * state after one operation of the Loger type from the state before it; the
 * class Loger in module Logging is proved to follow these functions, and the lemmas
 * here say what they mean.
 *
 * The outside world comes in as parameters: the date the clock reports and
 * whether the operating system managed to open the day's file.
 */
module LogerSpec {
  import opened Wrappers
  import opened LogFile
  import opened Writers

  /** The write-type bits: WStdout = 1 << 0, WFile = 1 << 1. */
  const W_STDOUT: int := 1
  const W_FILE: int := 2

  /**
   * `t & WStdout != 0` and `t & WFile != 0`. Dafny's division by a positive
   * number rounds down, so these read bit 0 and bit 1 of t in two's
   * complement, negative t included.
   */
  predicate WantsStdout(t: int) {
    t % 2 == 1
  }

  predicate WantsFile(t: int) {
    (t / 2) % 2 == 1
  }

  /**
   * The two tests read the two low bits of t: t is a multiple of four plus
   * WFile when its file bit is set plus WStdout when its stdout bit is set.
   * Each constant has its own bit and not the other's.
   */
  lemma WriteTypeBits(t: int)
    ensures t == 4 * (t / 4) + (if WantsFile(t) then W_FILE else 0) + (if WantsStdout(t) then W_STDOUT else 0)
    ensures WantsStdout(W_STDOUT) && !WantsFile(W_STDOUT)
    ensures WantsFile(W_FILE) && !WantsStdout(W_FILE)
  {
  }

  /** log.Ldate | log.Ltime | log.Lshortfile, the flags a new logger starts with. */
  const L_DATE: int := 1
  const L_TIME: int := 2
  const L_SHORTFILE: int := 16
  const DEFAULT_FLAGS: int := L_DATE + L_TIME + L_SHORTFILE

  /** The levelled write operations. */
  datatype Level = Info | Warn | Error | Panic | Println | Printf

  /** The line prefix each levelled operation installs before it writes. */
  function LevelPrefix(level: Level): (p: string)
    ensures p == "" <==> level.Println? || level.Printf?
    ensures p != "" ==> |p| == 8 && p[0] == '['
  {
    match level
    case Info => "[INFO]: "
    case Warn => "[WARN]: "
    case Error => "[ERROR]:"
    case Panic => "[PANIC]:"
    case Println => ""
    case Printf => ""
  }

  /**
   * One line written by the logger: the prefix in force, the caller's
   * formatted message, the date it was written on, the destinations the
   * logger was writing to, and those of them that received it.
   */
  datatype Line = Line(prefix: string, message: string, date: Date,
                       writers: seq<Writer>, delivered: seq<Writer>)

  /**
   * The fields of a Loger (Root, FileName, WType, File, the lock, and the
   * prefix, flags and output of its log.Logger), together with every line
   * written so far.
   */
  datatype State = State(root: string, fileName: string, wtype: int, file: Handle,
                         locked: bool, prefix: string, flags: int, out: seq<Writer>,
                         lines: seq<Line>)

  /** A line that reached a file reached the file named after its own date. */
  predicate InDatedFile(line: Line, root: string) {
    forall w :: w in line.delivered && w.ToFile? ==> w.path == LogPath(root, line.date)
  }

  /**
   * What holds between two calls: the lock is free, some output is set, no
   * file is left open, and every line written to a file went to its day's file.
   */
  ghost predicate Valid(s: State) {
    && !s.locked
    && s.out != []
    && !(s.file.Handle? && s.file.isOpen)
    && forall i :: 0 <= i < |s.lines| ==> InDatedFile(s.lines[i], s.root)
  }

  /** NewLoger(root). */
  function NewLoger(root: string): (s: State)
    ensures s.root == root && s.lines == []
    ensures s.wtype == 3 && WantsStdout(s.wtype) && WantsFile(s.wtype)
    ensures s.out == [Stdout] && s.flags == DEFAULT_FLAGS
    ensures Valid(s)
  {
    State(root, "", W_STDOUT + W_FILE, Nil, false, "", DEFAULT_FLAGS, [Stdout], [])
  }

  /** The path of the day's log file under root. */
  function LogPath(root: string, date: Date): FilePath {
    Joined(root, FileName(date))
  }

  /**
   * The destinations open() selects, or None when it returns early because
   * the file could not be opened.
   */
  function Route(wtype: int, path: FilePath, openOk: bool): (r: Option<seq<Writer>>)
    ensures r.None? <==> WantsFile(wtype) && !openOk
    ensures r.Some? ==> 1 <= |r.value| <= 2
    ensures r.Some? ==> (ToFile(path) in r.value <==> WantsFile(wtype))
    ensures r.Some? ==> (Stdout in r.value <==> WantsStdout(wtype) || !WantsFile(wtype))
    ensures r.Some? ==> forall w :: w in r.value && w.ToFile? ==> w.path == path
    ensures r.Some? && WantsFile(wtype) ==> r.value[0] == ToFile(path)
    ensures r.Some? ==> forall i, j :: 0 <= i < j < |r.value| ==> r.value[i] != r.value[j]
  {
    if !WantsFile(wtype) then Some([Stdout])
    else if !openOk then None
    else if WantsStdout(wtype) then Some([ToFile(path), Stdout])
    else Some([ToFile(path)])
  }

  /** Whether open() reports an error. */
  predicate OpenFails(s: State, openOk: bool) {
    WantsFile(s.wtype) && !openOk
  }

  /** The state after open(), on the given date. */
  function OpenNext(s: State, date: Date, openOk: bool): (r: State)
    ensures r.root == s.root && r.wtype == s.wtype && r.locked == s.locked
    ensures r.prefix == s.prefix && r.flags == s.flags && r.lines == s.lines
    ensures !WantsFile(s.wtype) ==> r.file == s.file && r.fileName == s.fileName && r.out == [Stdout]
    ensures WantsFile(s.wtype) ==> r.fileName == FileName(date)
    ensures OpenFails(s, openOk) ==> r.file == Nil && r.out == s.out
    ensures WantsFile(s.wtype) && openOk ==>
      r.file == Handle(LogPath(s.root, date), true) && r.out != [] && r.out[0] == ToFile(LogPath(s.root, date))
    ensures !OpenFails(s, openOk) ==> Some(r.out) == Route(s.wtype, LogPath(s.root, date), openOk)
  {
    var path := LogPath(s.root, date);
    var named := if WantsFile(s.wtype)
      then s.(fileName := FileName(date), file := if openOk then Handle(path, true) else Nil)
      else s;
    match Route(s.wtype, path, openOk)
    case None => named
    case Some(ws) => named.(out := ws)
  }

  /** The state after the logger writes one line. */
  function EmitNext(s: State, message: string, date: Date): (r: State)
    ensures r.(lines := s.lines) == s
    ensures |r.lines| == |s.lines| + 1 && r.lines[..|s.lines|] == s.lines
    ensures var line := r.lines[|s.lines|];
      && line.prefix == s.prefix && line.message == message && line.date == date
      && line.writers == s.out && line.delivered <= s.out
      && line.delivered == Delivered(s.out, s.file)
      && forall w :: w in line.delivered ==> Live(w, s.file)
  {
    s.(lines := s.lines + [Line(s.prefix, message, date, s.out, Delivered(s.out, s.file))])
  }

  /** Whether close() reports an error: there is no open file to close. */
  predicate CloseFails(s: State) {
    !(s.file.Handle? && s.file.isOpen)
  }

  /** The state after close(). */
  function CloseNext(s: State): (r: State)
    ensures r.(file := s.file) == s
    ensures !(r.file.Handle? && r.file.isOpen)
    ensures r.file.Nil? <==> s.file.Nil?
    ensures r.file.Handle? ==> r.file.path == s.file.path
  {
    if CloseFails(s) then s else s.(file := s.file.(isOpen := false))
  }

  /**
   * The state after one levelled call: open, lock, set the prefix, write one
   * line, then the deferred unlock and close, in that order.
   */
  function CallNext(s: State, prefix: string, message: string, date: Date, openOk: bool): (r: State)
    ensures r.root == s.root && r.wtype == s.wtype && r.flags == s.flags
    ensures !r.locked && r.prefix == prefix
    ensures !(r.file.Handle? && r.file.isOpen)
    ensures |r.lines| == |s.lines| + 1 && r.lines[..|s.lines|] == s.lines
    ensures r.lines[|s.lines|].prefix == prefix && r.lines[|s.lines|].message == message
    ensures r.lines[|s.lines|].date == date && r.lines[|s.lines|].writers == r.out
    ensures r.out == if OpenFails(s, openOk) then s.out else Route(s.wtype, LogPath(s.root, date), openOk).value
  {
    var afterOpen := OpenNext(s, date, openOk);
    var locked := afterOpen.(locked := true);
    var prefixed := locked.(prefix := prefix);
    var written := EmitNext(prefixed, message, date);
    var unlocked := written.(locked := false);
    CloseNext(unlocked)
  }

  /** The line the last call wrote. */
  function LastLine(s: State): Line
    requires s.lines != []
  {
    s.lines[|s.lines| - 1]
  }

  lemma CallKeepsValid(s: State, prefix: string, message: string, date: Date, openOk: bool)
    requires Valid(s)
    ensures Valid(CallNext(s, prefix, message, date, openOk))
  {
  }

  /**
   * With the WFile bit clear the call opens no file, and its line goes to
   * standard output alone.
   */
  lemma CallWithoutFile(s: State, prefix: string, message: string, date: Date, openOk: bool)
    requires !WantsFile(s.wtype)
    ensures var r := CallNext(s, prefix, message, date, openOk);
      && r.file == CloseNext(s).file && r.fileName == s.fileName
      && LastLine(r).writers == [Stdout] && LastLine(r).delivered == [Stdout]
  {
  }

  /**
   * With the WFile bit set and the file opened, the line reaches the day's
   * file, and standard output after it exactly when the WStdout bit is set.
   */
  lemma CallWithFile(s: State, prefix: string, message: string, date: Date)
    requires WantsFile(s.wtype)
    ensures var r := CallNext(s, prefix, message, date, true);
      var path := LogPath(s.root, date);
      && r.fileName == FileName(date) && r.file == Handle(path, false)
      && LastLine(r).delivered == LastLine(r).writers
      && LastLine(r).delivered == if WantsStdout(s.wtype) then [ToFile(path), Stdout] else [ToFile(path)]
  {
  }

  /**
   * When the file cannot be opened the line is still written, to the
   * destinations the previous call left in place. If those start with the
   * previous call's file, now closed, the fan-out stops there and the line
   * reaches nothing, standard output included.
   */
  lemma CallAfterFailedOpen(s: State, prefix: string, message: string, date: Date)
    requires Valid(s) && WantsFile(s.wtype)
    ensures var r := CallNext(s, prefix, message, date, false);
      && r.file == Nil && LastLine(r).writers == s.out
      && (s.out[0].ToFile? ==> LastLine(r).delivered == [])
      && (s.out == [Stdout] ==> LastLine(r).delivered == [Stdout])
  {
  }

  /** The operations that change a logger. */
  datatype Op =
    | Write(level: Level, message: string, date: Date, openOk: bool)
    | SetWriteType(wtype: int)
    | SetFlag(flag: int)
    | SetPrefix(prefix: string)

  function Step(s: State, op: Op): State {
    match op
    case Write(level, message, date, openOk) => CallNext(s, LevelPrefix(level), message, date, openOk)
    case SetWriteType(t) => s.(wtype := t)
    case SetFlag(f) => s.(flags := f)
    case SetPrefix(p) => s.(prefix := p)
  }

  function Run(s: State, ops: seq<Op>): State
    decreases |ops|
  {
    if ops == [] then s else Run(Step(s, ops[0]), ops[1..])
  }

  /** The number of levelled calls among ops. */
  function Writes(ops: seq<Op>): nat {
    if ops == [] then 0 else (if ops[0].Write? then 1 else 0) + Writes(ops[1..])
  }

  /**
   * Any sequence of operations keeps the invariant and the root, only adds
   * lines, and adds exactly one per levelled call.
   */
  lemma {:induction false} RunKeepsValid(s: State, ops: seq<Op>)
    requires Valid(s)
    decreases |ops|
    ensures var r := Run(s, ops);
      && Valid(r) && r.root == s.root
      && |r.lines| == |s.lines| + Writes(ops) && r.lines[..|s.lines|] == s.lines
  {
    if ops != [] {
      var next := Step(s, ops[0]);
      if ops[0].Write? {
        CallKeepsValid(s, LevelPrefix(ops[0].level), ops[0].message, ops[0].date, ops[0].openOk);
      }
      RunKeepsValid(next, ops[1..]);
      var r := Run(s, ops);
      assert r.lines[..|s.lines|] == r.lines[..|next.lines|][..|s.lines|];
    }
  }

  /**
   * Two lines that reached the same file were written on the same day, so a
   * new day always goes to a new file.
   */
  lemma SameFileSameDay(s: State, i: nat, j: nat, w: Writer)
    requires Valid(s) && i < |s.lines| && j < |s.lines|
    requires w.ToFile? && w in s.lines[i].delivered && w in s.lines[j].delivered
    ensures s.lines[i].date == s.lines[j].date
  {
    assert InDatedFile(s.lines[i], s.root) && InDatedFile(s.lines[j], s.root);
    FileNameInjective(s.lines[i].date, s.lines[j].date);
  }
}
