/**
 * The Loger type: a logger that, on every levelled call, derives the day's
 * file name and opens that file when the WFile bit is set, points its
 * log.Logger at the selected destinations, writes one prefixed line, and
 * closes the file again.
 *
 * Open, Close, Output, the three setters and the levelled calls are proved
 * to move the object's fields exactly as the matching function of module
 * LogerSpec moves a State; Path, SetOutput, Lock and Unlock state their new
 * fields directly.
 */
module Logging {
  import opened LogFile
  import opened Writers
  import opened LogerSpec

  class Loger {
    // LogFile, embedded
    var Root: string
    var FileName: string
    // the write-type bitmask
    var WType: int
    var File: Handle
    // the sync.RWMutex, used as a plain exclusive lock
    var Locked: bool
    // prefix, flags and output of the log.Logger
    var Prefix: string
    var Flag: int
    var Out: seq<Writer>
    // every line the log.Logger has written
    ghost var Lines: seq<Line>

    ghost function Abs(): State
      reads this
    {
      State(Root, FileName, WType, File, Locked, Prefix, Flag, Out, Lines)
    }

    ghost predicate Valid()
      reads this
    {
      LogerSpec.Valid(Abs())
    }

    /** NewLoger(root); creating the directory is not part of this model. */
    constructor (root: string)
      ensures Abs() == NewLoger(root) && Valid()
    {
      Root := root;
      FileName := "";
      WType := W_STDOUT + W_FILE;
      File := Nil;
      Locked := false;
      Prefix := "";
      Flag := DEFAULT_FLAGS;
      Out := [Stdout];
      Lines := [];
    }

    /** LogFile.path: records the day's file name and returns its path under Root. */
    method Path(date: Date) returns (p: FilePath)
      modifies this`FileName
      ensures FileName == LogFile.FileName(date)
      ensures p == LogPath(Root, date) && p.dir == Root && p.name == FileName
    {
      FileName := LogFile.FileName(date);
      p := Joined(Root, FileName);
    }

    /**
     * open: selects the destinations from WType; openOk says whether the
     * operating system opened the file.
     */
    method Open(date: Date, openOk: bool) returns (err: bool)
      modifies this
      ensures Abs() == OpenNext(old(Abs()), date, openOk)
      ensures err == OpenFails(old(Abs()), openOk)
    {
      err := false;
      if WantsFile(WType) {
        var path := Path(date);
        if !openOk {
          File := Nil;
          err := true;
          return;
        }
        File := Handle(path, true);
        var w: seq<Writer>;
        if WantsStdout(WType) {
          w := [ToFile(File.path), Stdout];
        } else {
          w := [ToFile(File.path)];
        }
        SetOutput(w);
      } else {
        SetOutput([Stdout]);
      }
    }

    method SetOutput(w: seq<Writer>)
      modifies this`Out
      ensures Out == w
    {
      Out := w;
    }

    /** close: closes File; reports an error when no open file is there. */
    method Close() returns (err: bool)
      modifies this`File
      ensures Abs() == CloseNext(old(Abs()))
      ensures err == CloseFails(old(Abs()))
    {
      if File.Handle? && File.isOpen {
        File := File.(isOpen := false);
        err := false;
      } else {
        err := true;
      }
    }

    method SetFlag(flag: int)
      modifies this`Flag
      ensures Abs() == Step(old(Abs()), Op.SetFlag(flag))
    {
      Flag := flag;
    }

    method SetPrefix(prefix: string)
      modifies this`Prefix
      ensures Abs() == Step(old(Abs()), Op.SetPrefix(prefix))
    {
      Prefix := prefix;
    }

    /** SetWriteType replaces the bitmask and nothing else. */
    method SetWriteType(t: int)
      modifies this`WType
      ensures Abs() == Step(old(Abs()), Op.SetWriteType(t))
      ensures Valid() == old(Valid())
    {
      WType := t;
    }

    method Lock()
      requires !Locked
      modifies this`Locked
      ensures Locked
    {
      Locked := true;
    }

    method Unlock()
      requires Locked
      modifies this`Locked
      ensures !Locked
    {
      Locked := false;
    }

    /** log.Logger.Output: one line, with the current prefix, to the current output. */
    method Output(message: string, date: Date)
      modifies this`Lines
      ensures Abs() == EmitNext(old(Abs()), message, date)
    {
      Lines := Lines + [Line(Prefix, message, date, Out, Delivered(Out, File))];
    }

    /**
     * The steps every levelled call takes. The error from open is ignored:
     * the line is written whatever open returned.
     */
    method Levelled(prefix: string, message: string, date: Date, openOk: bool)
      requires Valid()
      modifies this
      ensures Abs() == CallNext(old(Abs()), prefix, message, date, openOk)
      ensures Valid()
    {
      ghost var before := Abs();
      var _ := Open(date, openOk);
      Lock();
      SetPrefix(prefix);
      Output(message, date);
      // deferred calls run last-registered first: Unlock, then close
      Unlock();
      var _ := Close();
      CallKeepsValid(before, prefix, message, date, openOk);
    }

    method Info(message: string, date: Date, openOk: bool)
      requires Valid()
      modifies this
      ensures Abs() == Step(old(Abs()), Write(Level.Info, message, date, openOk))
      ensures Valid()
    {
      Levelled(LevelPrefix(Level.Info), message, date, openOk);
    }

    method Warn(message: string, date: Date, openOk: bool)
      requires Valid()
      modifies this
      ensures Abs() == Step(old(Abs()), Write(Level.Warn, message, date, openOk))
      ensures Valid()
    {
      Levelled(LevelPrefix(Level.Warn), message, date, openOk);
    }

    method Error(message: string, date: Date, openOk: bool)
      requires Valid()
      modifies this
      ensures Abs() == Step(old(Abs()), Write(Level.Error, message, date, openOk))
      ensures Valid()
    {
      Levelled(LevelPrefix(Level.Error), message, date, openOk);
    }

    /**
     * Panic writes its line like the others and then raises a panic whose
     * value is the message; the deferred unlock and close still run.
     */
    method Panic(message: string, date: Date, openOk: bool) returns (raised: string)
      requires Valid()
      modifies this
      ensures Abs() == Step(old(Abs()), Write(Level.Panic, message, date, openOk))
      ensures raised == message && Valid()
    {
      Levelled(LevelPrefix(Level.Panic), message, date, openOk);
      raised := message;
    }

    method Println(message: string, date: Date, openOk: bool)
      requires Valid()
      modifies this
      ensures Abs() == Step(old(Abs()), Write(Level.Println, message, date, openOk))
      ensures Valid()
    {
      Levelled(LevelPrefix(Level.Println), message, date, openOk);
    }

    method Printf(message: string, date: Date, openOk: bool)
      requires Valid()
      modifies this
      ensures Abs() == Step(old(Abs()), Write(Level.Printf, message, date, openOk))
      ensures Valid()
    {
      Levelled(LevelPrefix(Level.Printf), message, date, openOk);
    }
  }
}
