/**
 * The destinations a log line can be written to, and what a fan-out writer
 * (io.MultiWriter) does with one write: it hands the bytes to each
 * destination in order and stops at the first one that fails.
 */
module Writers {
  import opened LogFile

  /** os.Stdout, or the *os.File opened for a path. */
  datatype Writer = Stdout | ToFile(path: FilePath)

  /** The logger's File field: nil, or a file handle that is open or closed. */
  datatype Handle = Nil | Handle(path: FilePath, isOpen: bool)

  /**
   * A write to a destination succeeds when it is standard output, or the
   * file that is currently open. Files are told apart by their path.
   */
  predicate Live(w: Writer, file: Handle) {
    w.Stdout? || (file.Handle? && file.isOpen && file.path == w.path)
  }

  /** The destinations that receive one write through a fan-out over ws. */
  function Delivered(ws: seq<Writer>, file: Handle): (d: seq<Writer>)
    ensures d <= ws
    ensures forall w :: w in d ==> Live(w, file)
    ensures |d| < |ws| ==> !Live(ws[|d|], file)
  {
    if ws == [] || !Live(ws[0], file) then [] else [ws[0]] + Delivered(ws[1..], file)
  }
}
