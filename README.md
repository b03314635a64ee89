# loger, modelled in Dafny

`loger` is a small Go logger. A `Loger` writes levelled lines (`Info`, `Warn`,
`Error`, `Panic`, `Println`, `Printf`) to standard output, to a log file named
after the current date, or to both. Every levelled call does the same steps
in the same order:

1. If the `WFile` bit of `WType` is set, it derives the day's file name,
   `<year>_<month>_<day>.log`, under `Root` and opens that file.
2. It points its `log.Logger` at the chosen destinations, then takes the lock.
3. It sets the level's prefix and writes one line.
4. Its deferred calls then release the lock and close the file.

This project models that logic as a sequential state machine. The outside
world comes in as parameters:
- the date the clock reports (`Date`);
- whether the operating system opened the file (`openOk`).

The modules are:

- `Strconv` models `strconv.Itoa` as `Itoa`. `Parse` is its proved left
  inverse.
- `LogFile` holds the date, the file name and its round trip back to the date.
  A joined path `Joined(dir, name)` stands for `filepath.Join(dir, name)`.
- `Writers` holds the destinations and the fan-out writer (`io.MultiWriter`).
  That writer hands a line to each destination in order and stops at the
  first one that fails. Writing to the file succeeds only while that file is
  open.
- `LogerSpec` is the logger as values.
  - `State` holds every field of a `Loger` and of its `log.Logger`, plus the
    lines written so far.
  - Each step is a function: `OpenNext`, `EmitNext`, `CloseNext`, `CallNext`,
    and `Step` and `Run` over sequences of operations.
  - The invariant `Valid` holds between calls: the lock is free, no file is
    left open, and every line that reached a file reached the file of the day
    it was written on.
- `Logging` holds the class `Loger`. The module has its own name so that
  `import opened Logging` leaves the class name `Loger` unambiguous.
  - `Root`, `FileName`, `WType` and `File` are the Go fields.
  - `Locked` stands for the `sync.RWMutex`.
  - `Prefix`, `Flag` and `Out` are the state of the `log.Logger` held in the field `logger`.
  - `Lines` is a ghost history of written lines, which the Go type does not
    keep. It stands for what the destinations have received.
  - `Open`, `Close`, `Output`, the three setters and the levelled calls are
    proved to change these fields exactly as the matching function of
    `LogerSpec` says.
  - `Path`, `SetOutput`, `Lock` and `Unlock` state their new fields directly.

Points where the code behaves in a way that is easy to misread. The model
follows the code on each:

- The fan-out writes to the file first and to standard output second
  (`io.MultiWriter(l.File, os.Stdout)`).
- The deferred calls run in reverse order of registration. The lock is
  released first, and the file is closed after that, outside the lock.
- The levelled calls ignore the error from `open` and write the line anyway.
  The line goes to whatever output the previous call left in place. If that
  output starts with the previous call's file, which is now closed, the
  fan-out stops at that file. The line then reaches nothing, standard output
  included (`CallAfterFailedOpen`).
- `open` calls `path()`, and so updates `FileName`, before it tries to open
  the file. A failed open therefore still records the new name, and it sets
  `File` to nil.

## Model

| member | source | states |
|---|---|---|
| `Strconv.NatDigits` | loger.go:27-29 | The decimal text of a natural number is one or more digits. It starts with '0' only for zero. It is one digit exactly below 10 and at most two digits below 100. |
| `Strconv.NatDigitsValue` | loger.go:27-29 | The digits written for n denote n. |
| `Strconv.Itoa` | loger.go:27-29 | `strconv.Itoa` writes a leading '-' exactly for negative numbers. Every other character is a digit. |
| `Strconv.ParseItoa` | loger.go:27-29 | Reading back the text `Itoa` writes gives the number again. |
| `Strconv.ItoaInjective` | loger.go:27-29 | Different integers are written as different texts. |
| `Strconv.ItoaUnpadded` | loger.go:28-29 | A month or day number from 1 to 99 is written with one or two digits and no leading zero, and those digits denote it. |
| `LogFile.FileName` | loger.go:27-30 | The file name has at least nine characters and ends in ".log". |
| `LogFile.FileNameFields` | loger.go:27-30 | Splitting the name at its two '_' separators and dropping ".log" gives exactly `Itoa(year)`, `Itoa(month)` and `Itoa(day)`. |
| `LogFile.FileNameRoundTrip` | loger.go:27-30 | The date can be read back from its file name. |
| `LogFile.FileNameInjective` | loger.go:27-30 | Two different dates never give the same file name. For example, 1/11 and 11/1 stay apart. |
| `LogFile.FileNameUnpadded` | loger.go:28-29 | For a calendar date, the month and day fields of the name are one or two digits with no zero padding, and they denote the month and the day. |
| `Writers.Delivered` | loger.go:87-89 | The fan-out delivers a line to a leading run of its destinations, in order. Every destination reached accepts the write, and the fan-out stops at the first destination that does not. |
| `LogerSpec.LevelPrefix` | loger.go:128-172 | `Println` and `Printf` use the empty prefix. The four tagged levels use an eight-character prefix that starts with '['. |
| `LogerSpec.WriteTypeBits` | loger.go:14-17 | `WStdout` is 1 and `WFile` is 2, each with its own bit. The tests `WantsStdout` and `WantsFile` model `t&WStdout != 0` and `t&WFile != 0` at loger.go:72 and loger.go:86. They read the two low bits of any `t`, negative ones included: `t` is a multiple of four plus `WFile` when the file bit is set plus `WStdout` when the stdout bit is set. |
| `LogerSpec.NewLoger` | loger.go:43-51 | A new logger keeps the given root. `WType` is 3, the `WStdout` bit together with the `WFile` bit. It starts writing to standard output with the date, time and short-file flags, has written no lines, and satisfies the invariant. |
| `LogerSpec.Route` | loger.go:72-97 | `open` selects nothing, and so leaves the output unchanged, exactly when the `WFile` bit is set and the open failed. Otherwise it selects one or two distinct destinations. The day's file is among them exactly when `WFile` is set, and when present it comes first and is the only file. Standard output is among them exactly when `WStdout` is set or `WFile` is clear. |
| `LogerSpec.OpenNext` | loger.go:71-99 | With `WFile` clear, `open` opens no file, keeps `FileName` and sets the output to standard output alone. With `WFile` set, it stores the day's file name. A failed open sets `File` to nil and leaves the output as it was. A successful open holds the day's file open, and the output is exactly what `Route` selects: the day's file followed by standard output when `WStdout` is set, and the file alone otherwise. Root, `WType`, prefix, flags and lines do not change. |
| `LogerSpec.EmitNext` | loger.go:129 | Writing through the logger adds exactly one line and keeps the earlier lines. The line carries the prefix in force, the message, the date and the current output. It reaches the longest leading part of that output whose destinations all accept the write, as `Delivered` computes it. Nothing else changes. `Logging.Loger.Output` is proved against this function. |
| `LogerSpec.CloseNext` | loger.go:106-109 | After `close` no file is open. A nil `File` stays nil, and a handle keeps its path. Nothing else changes. `Logging.Loger.Close` is proved against this function. |
| `LogerSpec.CallNext` | loger.go:123-130 | A levelled call adds exactly one line and keeps the earlier lines. The line carries the call's prefix, message and date, and the output in force when it was written. That output is the one `Route` selects, or the previous one when the open failed. Afterwards the lock is free and no file is open. Root, `WType` and flags do not change. |
| `LogerSpec.CallKeepsValid` | loger.go:123-130 | A levelled call keeps the invariant. In particular, the new line reaches no file other than the one named after its date. |
| `LogerSpec.CallWithoutFile` | loger.go:93-96 | With `WFile` clear, a call opens no file and leaves `FileName` unchanged. Its line goes to standard output alone. |
| `LogerSpec.CallWithFile` | loger.go:86-92 | With `WFile` set and the file opened, the line reaches every destination. The destinations are the day's file, followed by standard output exactly when `WStdout` is set. The file is closed again afterwards. |
| `LogerSpec.CallAfterFailedOpen` | loger.go:77-80 | When the open fails, `File` becomes nil and the line is still written, to the previous output. If that output began with a file, the line reaches nothing. If it was standard output alone, the line reaches standard output. |
| `LogerSpec.RunKeepsValid` | loger.go:119-174 | Any sequence of levelled calls and setter calls keeps the invariant and the root. It only appends lines, exactly one per levelled call. |
| `LogerSpec.SameFileSameDay` | loger.go:24-33 | Two lines that reached the same file were written on the same date, so each new day's lines go to a new file. |
| `Logging.Loger.constructor` | loger.go:43-54 | Construction gives the state `NewLoger(root)`. |
| `Logging.Loger.Path` | loger.go:24-33 | `path()` stores the day's name in `FileName` and returns it joined under `Root`. It changes no other field. |
| `Logging.Loger.Open` | loger.go:71-99 | `open` moves the fields as `OpenNext` says. It reports an error exactly when the `WFile` bit is set and the file could not be opened. |
| `Logging.Loger.SetOutput` | loger.go:101-103 | It replaces the logger's output and nothing else. |
| `Logging.Loger.Close` | loger.go:106-109 | `close` moves the fields as `CloseNext` says: it closes an open `File` and changes nothing else. It reports an error when no file is open. |
| `Logging.Loger.SetFlag` | loger.go:111-113 | It replaces the flags and nothing else. |
| `Logging.Loger.SetPrefix` | loger.go:115-117 | It replaces the prefix and nothing else. |
| `Logging.Loger.SetWriteType` | loger.go:119-121 | It replaces `WType` and nothing else, and it keeps the invariant. |
| `Logging.Loger.Lock` | loger.go:127 | It takes the free lock. |
| `Logging.Loger.Unlock` | loger.go:125 | It releases the held lock. |
| `Logging.Loger.Output` | loger.go:129 | It moves the fields as `EmitNext` says: it appends one line that carries the current prefix and output and the destinations that received it. |
| `Logging.Loger.Levelled` | loger.go:123-130 | The shared step sequence of the levelled calls moves the fields as `CallNext` says and keeps the invariant. |
| `Logging.Loger.Info` | loger.go:123-130 | One call with prefix "[INFO]: ", as `CallNext`. |
| `Logging.Loger.Warn` | loger.go:131-138 | One call with prefix "[WARN]: ", as `CallNext`. |
| `Logging.Loger.Error` | loger.go:140-147 | One call with prefix "[ERROR]:", as `CallNext`. |
| `Logging.Loger.Panic` | loger.go:149-156 | One call with prefix "[PANIC]:", as `CallNext`. It then raises a panic whose value is the message. |
| `Logging.Loger.Println` | loger.go:158-165 | One call with the empty prefix, as `CallNext`. |
| `Logging.Loger.Printf` | loger.go:167-174 | One call with the empty prefix, as `CallNext`. |

## Left out

- `initDir` (`os.Stat` and `os.Mkdir` on the root) is filesystem I/O. The constructor does not model creating the directory.
- `os.OpenFile` and its flags and permissions are not modelled. Its outcome is the `openOk` parameter.
- The "open log file error" notice that `open` prints to the process's default logger goes to a sink outside the `Loger`, so it is not recorded.
- `time.Now()` is not modelled. The date is a parameter, and the same date stands for both clock reads of a call: the one in `path()` and the one in the logger's line header. A call that straddles midnight can read two different dates; the model does not capture this.
- `filepath.Join`'s path cleaning is not modelled. A path is kept as the pair of its directory and its name.
- `sync.RWMutex` and concurrency are not modelled. The lock is a flag in a sequential model, so the race between `open` and `Lock` is not captured.
- `log.Logger`'s line header is not modelled: date, time, `Lshortfile` caller lookup and the effect of the flags on the text. A line records its prefix, message and date.
- `fmt.Sprintln` and `fmt.Sprintf` formatting of arbitrary values is not modelled. The message is an opaque string that the caller has already formatted.
- `Logging.Loger.Panic`: the panic's propagation through the caller's stack is represented only by returning the raised value.
- `Writers.Live`, `LogerSpec.EmitNext`: whether a file destination in the output accepts a write is read from the current `File` field, by path. In Go, the fan-out keeps the `*os.File` it was built with, and that handle accepts writes until it is closed. The two agree when no handle other than `File` is open. That holds before every write a levelled call makes, because each levelled call closes its file before the next call opens one. They differ after `open` is called directly twice without a `close` between, for example a successful open followed by a failed one. In Go the first handle then stays open in the fan-out and still receives the line; in the model it does not.
- Errors from writing to standard output are not modelled. Writing to standard output always succeeds.
- The branch at loger.go:82-84 cannot be reached, because the error was already returned at loger.go:77-80. It is not modelled.
