/**
  The output side of Rust's `fmt::Formatter`, as far as `Display`
  implementations use it: a sink that accumulates the strings written to it
  with `write_str`, in call order. A `Display::fmt` body is then described by
  the sequence of strings it writes.
 */
module Formatting {

  /** The text a formatter has received so far. */
  datatype Formatter = Formatter(written: string)

  /** `f.write_str(s)`: one write, appended after everything already written. */
  function WriteStr(f: Formatter, s: string): Formatter {
    Formatter(f.written + s)
  }

  /** The text that a sequence of writes amounts to. */
  function Concat(pieces: seq<string>): string
    decreases |pieces|
  {
    if |pieces| == 0 then "" else pieces[0] + Concat(pieces[1..])
  }

  /** Issues the writes `pieces` to `f`, first to last. The formatter keeps
      what it held and gains exactly their concatenation after it: nothing is
      lost, reordered or inserted between writes. */
  function WriteAll(f: Formatter, pieces: seq<string>): (r: Formatter)
    ensures r.written == f.written + Concat(pieces)
    decreases |pieces|
  {
    if |pieces| == 0 then f else WriteAll(WriteStr(f, pieces[0]), pieces[1..])
  }
}
