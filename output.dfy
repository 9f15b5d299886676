/** The process's standard output, as an append-only log of the lines written to it. */
module Output {

  /** Stands for `Console`: every `Console.WriteLine` call appends one line. */
  class Console {
    var lines: seq<string>

    constructor ()
      ensures lines == []
    {
      lines := [];
    }

    method WriteLine(line: string)
      modifies this
      ensures lines == old(lines) + [line]
    {
      lines := lines + [line];
    }
  }
}
