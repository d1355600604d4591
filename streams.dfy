/** A line-oriented output stream (std::cout, std::cerr) as a growing sequence of lines. */
module Streams {

  class OutputStream {
    var lines: seq<string>

    constructor ()
      ensures lines == []
    {
      lines := [];
    }

    /** Writes one line; the newline itself is not part of the stored text. */
    method WriteLine(line: string)
      modifies this
      ensures lines == old(lines) + [line]
    {
      lines := lines + [line];
    }
  }
}
