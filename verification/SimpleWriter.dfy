/** The output stream, seen only through what it has received: an
    append-only sequence of lines. */
module SimpleWriter {

  class Writer {
    /** Every line printed so far, in order. */
    var content: seq<string>

    constructor ()
      ensures content == []
    {
      content := [];
    }

    /** Appends one line and changes nothing else. */
    method Println(line: string)
      modifies this
      ensures content == old(content) + [line]
    {
      content := content + [line];
    }
  }
}
