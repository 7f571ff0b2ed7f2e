/** The result file, seen as the text written to it so far. */
module Files {

  class OutputFile {
    var text: string

    /** `open(result_filename, 'w')`: the file starts empty. */
    constructor ()
      ensures text == ""
    {
      text := "";
    }

    /** `file.write(s)` appends `s`. */
    method Write(s: string)
      modifies this
      ensures text == old(text) + s
    {
      text := text + s;
    }
  }
}
