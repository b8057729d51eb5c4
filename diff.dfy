/** The structure `diffparser.Parse` returns for a unified diff. A hunk's new range holds
    the lines of the new version of the file in the hunk: added and unchanged lines. */
module Diff {

  datatype LineMode = Added | Removed | Unchanged

  datatype DiffLine = DiffLine(mode: LineMode, number: int, content: string)

  datatype DiffRange = DiffRange(start: int, length: int, lines: seq<DiffLine>)

  datatype DiffHunk = DiffHunk(origRange: DiffRange, newRange: DiffRange)

  datatype FileMode = Deleted | Modified | New

  datatype DiffFile = DiffFile(mode: FileMode, origName: string, newName: string, hunks: seq<DiffHunk>)

  datatype Diff = Diff(files: seq<DiffFile>)
}
