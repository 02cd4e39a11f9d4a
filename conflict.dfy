/** Policies for a farm path that is a plain file in several source trees. */
module Conflict {
  import opened Errors

  /** What a conflict handler answers: the winning origin path ("" to link
      nothing) and an error, as Go's (string, error) pair. */
  datatype Reply = Reply(source: string, err: Option<Error>)

  /** A conflict handler is given the candidate origin paths in source order. */
  type ConflictHandler = seq<string> -> Reply

  /** The default policy: every file conflict is an error. */
  function NeverConflict(sourceFiles: seq<string>): (r: Reply)
    ensures r.err == Some(FileConflict) && r.source == ""
  {
    Reply("", Some(FileConflict))
  }

  /** Skip the conflicting path: no winner and no error. */
  function IgnoreBothConflict(sourceFiles: seq<string>): (r: Reply)
    ensures r.err == None && r.source == ""
  {
    Reply("", None)
  }
}
