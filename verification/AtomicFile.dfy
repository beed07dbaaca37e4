/** Replacing a file atomically: one commit point, and an error exactly before it. */
module AtomicFile {

  datatype CommitResult = CommitResult(committed: bool, warning: bool)

  /** Which of the calls succeed; a failed write leaves `partial` in the temporary file. */
  datatype Calls = Calls(
    mkdir: bool, create: bool, chmod: bool, write: bool, partial: string, sync: bool, close: bool,
    replace: bool, syncDir: bool, remove: bool)

  class Directory {
    var files: map<string, string>

    /** The directory without the entry `name`. */
    ghost function Others(name: string): map<string, string>
      reads this
    {
      files - {name}
    }

    /** Writes the temporary file and moves it over `path`; false before the commit point. */
    method Replace(path: string, content: string, temporary: string, calls: Calls) returns (committed: bool, closed: bool)
      requires temporary in files && temporary != path
      modifies this
      ensures committed == (calls.chmod && calls.write && calls.sync && calls.close && calls.replace)
      ensures committed ==> files == old(Others(temporary))[path := content]
      ensures !committed ==> Others(temporary) == old(Others(temporary)) && temporary in files
      ensures committed ==> closed
    {
      committed, closed := false, false;
      if !calls.chmod { return; }
      files := files[temporary := if calls.write then content else calls.partial];
      if !calls.write || !calls.sync { return; }
      closed := true;
      if !calls.close || !calls.replace { return; }
      files := (files - {temporary})[path := content];
      committed := true;
    }

    /**
      The file is committed exactly if every call up to the replacement succeeds, and an error is
      reported exactly if it is not; what fails later is a warning. A commit installs the whole
      content and leaves no temporary file; otherwise every file is as before, except for
      a temporary file whose removal failed too.
     */
    method WriteAtomic(path: string, content: string, temporary: string, calls: Calls)
      returns (result: CommitResult, failed: bool)
      requires temporary !in files && temporary != path
      modifies this
      ensures failed <==> !result.committed
      ensures result.committed <==>
                && calls.mkdir && calls.create && calls.chmod && calls.write && calls.sync && calls.close && calls.replace
      ensures result.warning <==> result.committed && (!calls.syncDir || !calls.remove)
      ensures result.committed ==> files == old(files)[path := content]
      ensures !result.committed ==> Others(temporary) == old(files) && (calls.remove ==> files == old(files))
    {
      result, failed := CommitResult(false, false), true;
      if !calls.mkdir || !calls.create { return; }
      files := files[temporary := ""];
      assert Others(temporary) == old(files);
      var committed, closed := Replace(path, content, temporary, calls);
      var cleanup := (!closed && !calls.close) || !calls.remove;
      if calls.remove { files := files - {temporary}; }
      if committed {
        result := CommitResult(true, !calls.syncDir || cleanup);
        failed := false;
      }
    }
  }
}
