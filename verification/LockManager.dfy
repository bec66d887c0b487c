/** One manager's methods over its tables and the shared lock files, each run without interruption. */
module LockManagerModule {
  import opened LockModel
  import opened LockTheorems

  /** The lock and token files of the project, shared by every manager. */
  class LockDirectory {
    var files: map<string, Id>
    var fence: map<string, nat>

    constructor ()
      ensures files == map[] && fence == map[]
    {
      files, fence := map[], map[];
    }
  }

  datatype Acquired = Handle(token: nat) | NotReentrant | TimedOut

  class CrossProcessLockManager {
    const directory: LockDirectory
    var active: map<Id, string>
    var byExecution: map<string, Id>
    var pending: set<string>

    ghost function Contents(): Tables
      reads this
    {
      Tables(active, byExecution, pending)
    }

    constructor (directory: LockDirectory)
      ensures this.directory == directory && Contents() == Tables(map[], map[], {}) && TablesOk(Contents())
    {
      this.directory := directory;
      active, byExecution, pending := map[], map[], {};
    }

    /** Try for the file lock; `patience` is the number of tries before the deadline. */
    method AcquireFileLock(execution: string, lease: Id, patience: nat) returns (taken: bool)
      modifies directory`files
      ensures taken <==> execution !in old(directory.files) && patience > 0
      ensures directory.files == if taken then old(directory.files)[execution := lease] else old(directory.files)
    {
      var tries := 0;
      while tries < patience
        invariant tries <= patience && directory.files == old(directory.files)
        invariant tries > 0 ==> execution in directory.files
      {
        if execution !in directory.files {
          directory.files := directory.files[execution := lease];
          return true;
        }
        tries := tries + 1;
      }
      taken := false;
    }

    method AdvanceFence(execution: string) returns (token: nat)
      modifies directory`fence
      ensures token == Current(old(directory.fence), execution) + 1
      ensures directory.fence == old(directory.fence)[execution := token]
    {
      var current := if execution in directory.fence then directory.fence[execution] else 0;
      token := current + 1;
      directory.fence := directory.fence[execution := token];
    }

    /** Register as pending, take the file lock, publish the next token, and enter the tables. */
    method Acquire(execution: string, handle: Id, patience: nat) returns (r: Acquired)
      requires TablesOk(Contents()) && handle !in active
      modifies this, directory
      ensures TablesOk(Contents()) && pending == old(pending)
      ensures r.NotReentrant? <==> execution in old(byExecution) || execution in old(pending)
      ensures r.TimedOut? <==>
                && execution !in old(byExecution) && execution !in old(pending)
                && (execution in old(directory.files) || patience == 0)
      ensures r.Handle? ==>
                && execution !in old(directory.files) && directory.files == old(directory.files)[execution := handle]
                && r.token == Current(old(directory.fence), execution) + 1
                && directory.fence == old(directory.fence)[execution := r.token]
                && active == old(active)[handle := execution] && byExecution == old(byExecution)[execution := handle]
      ensures !r.Handle? ==>
                && directory.files == old(directory.files) && directory.fence == old(directory.fence)
                && active == old(active) && byExecution == old(byExecution)
    {
      if execution in byExecution || execution in pending { return NotReentrant; }
      pending := pending + {execution};
      var taken := AcquireFileLock(execution, handle, patience);
      if !taken {
        pending := pending - {execution};
        return TimedOut;
      }
      var token := AdvanceFence(execution);
      active := active[handle := execution];
      byExecution := byExecution[execution := handle];
      pending := pending - {execution};
      r := Handle(token);
    }

    /** A handle is good while it is in the table, under its own execution. */
    method Validate(handle: Id, execution: string) returns (ok: bool)
      ensures ok <==> handle in active && active[handle] == execution
    {
      ok := handle in active && active[handle] == execution;
    }

    /** Drop the file lock, then leave both tables; a handle that is not in them is refused. */
    method Release(handle: Id) returns (ok: bool)
      requires TablesOk(Contents())
      modifies this, directory`files
      ensures TablesOk(Contents()) && pending == old(pending)
      ensures ok <==> handle in old(active)
      ensures ok ==>
                && directory.files == old(directory.files) - {old(active)[handle]}
                && active == old(active) - {handle} && byExecution == old(byExecution) - {old(active)[handle]}
      ensures !ok ==> directory.files == old(directory.files) && Contents() == old(Contents())
    {
      if handle !in active { return false; }
      var execution := active[handle];
      directory.files := directory.files - {execution};
      active := active - {handle};
      byExecution := byExecution - {execution};
      ok := true;
    }
  }
}
