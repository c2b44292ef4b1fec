/**
 The resumable batch: many files submitted one by one, with a checklist on disk that must survive a crash
 at any step. What the files, the disk and the server do comes from an environment.
 */
module Batch {
  import opened Prelude

  type Path = string

  datatype Status = Pending | Working | Succeeded | Failed | Unknown(name: string)

  datatype Reason = ReadFile | ParseMessages | TooLong | Transport | Refused

  datatype Entry = Entry(status: Status, attempts: nat, lastError: Option<Reason>, conversation: Option<int>)

  /** An empty root or selector stands for one that the file does not hold. */
  datatype Checklist = Checklist(root: string, selector: string, entries: map<Path, Entry>)

  // ---- Environment ----

  /** How saving goes: it writes a temporary file and then renames it over the list. */
  datatype Save = Saved | TempFails | RenameFails | CrashBeforeRename | CrashAfterRename

  datatype Reply = Accepted(conversation: Option<int>) | Rejected | Lost | NeverSeen

  /** What becomes of one file; `taken` tells whether the server took the submission. */
  datatype Attempt = Unreadable | Unparsable | Oversized | CrashFirst | Submit(taken: bool, reply: Reply)

  datatype FileEnv = FileEnv(cancelled: bool, firstSave: Save, attempt: Attempt, secondSave: Save, cancelledInCall: bool)

  datatype RunEnv = RunEnv(loads: bool, mergeSave: Save, file: nat -> FileEnv)

  datatype Options = Options(root: string, selector: string, retryFailed: bool, dryRun: bool)

  datatype Submission = Submission(path: Path, taken: bool)

  // ---- State of a run ----

  datatype Tally = Tally(processed: nat, skipped: nat, wouldProcess: nat, succeeded: nat, failed: nat)

  const ZERO := Tally(0, 0, 0, 0, 0)

  datatype Ending =
    | Finished
    | WithFailures
    | NoFiles
    | CannotLoad
    | RootMismatch
    | SelectorMismatch
    | CannotSave
    | Cancelled
    | Crashed

  datatype Run = Run(list: Checklist, disk: Option<Checklist>, log: seq<Submission>, tally: Tally, ending: Option<Ending>)

  // ---- Meaning of the steps ----

  predicate ShouldProcess(entry: Entry, retryFailed: bool) {
    match entry.status
    case Succeeded => false
    case Failed => retryFailed
    case _ => true
  }

  function Load(disk: Option<Checklist>, loads: bool, root: string, selector: string): Result<Checklist, Ending> {
    match disk
    case None => Ok(Checklist(root, selector, map[]))
    case Some(stored) =>
      if !loads then Err(CannotLoad)
      else if stored.root != "" && stored.root != root then Err(RootMismatch)
      else if stored.selector != "" && stored.selector != selector then Err(SelectorMismatch)
      else Ok(Checklist(root, selector, stored.entries))
  }

  const NEW_ENTRY := Entry(Pending, 0, None, None)

  /** Every file has an entry; the ones that had one keep it. */
  function Merged(entries: map<Path, Entry>, files: seq<Path>): (r: map<Path, Entry>)
    ensures forall p :: p in r <==> p in entries || p in files
    ensures forall p :: p in r ==> r[p] == if p in entries then entries[p] else NEW_ENTRY
  {
    if files == [] then entries
    else
      var rest := Merged(entries, files[..|files| - 1]);
      var p := files[|files| - 1];
      assert forall q :: q in files <==> q in files[..|files| - 1] || q == p;
      if p in rest then rest else rest[p := NEW_ENTRY]
  }

  function Store(run: Run, save: Save): (r: Run)
    ensures r.list == run.list
  {
    match save
    case Saved => run.(disk := Some(run.list))
    case TempFails => run.(ending := Some(CannotSave))
    case RenameFails => run.(ending := Some(CannotSave))
    case CrashBeforeRename => run.(ending := Some(Crashed))
    case CrashAfterRename => run.(disk := Some(run.list), ending := Some(Crashed))
  }

  function WithEntry(run: Run, path: Path, entry: Entry): (r: Run)
    ensures path in r.list.entries
  {
    run.(list := run.list.(entries := run.list.entries[path := entry]))
  }

  function Begun(entry: Entry): Entry {
    entry.(attempts := entry.attempts + 1, status := Working)
  }

  function FailedFor(entry: Entry, reason: Reason): Entry {
    entry.(status := Failed, lastError := Some(reason))
  }

  /** The failure is noted, saved and counted. */
  function Fail(run: Run, path: Path, reason: Reason, save: Save): (r: Run)
    requires path in run.list.entries
    ensures path in r.list.entries
  {
    var saved := Store(WithEntry(run, path, FailedFor(run.list.entries[path], reason)), save);
    if saved.ending.Some? then saved else saved.(tally := saved.tally.(failed := saved.tally.failed + 1))
  }

  function Succeed(run: Run, path: Path, conversation: Option<int>, save: Save): (r: Run)
    requires path in run.list.entries
    ensures path in r.list.entries
  {
    var entry := run.list.entries[path].(status := Succeeded, lastError := None, conversation := conversation);
    var saved := Store(WithEntry(run, path, entry), save);
    if saved.ending.Some? then saved else saved.(tally := saved.tally.(succeeded := saved.tally.succeeded + 1))
  }

  function Log(run: Run, path: Path, taken: bool): Run {
    run.(log := run.log + [Submission(path, taken)])
  }

  /** The reply of the server; one that accepts was taken. */
  function Answer(run: Run, path: Path, taken: bool, reply: Reply, fe: FileEnv): (r: Run)
    requires path in run.list.entries
    ensures path in r.list.entries
  {
    match reply
    case Accepted(conversation) => Succeed(Log(run, path, true), path, conversation, fe.secondSave)
    case Rejected => Fail(Log(run, path, taken), path, Refused, fe.secondSave)
    case NeverSeen => Log(run, path, taken).(ending := Some(Crashed))
    case Lost =>
      var failed := Fail(Log(run, path, taken), path, Transport, fe.secondSave);
      if failed.ending.None? && fe.cancelledInCall then failed.(ending := Some(Cancelled)) else failed
  }

  function Try(run: Run, path: Path, fe: FileEnv): (r: Run)
    requires path in run.list.entries
    ensures path in r.list.entries
  {
    match fe.attempt
    case Unreadable => Fail(run, path, ReadFile, fe.secondSave)
    case Unparsable => Fail(run, path, ParseMessages, fe.secondSave)
    case Oversized => Fail(run, path, TooLong, fe.secondSave)
    case CrashFirst => run.(ending := Some(Crashed))
    case Submit(taken, reply) => Answer(run, path, taken, reply, fe)
  }

  function Begin(run: Run, path: Path, save: Save): (r: Run)
    requires path in run.list.entries
    ensures path in r.list.entries
  {
    Store(WithEntry(run, path, Begun(run.list.entries[path])), save)
  }

  function Process(run: Run, path: Path, fe: FileEnv): (r: Run)
    requires path in run.list.entries
    ensures path in r.list.entries
  {
    var begun := Begin(run, path, fe.firstSave);
    if begun.ending.Some? then begun else Try(begun, path, fe)
  }

  function Skip(run: Run): Run {
    run.(tally := run.tally.(skipped := run.tally.skipped + 1))
  }

  function Take(run: Run, dryRun: bool): Run {
    var tally := run.tally.(processed := run.tally.processed + 1);
    run.(tally := if dryRun then tally.(wouldProcess := tally.wouldProcess + 1) else tally)
  }

  /** A file without an entry would be processed, and the missing entry dereferenced. */
  function File(run: Run, o: Options, path: Path, fe: FileEnv): Run {
    if fe.cancelled then run.(ending := Some(Cancelled))
    else if path in run.list.entries && !ShouldProcess(run.list.entries[path], o.retryFailed) then Skip(run)
    else if o.dryRun then Take(run, true)
    else if path !in run.list.entries then Take(run, false).(ending := Some(Crashed))
    else Process(Take(run, false), path, fe)
  }

  /** The first `n` files, up to the first ending. */
  function Files(run: Run, o: Options, files: seq<Path>, env: nat -> FileEnv, n: nat): Run
    requires n <= |files|
  {
    if n == 0 then run else Next(Files(run, o, files, env, n - 1), o, files[n - 1], env(n - 1))
  }

  function Next(run: Run, o: Options, path: Path, fe: FileEnv): Run {
    if run.ending.Some? then run else File(run, o, path, fe)
  }

  function Close(run: Run, dryRun: bool): Run {
    if run.ending.Some? then run
    else run.(ending := Some(if !dryRun && run.tally.failed > 0 then WithFailures else Finished))
  }

  /** A run up to its first save. */
  function Opened(o: Options, files: seq<Path>, env: RunEnv, disk: Option<Checklist>, log: seq<Submission>): Run {
    var idle := Run(Checklist(o.root, o.selector, map[]), disk, log, ZERO, None);
    if files == [] then idle.(ending := Some(NoFiles)) else
    match Load(disk, env.loads, o.root, o.selector)
    case Err(e) => idle.(ending := Some(e))
    case Ok(list) => Store(idle.(list := list.(entries := Merged(list.entries, files))), env.mergeSave)
  }

  function RunOnce(o: Options, files: seq<Path>, env: RunEnv, disk: Option<Checklist>, log: seq<Submission>): Run {
    var ready := Opened(o, files, env, disk, log);
    if ready.ending.Some? then ready
    else Close(Files(ready, o, files, env.file, |files|), o.dryRun)
  }

  // ---- The run as a program ----

  class FormationBatch {
    var list: Checklist
    var disk: Option<Checklist>
    var temp: Option<Checklist>
    var log: seq<Submission>
    var processed: nat
    var skipped: nat
    var wouldProcess: nat
    var succeeded: nat
    var failed: nat

    /** The state, with the ending the last step gave. */
    function View(ending: Option<Ending>): Run
      reads this
    {
      Run(list, disk, log, Tally(processed, skipped, wouldProcess, succeeded, failed), ending)
    }

    constructor (disk: Option<Checklist>, log: seq<Submission>)
      ensures this.disk == disk && this.log == log
    {
      this.disk, this.log := disk, log;
      temp := None;
      list := Checklist("", "", map[]);
      processed, skipped, wouldProcess, succeeded, failed := 0, 0, 0, 0, 0;
    }

    /** Whatever happens, the disk holds the list of before or the whole new one. */
    method SaveList(save: Save) returns (ending: Option<Ending>)
      modifies this`disk, this`temp
      ensures View(ending) == Store(old(View(None)), save)
      ensures disk == old(disk) || disk == Some(list)
      ensures ending.None? ==> disk == Some(list)
    {
      if save.TempFails? {
        return Some(CannotSave);
      }
      temp := Some(list);
      if save.CrashBeforeRename? {
        return Some(Crashed);
      }
      if save.RenameFails? {
        return Some(CannotSave);
      }
      disk, temp := temp, None;
      ending := if save.CrashAfterRename? then Some(Crashed) else None;
    }

    method MergeEntries(files: seq<Path>)
      modifies this`list
      ensures list == old(list).(entries := Merged(old(list).entries, files))
    {
      for i := 0 to |files|
        invariant list == old(list).(entries := Merged(old(list).entries, files[..i]))
      {
        assert files[..i + 1][..i] == files[..i];
        if files[i] !in list.entries {
          list := list.(entries := list.entries[files[i] := NEW_ENTRY]);
        }
      }
      assert files[..|files|] == files;
    }

    method MarkFailed(path: Path, reason: Reason)
      requires path in list.entries
      modifies this`list
      ensures View(None) == WithEntry(old(View(None)), path, FailedFor(old(list).entries[path], reason))
    {
      var entry := list.entries[path].(status := Failed, lastError := Some(reason));
      list := list.(entries := list.entries[path := entry]);
    }

    method FailFile(path: Path, reason: Reason, save: Save) returns (ending: Option<Ending>)
      requires path in list.entries
      modifies this`list, this`disk, this`temp, this`failed
      ensures View(ending) == Fail(old(View(None)), path, reason, save)
      ensures path in list.entries && list.entries[path] == FailedFor(old(list).entries[path], reason)
      ensures disk == old(disk) || disk == Some(list)
      ensures ending.None? ==> disk == Some(list) && failed == old(failed) + 1
      ensures ending.Some? ==> failed == old(failed)
    {
      MarkFailed(path, reason);
      ending := SaveList(save);
      if ending.Some? {
        return;
      }
      failed := failed + 1;
    }

    method SucceedFile(path: Path, conversation: Option<int>, save: Save) returns (ending: Option<Ending>)
      requires path in list.entries
      modifies this`list, this`disk, this`temp, this`succeeded
      ensures View(ending) == Succeed(old(View(None)), path, conversation, save)
      ensures path in list.entries && list.entries[path].attempts == old(list).entries[path].attempts
      ensures disk == old(disk) || disk == Some(list)
      ensures list.entries[path].status == Succeeded && list.entries[path].lastError == None
      ensures ending.None? ==> disk == Some(list) && succeeded == old(succeeded) + 1
      ensures ending.Some? ==> succeeded == old(succeeded)
    {
      var entry := list.entries[path].(status := Succeeded, lastError := None, conversation := conversation);
      list := list.(entries := list.entries[path := entry]);
      ending := SaveList(save);
      if ending.Some? {
        return;
      }
      succeeded := succeeded + 1;
    }

    method SubmitFile(path: Path, taken: bool, reply: Reply, fe: FileEnv) returns (ending: Option<Ending>)
      requires path in list.entries
      modifies this
      ensures View(ending) == Answer(old(View(None)), path, taken, reply, fe)
      ensures log == old(log) + [Submission(path, taken || reply.Accepted?)]
      ensures path in list.entries && list.entries[path].attempts == old(list).entries[path].attempts
      ensures disk == old(disk) || disk == Some(list)
      ensures succeeded > old(succeeded) ==> reply.Accepted?
    {
      log := log + [Submission(path, taken || reply.Accepted?)];
      match reply {
        case Accepted(conversation) => ending := SucceedFile(path, conversation, fe.secondSave);
        case Rejected => ending := FailFile(path, Refused, fe.secondSave);
        case NeverSeen => return Some(Crashed);
        case Lost =>
          ending := FailFile(path, Transport, fe.secondSave);
          if ending.None? && fe.cancelledInCall {
            return Some(Cancelled);
          }
      }
    }

    method TryFile(path: Path, fe: FileEnv) returns (ending: Option<Ending>)
      requires path in list.entries
      modifies this
      ensures View(ending) == Try(old(View(None)), path, fe)
      ensures !fe.attempt.Submit? ==> log == old(log) && succeeded == old(succeeded)
      ensures path in list.entries && list.entries[path].attempts == old(list).entries[path].attempts
      ensures disk == old(disk) || disk == Some(list)
    {
      match fe.attempt {
        case Unreadable => ending := FailFile(path, ReadFile, fe.secondSave);
        case Unparsable => ending := FailFile(path, ParseMessages, fe.secondSave);
        case Oversized => ending := FailFile(path, TooLong, fe.secondSave);
        case CrashFirst => return Some(Crashed);
        case Submit(taken, reply) => ending := SubmitFile(path, taken, reply, fe);
      }
    }

    method ProcessFile(path: Path, fe: FileEnv) returns (ending: Option<Ending>)
      requires path in list.entries
      modifies this
      ensures View(ending) == Process(old(View(None)), path, fe)
      ensures log != old(log) ==>
                disk.Some? && path in disk.value.entries && disk.value.entries[path].attempts == old(list).entries[path].attempts + 1
    {
      var entry := list.entries[path];
      list := list.(entries := list.entries[path := entry.(attempts := entry.attempts + 1, status := Working)]);
      ending := SaveList(fe.firstSave);
      if ending.None? {
        ending := TryFile(path, fe);
      }
    }

    method CountSkipped()
      modifies this`skipped
      ensures View(None) == Skip(old(View(None)))
    {
      skipped := skipped + 1;
    }

    method CountProcessed(dryRun: bool)
      modifies this`processed, this`wouldProcess
      ensures View(None) == Take(old(View(None)), dryRun)
    {
      processed := processed + 1;
      if dryRun {
        wouldProcess := wouldProcess + 1;
      }
    }

    method RunFile(o: Options, path: Path, fe: FileEnv) returns (ending: Option<Ending>)
      modifies this
      ensures View(ending) == File(old(View(None)), o, path, fe)
      ensures log != old(log) ==>
                && !o.dryRun && path in old(list).entries && ShouldProcess(old(list).entries[path], o.retryFailed)
                && disk.Some? && path in disk.value.entries
                && disk.value.entries[path].attempts == old(list).entries[path].attempts + 1
    {
      if fe.cancelled {
        return Some(Cancelled);
      }
      if path in list.entries && !ShouldProcess(list.entries[path], o.retryFailed) {
        CountSkipped();
        return None;
      }
      CountProcessed(o.dryRun);
      if o.dryRun {
        return None;
      }
      if path !in list.entries {
        return Some(Crashed);
      }
      ending := ProcessFile(path, fe);
    }

    method RunFiles(o: Options, files: seq<Path>, env: nat -> FileEnv) returns (ending: Option<Ending>)
      modifies this
      ensures View(ending) == Files(old(View(None)), o, files, env, |files|)
    {
      ghost var start := View(None);
      for i := 0 to |files|
        invariant View(None) == Files(start, o, files, env, i)
      {
        ending := RunFile(o, files[i], env(i));
        if ending.Some? {
          FilesStop(start, o, files, env, i + 1, |files|);
          return;
        }
      }
      return None;
    }

    method RunBatch(o: Options, files: seq<Path>, env: RunEnv) returns (ending: Ending)
      modifies this
      ensures View(Some(ending)) == RunOnce(o, files, env, old(disk), old(log))
    {
      processed, skipped, wouldProcess, succeeded, failed := 0, 0, 0, 0, 0;
      list := Checklist(o.root, o.selector, map[]);
      if files == [] {
        return NoFiles;
      }
      var loaded := Load(disk, env.loads, o.root, o.selector);
      if loaded.Err? {
        return loaded.error;
      }
      list := loaded.value;
      MergeEntries(files);
      var stopped := SaveList(env.mergeSave);
      if stopped.Some? {
        return stopped.value;
      }
      stopped := RunFiles(o, files, env.file);
      if stopped.Some? {
        return stopped.value;
      }
      if o.dryRun {
        return Finished;
      }
      if failed > 0 {
        return WithFailures;
      }
      return Finished;
    }
  }

  lemma {:induction false} FilesStop(run: Run, o: Options, files: seq<Path>, env: nat -> FileEnv, i: nat, n: nat)
    requires i <= n <= |files|
    requires Files(run, o, files, env, i).ending.Some?
    ensures Files(run, o, files, env, n) == Files(run, o, files, env, i)
  {
    if i < n { FilesStop(run, o, files, env, i, n - 1); }
  }
}
