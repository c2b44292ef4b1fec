/** What working on a file leaves in its entry and in the log, and how it ends, read off what the environment did. */
module BatchOutcomes {
  import opened Prelude
  import opened Batch
  import opened BatchRuns

  /** What an entry says once the attempt was dealt with and saved. */
  predicate IsResolved(before: Entry, after: Entry, attempt: Attempt) {
    match attempt
    case Unreadable => HasFailed(before, after, ReadFile)
    case Unparsable => HasFailed(before, after, ParseMessages)
    case Oversized => HasFailed(before, after, TooLong)
    case CrashFirst => false
    case Submit(_, Rejected) => HasFailed(before, after, Refused)
    case Submit(_, Lost) => HasFailed(before, after, Transport)
    case Submit(_, NeverSeen) => false
    case Submit(_, Accepted(conversation)) =>
      after.status == Succeeded && after.lastError == None && after.conversation == conversation
  }

  /** The same, with one more attempt counted. */
  predicate IsOutcome(before: Entry, after: Entry, attempt: Attempt) {
    after.attempts == before.attempts + 1 && IsResolved(before, after, attempt)
  }

  predicate HasFailed(before: Entry, after: Entry, reason: Reason) {
    after.status == Failed && after.lastError == Some(reason) && after.conversation == before.conversation
  }

  /** What the attempt adds to the log. */
  predicate IsLogged(before: seq<Submission>, after: seq<Submission>, path: Path, attempt: Attempt) {
    match attempt
    case Submit(_, Accepted(_)) => after == before + [Submission(path, true)]
    case Submit(taken, _) => after == before + [Submission(path, taken)]
    case _ => after == before
  }

  predicate Fails(save: Save) {
    save.TempFails? || save.RenameFails?
  }

  predicate Dies(save: Save) {
    save.CrashBeforeRename? || save.CrashAfterRename?
  }

  /** How work on a file ends the run, if it does: the first thing that goes wrong decides. */
  function EndOf(fe: FileEnv): Option<Ending> {
    if SaveEnd(fe.firstSave).Some? then SaveEnd(fe.firstSave) else SecondEnd(fe)
  }

  /** How the second half of the work ends the run. */
  function SecondEnd(fe: FileEnv): Option<Ending> {
    if fe.attempt.CrashFirst? || (fe.attempt.Submit? && fe.attempt.reply.NeverSeen?) then Some(Crashed)
    else if Fails(fe.secondSave) then Some(CannotSave)
    else if Dies(fe.secondSave) then Some(Crashed)
    else if fe.attempt.Submit? && fe.attempt.reply.Lost? && fe.cancelledInCall then Some(Cancelled)
    else None
  }

  function SaveEnd(save: Save): Option<Ending> {
    if Fails(save) then Some(CannotSave) else if Dies(save) then Some(Crashed) else None
  }

  predicate SameAttempts(run: Run, after: Run, path: Path) {
    path in run.list.entries && path in after.list.entries
    && after.list.entries[path].attempts == run.list.entries[path].attempts
  }

  lemma FailOutcome(run: Run, path: Path, reason: Reason, save: Save)
    requires path in run.list.entries && run.ending.None?
    ensures var after := Fail(run, path, reason, save);
            && SameAttempts(run, after, path) && after.log == run.log && after.ending == SaveEnd(save)
            && HasFailed(run.list.entries[path], after.list.entries[path], reason)
  {
  }

  lemma SucceedOutcome(run: Run, path: Path, conversation: Option<int>, save: Save)
    requires path in run.list.entries && run.ending.None?
    ensures var after := Succeed(run, path, conversation, save);
            && SameAttempts(run, after, path) && after.log == run.log && after.ending == SaveEnd(save)
            && IsResolved(run.list.entries[path], after.list.entries[path], Submit(true, Accepted(conversation)))
  {
  }

  lemma TryOutcome(run: Run, path: Path, fe: FileEnv)
    requires path in run.list.entries && run.ending.None?
    ensures var after := Try(run, path, fe);
            && SameAttempts(run, after, path) && IsLogged(run.log, after.log, path, fe.attempt) && after.ending == SecondEnd(fe)
            && (after.ending.None? ==> IsResolved(run.list.entries[path], after.list.entries[path], fe.attempt))
  {
    match fe.attempt
    case Unreadable => FailOutcome(run, path, ReadFile, fe.secondSave);
    case Unparsable => FailOutcome(run, path, ParseMessages, fe.secondSave);
    case Oversized => FailOutcome(run, path, TooLong, fe.secondSave);
    case CrashFirst =>
    case Submit(taken, Accepted(conversation)) => SucceedOutcome(Log(run, path, true), path, conversation, fe.secondSave);
    case Submit(taken, Rejected) => FailOutcome(Log(run, path, taken), path, Refused, fe.secondSave);
    case Submit(taken, Lost) => FailOutcome(Log(run, path, taken), path, Transport, fe.secondSave);
    case Submit(taken, NeverSeen) =>
  }

  lemma BeginOutcome(run: Run, path: Path, save: Save)
    requires path in run.list.entries && run.ending.None?
    ensures var begun := Begin(run, path, save);
            && begun.ending == SaveEnd(save) && begun.log == run.log
            && begun.list.entries[path].attempts == run.list.entries[path].attempts + 1
            && begun.list.entries[path].conversation == run.list.entries[path].conversation
  {
  }

  lemma ResolvedFrom(before: Entry, begun: Entry, after: Entry, attempt: Attempt)
    requires begun.conversation == before.conversation && IsResolved(begun, after, attempt)
    ensures IsResolved(before, after, attempt)
  {
  }

  /** A file that is worked on: the run ends as the environment has it, the first thing that goes wrong deciding; when it
      goes on, the entry has one more attempt and says what became of the file; and the log holds a submission exactly
      when one was made. */
  lemma ProcessOutcome(run: Run, path: Path, fe: FileEnv)
    requires path in run.list.entries && run.ending.None?
    ensures var after := Process(run, path, fe);
            && after.ending == EndOf(fe)
            && (after.ending.None? ==> IsOutcome(run.list.entries[path], after.list.entries[path], fe.attempt))
            && (if fe.firstSave == Saved then IsLogged(run.log, after.log, path, fe.attempt) else after.log == run.log)
  {
    BeginOutcome(run, path, fe.firstSave);
    var begun := Begin(run, path, fe.firstSave);
    if begun.ending.None? {
      TryOutcome(begun, path, fe);
      var after := Try(begun, path, fe);
      if after.ending.None? { ResolvedFrom(run.list.entries[path], begun.list.entries[path], after.list.entries[path], fe.attempt); }
    }
  }

  // ---- Over a whole run ----

  predicate Distinct(files: seq<Path>) {
    forall i, j :: 0 <= i < j < |files| ==> files[i] != files[j]
  }

  /** The file is to be worked on. */
  predicate IsDue(entry: Entry, o: Options) {
    match entry.status
    case Succeeded => false
    case Failed => o.retryFailed
    case _ => true
  }

  lemma NextOutcome(run: Run, o: Options, path: Path, fe: FileEnv)
    requires path in run.list.entries && run.ending.None? && !o.dryRun && Next(run, o, path, fe).ending.None?
    ensures var before, after := run.list.entries[path], Next(run, o, path, fe).list.entries;
            path in after && if IsDue(before, o) then IsOutcome(before, after[path], fe.attempt) else after[path] == before
  {
    if IsDue(run.list.entries[path], o) { ProcessOutcome(Take(run, false), path, fe); }
  }

  lemma {:induction false} StillGoing(run: Run, o: Options, files: seq<Path>, env: nat -> FileEnv, i: nat, n: nat)
    requires i <= n <= |files| && Files(run, o, files, env, n).ending.None?
    ensures Files(run, o, files, env, i).ending.None?
  {
    if i < n { StillGoing(run, o, files, env, i, n - 1); }
  }

  lemma {:induction false} OthersSame(run: Run, o: Options, files: seq<Path>, env: nat -> FileEnv, i: nat, n: nat, p: Path)
    requires i <= n <= |files| && p !in files[i..n]
    ensures SameFor(Files(run, o, files, env, i), Files(run, o, files, env, n), p)
  {
    if i < n {
      assert files[i..n] == files[i..n - 1] + [files[n - 1]];
      OthersSame(run, o, files, env, i, n - 1, p);
      NextTouchesOnly(Files(run, o, files, env, n - 1), o, files[n - 1], env(n - 1), p);
    }
  }

  lemma FileOutcome(run: Run, o: Options, files: seq<Path>, env: nat -> FileEnv, i: nat)
    requires i < |files| && Distinct(files) && files[i] in run.list.entries && !o.dryRun
    requires Files(run, o, files, env, |files|).ending.None?
    ensures var p := files[i];
            var before, after := run.list.entries[p], Files(run, o, files, env, |files|).list.entries;
            p in after && if IsDue(before, o) then IsOutcome(before, after[p], env(i).attempt) else after[p] == before
  {
    var p := files[i];
    StillGoing(run, o, files, env, i, |files|);
    StillGoing(run, o, files, env, i + 1, |files|);
    OthersSame(run, o, files, env, 0, i, p);
    OthersSame(run, o, files, env, i + 1, |files|, p);
    NextOutcome(Files(run, o, files, env, i), o, p, env(i));
  }

  /** A run that is not dry and gets to its report leaves on disk, for each of its files: the entry it had, or a new one,
      when there was nothing to do; otherwise one more attempt and what became of the file. */
  lemma RunOutcome(o: Options, files: seq<Path>, env: RunEnv, disk: Option<Checklist>, log: seq<Submission>, i: nat)
    requires i < |files| && Distinct(files) && !o.dryRun && AllSound(Entries(disk), log)
    requires RunOnce(o, files, env, disk, log).ending in {Some(Finished), Some(WithFailures)}
    ensures var p, after := files[i], Entries(RunOnce(o, files, env, disk, log).disk);
            var before := if p in Entries(disk) then Entries(disk)[p] else Entry(Pending, 0, None, None);
            p in after && if IsDue(before, o) then IsOutcome(before, after[p], env.file(i).attempt) else after[p] == before
  {
    var ready := Opened(o, files, env, disk, log);
    OpenedIsSound(o, files, env, disk, log);
    CompletedRun(o, files, env, disk, log);
    ReportedRun(o, files, env, disk, log);
    FilesAreSound(ready, o, files, env.file, |files|);
    FileOutcome(ready, o, files, env.file, i);
  }

  lemma ReportedRun(o: Options, files: seq<Path>, env: RunEnv, disk: Option<Checklist>, log: seq<Submission>)
    requires RunOnce(o, files, env, disk, log).ending in {Some(Finished), Some(WithFailures)}
    ensures var ready := Opened(o, files, env, disk, log);
            && ready.ending.None? && ready.log == log
            && (forall p :: p in files ==>
                  (p in ready.list.entries
                   && ready.list.entries[p] == if p in Entries(disk) then Entries(disk)[p] else Entry(Pending, 0, None, None)))
            && Files(ready, o, files, env.file, |files|).ending.None?
            && RunOnce(o, files, env, disk, log).disk == Files(ready, o, files, env.file, |files|).disk
  {
    var ready := Opened(o, files, env, disk, log);
    if ready.ending.None? { NeverReports(ready, o, files, env.file, |files|); }
  }

  /** Only the report itself says Finished or WithFailures. */
  lemma {:induction false} NeverReports(run: Run, o: Options, files: seq<Path>, env: nat -> FileEnv, n: nat)
    requires n <= |files| && run.ending.None?
    ensures Files(run, o, files, env, n).ending !in {Some(Finished), Some(WithFailures)}
  {
    if n > 0 {
      var before := Files(run, o, files, env, n - 1);
      NeverReports(run, o, files, env, n - 1);
      if before.ending.None? && files[n - 1] in before.list.entries { ProcessOutcome(Take(before, false), files[n - 1], env(n - 1)); }
    }
  }

  // ---- Tallies and owners ----

  /** The tally after an attempt whose end is `ending`. */
  function Counted(tally: Tally, ending: Option<Ending>, attempt: Attempt): Tally {
    if ending !in {None, Some(Cancelled)} then tally
    else if attempt.Submit? && attempt.reply.Accepted? then tally.(succeeded := tally.succeeded + 1)
    else tally.(failed := tally.failed + 1)
  }

  lemma FailTally(run: Run, path: Path, reason: Reason, save: Save)
    requires path in run.list.entries && run.ending.None?
    ensures Fail(run, path, reason, save).tally
         == if SaveEnd(save).Some? then run.tally else run.tally.(failed := run.tally.failed + 1)
  {
  }

  lemma SucceedTally(run: Run, path: Path, conversation: Option<int>, save: Save)
    requires path in run.list.entries && run.ending.None?
    ensures Succeed(run, path, conversation, save).tally
         == if SaveEnd(save).Some? then run.tally else run.tally.(succeeded := run.tally.succeeded + 1)
  {
  }

  lemma TryTally(run: Run, path: Path, fe: FileEnv)
    requires path in run.list.entries && run.ending.None?
    ensures Try(run, path, fe).tally == Counted(run.tally, SecondEnd(fe), fe.attempt)
  {
    match fe.attempt
    case Unreadable => FailTally(run, path, ReadFile, fe.secondSave);
    case Unparsable => FailTally(run, path, ParseMessages, fe.secondSave);
    case Oversized => FailTally(run, path, TooLong, fe.secondSave);
    case CrashFirst =>
    case Submit(taken, Accepted(conversation)) => SucceedTally(Log(run, path, true), path, conversation, fe.secondSave);
    case Submit(taken, Rejected) => FailTally(Log(run, path, taken), path, Refused, fe.secondSave);
    case Submit(taken, Lost) => FailTally(Log(run, path, taken), path, Transport, fe.secondSave);
    case Submit(taken, NeverSeen) =>
  }

  /** A file is counted as succeeded or failed exactly when what became of it was saved. */
  lemma ProcessTally(run: Run, path: Path, fe: FileEnv)
    requires path in run.list.entries && run.ending.None?
    ensures Process(run, path, fe).tally == Counted(run.tally, EndOf(fe), fe.attempt)
  {
    var begun := Begin(run, path, fe.firstSave);
    BeginOutcome(run, path, fe.firstSave);
    assert begun.tally == run.tally;
    if begun.ending.None? { TryTally(begun, path, fe); }
  }

  /** The list is that of this directory and selector, and so is the one on disk, unless nothing was written. */
  predicate IsOwned(run: Run, o: Options, disk: Option<Checklist>) {
    && run.list.root == o.root && run.list.selector == o.selector
    && (run.disk == disk || (run.disk.Some? && run.disk.value.root == o.root && run.disk.value.selector == o.selector))
  }

  lemma StoreKeepsOwner(run: Run, save: Save, o: Options, disk: Option<Checklist>)
    requires IsOwned(run, o, disk)
    ensures IsOwned(Store(run, save), o, disk)
  {
  }

  lemma EntryKeepsOwner(run: Run, path: Path, entry: Entry, save: Save, o: Options, disk: Option<Checklist>)
    requires IsOwned(run, o, disk)
    ensures IsOwned(Store(WithEntry(run, path, entry), save), o, disk)
  {
    StoreKeepsOwner(WithEntry(run, path, entry), save, o, disk);
  }

  lemma FailKeepsOwner(run: Run, path: Path, reason: Reason, save: Save, o: Options, disk: Option<Checklist>)
    requires path in run.list.entries && IsOwned(run, o, disk)
    ensures IsOwned(Fail(run, path, reason, save), o, disk)
  {
    EntryKeepsOwner(run, path, FailedFor(run.list.entries[path], reason), save, o, disk);
  }

  lemma SucceedKeepsOwner(run: Run, path: Path, conversation: Option<int>, save: Save, o: Options, disk: Option<Checklist>)
    requires path in run.list.entries && IsOwned(run, o, disk)
    ensures IsOwned(Succeed(run, path, conversation, save), o, disk)
  {
    EntryKeepsOwner(run, path, run.list.entries[path].(status := Succeeded, lastError := None, conversation := conversation),
                    save, o, disk);
  }

  lemma TryKeepsOwner(run: Run, path: Path, fe: FileEnv, o: Options, disk: Option<Checklist>)
    requires path in run.list.entries && IsOwned(run, o, disk)
    ensures IsOwned(Try(run, path, fe), o, disk)
  {
    match fe.attempt
    case Unreadable => FailKeepsOwner(run, path, ReadFile, fe.secondSave, o, disk);
    case Unparsable => FailKeepsOwner(run, path, ParseMessages, fe.secondSave, o, disk);
    case Oversized => FailKeepsOwner(run, path, TooLong, fe.secondSave, o, disk);
    case CrashFirst =>
    case Submit(taken, Accepted(conversation)) => SucceedKeepsOwner(Log(run, path, true), path, conversation, fe.secondSave, o, disk);
    case Submit(taken, Rejected) => FailKeepsOwner(Log(run, path, taken), path, Refused, fe.secondSave, o, disk);
    case Submit(taken, Lost) => FailKeepsOwner(Log(run, path, taken), path, Transport, fe.secondSave, o, disk);
    case Submit(taken, NeverSeen) =>
  }

  lemma ProcessKeepsOwner(run: Run, path: Path, fe: FileEnv, o: Options, disk: Option<Checklist>)
    requires path in run.list.entries && IsOwned(run, o, disk)
    ensures IsOwned(Process(run, path, fe), o, disk)
  {
    EntryKeepsOwner(run, path, Begun(run.list.entries[path]), fe.firstSave, o, disk);
    TryKeepsOwner(Begin(run, path, fe.firstSave), path, fe, o, disk);
  }

  lemma FileKeepsOwner(run: Run, o: Options, path: Path, fe: FileEnv, disk: Option<Checklist>)
    requires IsOwned(run, o, disk)
    ensures IsOwned(File(run, o, path, fe), o, disk)
  {
    if path in run.list.entries { ProcessKeepsOwner(Take(run, false), path, fe, o, disk); }
  }

  lemma {:induction false} FilesKeepOwner(run: Run, o: Options, files: seq<Path>, env: nat -> FileEnv, n: nat, disk: Option<Checklist>)
    requires n <= |files| && IsOwned(run, o, disk)
    ensures IsOwned(Files(run, o, files, env, n), o, disk)
  {
    if n > 0 {
      FilesKeepOwner(run, o, files, env, n - 1, disk);
      FileKeepsOwner(Files(run, o, files, env, n - 1), o, files[n - 1], env(n - 1), disk);
    }
  }

  /** A run leaves the disk as it was, or with a list of its own directory and selector, whichever way it ends. */
  lemma DiskIsOwned(o: Options, files: seq<Path>, env: RunEnv, disk: Option<Checklist>, log: seq<Submission>)
    ensures var after := RunOnce(o, files, env, disk, log).disk;
            after == disk || (after.Some? && after.value.root == o.root && after.value.selector == o.selector)
  {
    var ready := Opened(o, files, env, disk, log);
    if ready.ending.None? { FilesKeepOwner(ready, o, files, env.file, |files|, disk); }
  }
}
