/** What survives any number of batch runs, each of which may stop or crash at any step. */
module BatchRuns {
  import opened Prelude
  import opened Batch

  function Entries(disk: Option<Checklist>): map<Path, Entry> {
    match disk case None => map[] case Some(list) => list.entries
  }

  function Submissions(log: seq<Submission>, p: Path): nat {
    if log == [] then 0
    else Submissions(log[..|log| - 1], p) + if log[|log| - 1].path == p then 1 else 0
  }

  /** The server took a submission of the file. */
  predicate Taken(log: seq<Submission>, p: Path) {
    exists i :: 0 <= i < |log| && log[i].path == p && log[i].taken
  }

  function Attempts(entries: map<Path, Entry>, p: Path): nat {
    if p in entries then entries[p].attempts else 0
  }

  /** What an entry says hangs together: a pending file was never attempted, a success has no error and a
      failure has one. */
  predicate Coherent(e: Entry) {
    match e.status
    case Pending => e.attempts == 0
    case Succeeded => e.lastError.None? && e.attempts > 0
    case Failed => e.lastError.Some? && e.attempts > 0
    case _ => e.attempts > 0
  }

  /** What a list says about one file is borne out by the log: it was never submitted more often than it was
      attempted, and if it counts as succeeded the server took it. */
  predicate Sound(entries: map<Path, Entry>, log: seq<Submission>, p: Path) {
    && Submissions(log, p) <= Attempts(entries, p)
    && (p in entries && entries[p].status.Succeeded? ==> Taken(log, p))
    && (p in entries ==> Coherent(entries[p]))
  }

  /** Nothing was done to the file: same entry on disk, same submissions. */
  predicate Untouched(before: Run, after: Run, p: Path) {
    && p in Entries(before.disk) && p in Entries(after.disk)
    && Entries(after.disk)[p] == Entries(before.disk)[p]
    && Submissions(after.log, p) == Submissions(before.log, p)
  }

  /** While a run is going, the disk holds the list it works on. */
  predicate InStep(run: Run) {
    run.ending.None? ==> run.disk == Some(run.list)
  }

  lemma SubmissionsOf(log: seq<Submission>, s: Submission, p: Path)
    ensures Submissions(log + [s], p) == Submissions(log, p) + if s.path == p then 1 else 0
    ensures Taken(log, p) ==> Taken(log + [s], p)
    ensures s.taken && s.path == p ==> Taken(log + [s], p)
  {
    assert (log + [s])[..|log|] == log;
    if Taken(log, p) {
      var i :| 0 <= i < |log| && log[i].path == p && log[i].taken;
      assert (log + [s])[i] == log[i];
    }
    assert (log + [s])[|log|] == s;
  }

  // ---- One file ----

  /** Noting a failure leaves the submissions alone and never claims success. */
  lemma FailIsSound(run: Run, path: Path, reason: Reason, save: Save, p: Path)
    requires path in run.list.entries && run.disk == Some(run.list) && run.ending.None?
    requires Sound(run.list.entries, run.log, p)
    requires run.list.entries[path].attempts > 0
    ensures var after := Fail(run, path, reason, save);
            && InStep(after) && Sound(Entries(after.disk), after.log, p) && after.log == run.log
            && (p != path && p in Entries(run.disk) ==> Untouched(run, after, p))
  {
  }

  lemma SucceedIsSound(run: Run, path: Path, conversation: Option<int>, save: Save, p: Path)
    requires path in run.list.entries && run.disk == Some(run.list) && run.ending.None?
    requires Sound(run.list.entries, run.log, p) && Taken(run.log, path)
    requires run.list.entries[path].attempts > 0
    ensures var after := Succeed(run, path, conversation, save);
            && InStep(after) && Sound(Entries(after.disk), after.log, p) && after.log == run.log
            && (p != path && p in Entries(run.disk) ==> Untouched(run, after, p))
  {
  }

  /** A submission needs an attempt that is already on disk and not yet used. */
  lemma LogIsSound(run: Run, path: Path, taken: bool, p: Path)
    requires run.disk == Some(run.list)
    requires Sound(run.list.entries, run.log, p) && Submissions(run.log, path) < Attempts(run.list.entries, path)
    ensures var after := Log(run, path, taken);
            && after.disk == Some(after.list) && after.list == run.list && after.ending == run.ending
            && Sound(after.list.entries, after.log, p)
            && (taken ==> Taken(after.log, path))
            && (p != path && p in Entries(run.disk) ==> Untouched(run, after, p))
  {
    SubmissionsOf(run.log, Submission(path, taken), p);
    SubmissionsOf(run.log, Submission(path, taken), path);
  }

  lemma AnswerIsSound(run: Run, path: Path, taken: bool, reply: Reply, fe: FileEnv, p: Path)
    requires path in run.list.entries && run.disk == Some(run.list) && run.ending.None?
    requires Sound(run.list.entries, run.log, p) && Submissions(run.log, path) < Attempts(run.list.entries, path)
    ensures var after := Answer(run, path, taken, reply, fe);
            && InStep(after) && Sound(Entries(after.disk), after.log, p)
            && (p != path && p in Entries(run.disk) ==> Untouched(run, after, p))
  {
    match reply
    case Accepted(conversation) =>
      LogIsSound(run, path, true, p);
      SucceedIsSound(Log(run, path, true), path, conversation, fe.secondSave, p);
    case Rejected =>
      LogIsSound(run, path, taken, p);
      FailIsSound(Log(run, path, taken), path, Refused, fe.secondSave, p);
    case NeverSeen =>
      LogIsSound(run, path, taken, p);
    case Lost =>
      LogIsSound(run, path, taken, p);
      FailIsSound(Log(run, path, taken), path, Transport, fe.secondSave, p);
  }

  lemma TryIsSound(run: Run, path: Path, fe: FileEnv, p: Path)
    requires path in run.list.entries && run.disk == Some(run.list) && run.ending.None?
    requires Sound(run.list.entries, run.log, p) && Submissions(run.log, path) < Attempts(run.list.entries, path)
    ensures var after := Try(run, path, fe);
            && InStep(after) && Sound(Entries(after.disk), after.log, p)
            && (p != path && p in Entries(run.disk) ==> Untouched(run, after, p))
  {
    match fe.attempt
    case Unreadable => FailIsSound(run, path, ReadFile, fe.secondSave, p);
    case Unparsable => FailIsSound(run, path, ParseMessages, fe.secondSave, p);
    case Oversized => FailIsSound(run, path, TooLong, fe.secondSave, p);
    case CrashFirst =>
    case Submit(taken, reply) => AnswerIsSound(run, path, taken, reply, fe, p);
  }

  lemma BeginIsSound(run: Run, path: Path, save: Save, p: Path)
    requires path in run.list.entries && run.disk == Some(run.list) && run.ending.None?
    requires Sound(run.list.entries, run.log, p) && Sound(run.list.entries, run.log, path)
    ensures var after := Begin(run, path, save);
            && InStep(after) && Sound(Entries(after.disk), after.log, p) && after.log == run.log
            && (after.ending.None? ==> Submissions(after.log, path) < Attempts(after.list.entries, path))
            && (p != path && p in Entries(run.disk) ==> Untouched(run, after, p))
  {
  }

  /** Working on one file keeps the list borne out, and leaves every other file alone. */
  lemma ProcessIsSound(run: Run, path: Path, fe: FileEnv, p: Path)
    requires path in run.list.entries && run.disk == Some(run.list) && run.ending.None?
    requires Sound(run.list.entries, run.log, p) && Sound(run.list.entries, run.log, path)
    ensures var after := Process(run, path, fe);
            && InStep(after) && Sound(Entries(after.disk), after.log, p)
            && (p != path && p in Entries(run.disk) ==> Untouched(run, after, p))
  {
    BeginIsSound(run, path, fe.firstSave, p);
    var begun := Begin(run, path, fe.firstSave);
    if begun.ending.None? { TryIsSound(begun, path, fe, p); }
  }

  ghost predicate AllSound(entries: map<Path, Entry>, log: seq<Submission>) {
    forall p :: Sound(entries, log, p)
  }

  /** The file is not one this run would submit. */
  predicate LeftAlone(entries: map<Path, Entry>, p: Path, o: Options) {
    p in entries && (o.dryRun || !ShouldProcess(entries[p], o.retryFailed))
  }

  lemma NextIsSound(run: Run, o: Options, path: Path, fe: FileEnv, p: Path)
    requires InStep(run) && AllSound(Entries(run.disk), run.log)
    ensures var after := Next(run, o, path, fe);
            && InStep(after) && Sound(Entries(after.disk), after.log, p)
            && (LeftAlone(Entries(run.disk), p, o) ==> Untouched(run, after, p))
  {
    assert Sound(Entries(run.disk), run.log, p) && Sound(Entries(run.disk), run.log, path);
    if run.ending.None? && path in run.list.entries { ProcessIsSound(Take(run, false), path, fe, p); }
  }

  lemma UntouchedTwice(run: Run, before: Run, after: Run, o: Options, p: Path)
    requires LeftAlone(Entries(run.disk), p, o) && Untouched(run, before, p)
    requires LeftAlone(Entries(before.disk), p, o) ==> Untouched(before, after, p)
    ensures Untouched(run, after, p)
  {
  }

  lemma NextAllSound(run: Run, o: Options, path: Path, fe: FileEnv)
    requires InStep(run) && AllSound(Entries(run.disk), run.log)
    ensures var after := Next(run, o, path, fe);
            && InStep(after) && AllSound(Entries(after.disk), after.log)
            && forall p :: LeftAlone(Entries(run.disk), p, o) ==> Untouched(run, after, p)
  {
    forall p ensures var after := Next(run, o, path, fe);
                     && InStep(after) && Sound(Entries(after.disk), after.log, p)
                     && (LeftAlone(Entries(run.disk), p, o) ==> Untouched(run, after, p))
    {
      NextIsSound(run, o, path, fe, p);
    }
  }

  lemma {:induction false} FilesAreSound(run: Run, o: Options, files: seq<Path>, env: nat -> FileEnv, n: nat)
    requires n <= |files| && InStep(run) && AllSound(Entries(run.disk), run.log)
    ensures InStep(Files(run, o, files, env, n))
    ensures AllSound(Entries(Files(run, o, files, env, n).disk), Files(run, o, files, env, n).log)
    ensures forall p :: LeftAlone(Entries(run.disk), p, o) ==> Untouched(run, Files(run, o, files, env, n), p)
  {
    if n > 0 {
      FilesAreSound(run, o, files, env, n - 1);
      var before := Files(run, o, files, env, n - 1);
      var after := Files(run, o, files, env, n);
      NextAllSound(before, o, files[n - 1], env(n - 1));
      forall p | LeftAlone(Entries(run.disk), p, o) ensures Untouched(run, after, p) {
        UntouchedTwice(run, before, after, o, p);
      }
    }
  }

  // ---- One run ----

  /** Where a run starts. */
  function Before(disk: Option<Checklist>, log: seq<Submission>): Run {
    Run(Checklist("", "", map[]), disk, log, ZERO, None)
  }

  lemma MergedIsSound(entries: map<Path, Entry>, files: seq<Path>, log: seq<Submission>)
    requires AllSound(entries, log)
    ensures AllSound(Merged(entries, files), log)
  {
    forall p ensures Sound(Merged(entries, files), log, p) {
      assert Sound(entries, log, p);
    }
  }

  lemma OpenedIsSound(o: Options, files: seq<Path>, env: RunEnv, disk: Option<Checklist>, log: seq<Submission>)
    requires AllSound(Entries(disk), log)
    ensures var ready := Opened(o, files, env, disk, log);
            && InStep(ready) && AllSound(Entries(ready.disk), ready.log) && ready.log == log
            && forall p :: p in Entries(disk) ==> Untouched(Before(disk, log), ready, p)
  {
    MergedIsSound(Entries(disk), files, log);
  }

  /** After any run, whatever failed or crashed in it, every file on the list was submitted at most as often
      as it was attempted, every file marked succeeded was taken by the server, and a file the run had no
      business with is as it was. */
  lemma RunIsSound(o: Options, files: seq<Path>, env: RunEnv, disk: Option<Checklist>, log: seq<Submission>)
    requires AllSound(Entries(disk), log)
    ensures var after := RunOnce(o, files, env, disk, log);
            && AllSound(Entries(after.disk), after.log)
            && forall p :: LeftAlone(Entries(disk), p, o) ==> Untouched(Before(disk, log), after, p)
  {
    OpenedIsSound(o, files, env, disk, log);
    var ready := Opened(o, files, env, disk, log);
    if ready.ending.None? {
      FilesAreSound(ready, o, files, env.file, |files|);
      var after := RunOnce(o, files, env, disk, log);
      forall p | LeftAlone(Entries(disk), p, o) ensures Untouched(Before(disk, log), after, p) {
        assert Untouched(Before(disk, log), ready, p);
        assert LeftAlone(Entries(ready.disk), p, o);
      }
    }
  }

  // ---- Any number of runs ----

  datatype Plan = Plan(o: Options, files: seq<Path>, env: RunEnv)

  datatype World = World(disk: Option<Checklist>, log: seq<Submission>)

  function After(plans: seq<Plan>, n: nat): World
    requires n <= |plans|
  {
    if n == 0 then World(None, []) else
    var w := After(plans, n - 1);
    var run := RunOnce(plans[n - 1].o, plans[n - 1].files, plans[n - 1].env, w.disk, w.log);
    World(run.disk, run.log)
  }

  lemma {:induction false} WorldsAreSound(plans: seq<Plan>, n: nat)
    requires n <= |plans|
    ensures AllSound(Entries(After(plans, n).disk), After(plans, n).log)
  {
    if n > 0 {
      WorldsAreSound(plans, n - 1);
      RunIsSound(plans[n - 1].o, plans[n - 1].files, plans[n - 1].env, After(plans, n - 1).disk, After(plans, n - 1).log);
    }
  }

  /** The file is as it was. */
  predicate SameIn(v: World, w: World, p: Path) {
    && p in Entries(v.disk) && p in Entries(w.disk) && Entries(w.disk)[p] == Entries(v.disk)[p]
    && Submissions(w.log, p) == Submissions(v.log, p)
  }

  lemma PlanLeavesAlone(plan: Plan, w: World, p: Path)
    requires AllSound(Entries(w.disk), w.log) && LeftAlone(Entries(w.disk), p, plan.o)
    ensures var run := RunOnce(plan.o, plan.files, plan.env, w.disk, w.log); SameIn(w, World(run.disk, run.log), p)
  {
    RunIsSound(plan.o, plan.files, plan.env, w.disk, w.log);
    assert Untouched(Before(w.disk, w.log), RunOnce(plan.o, plan.files, plan.env, w.disk, w.log), p);
  }

  lemma {:induction false} StaysLeftAlone(plans: seq<Plan>, m: nat, n: nat, p: Path)
    requires m <= n <= |plans| && p in Entries(After(plans, m).disk)
    requires forall i :: m <= i < n ==> LeftAlone(Entries(After(plans, m).disk), p, plans[i].o)
    ensures SameIn(After(plans, m), After(plans, n), p)
  {
    if m < n {
      StaysLeftAlone(plans, m, n - 1, p);
      WorldsAreSound(plans, n - 1);
      assert LeftAlone(Entries(After(plans, m).disk), p, plans[n - 1].o);
      PlanLeavesAlone(plans[n - 1], After(plans, n - 1), p);
    }
  }

  /** In any sequence of runs, crashes included: a file the disk once marked succeeded was taken by the server
      and is never submitted again. */
  lemma SucceededIsFinal(plans: seq<Plan>, m: nat, n: nat, p: Path)
    requires m <= n <= |plans|
    requires p in Entries(After(plans, m).disk) && Entries(After(plans, m).disk)[p].status.Succeeded?
    ensures Taken(After(plans, m).log, p)
    ensures Submissions(After(plans, n).log, p) == Submissions(After(plans, m).log, p)
    ensures p in Entries(After(plans, n).disk) && Entries(After(plans, n).disk)[p].status.Succeeded?
  {
    WorldsAreSound(plans, m);
    assert Sound(Entries(After(plans, m).disk), After(plans, m).log, p);
    StaysLeftAlone(plans, m, n, p);
  }

  /** A file the disk marks failed is submitted again only by a run that retries failures and is not dry. */
  lemma FailedWaitsForRetry(plans: seq<Plan>, m: nat, n: nat, p: Path)
    requires m <= n <= |plans|
    requires p in Entries(After(plans, m).disk) && Entries(After(plans, m).disk)[p].status.Failed?
    requires Submissions(After(plans, n).log, p) > Submissions(After(plans, m).log, p)
    ensures exists i :: m <= i < n && plans[i].o.retryFailed && !plans[i].o.dryRun
  {
    if forall i :: m <= i < n ==> !(plans[i].o.retryFailed && !plans[i].o.dryRun) {
      StaysLeftAlone(plans, m, n, p);
    }
  }

  /** No file is ever submitted more often than the disk says it was attempted. */
  lemma SubmissionsWithinAttempts(plans: seq<Plan>, p: Path)
    ensures Submissions(After(plans, |plans|).log, p) <= Attempts(Entries(After(plans, |plans|).disk), p)
  {
    WorldsAreSound(plans, |plans|);
    assert Sound(Entries(After(plans, |plans|).disk), After(plans, |plans|).log, p);
  }

  // ---- When a file is submitted ----

  /** Nothing goes wrong, and the server accepts. */
  const GOOD_FILE := FileEnv(false, Saved, Submit(true, Accepted(None)), Saved, false)

  const GOOD_RUN := RunEnv(true, Saved, _ => GOOD_FILE)

  /** The list on disk is for this directory and selector. */
  predicate Accepts(disk: Option<Checklist>, o: Options) {
    Load(disk, true, o.root, o.selector).Ok?
  }

  /** The run would work on the file. */
  predicate Due(entries: map<Path, Entry>, p: Path, o: Options) {
    !o.dryRun && (p in entries ==> ShouldProcess(entries[p], o.retryFailed))
  }

  /** The entry of one file, the entries of the others and the submissions after a file that went well. */
  lemma GoodFile(run: Run, o: Options, path: Path, q: Path)
    requires InStep(run) && run.ending.None? && path in run.list.entries
    ensures var after := Next(run, o, path, GOOD_FILE);
            && InStep(after) && after.ending.None?
            && (q in after.list.entries <==> q in run.list.entries)
            && (q != path && q in run.list.entries ==> after.list.entries[q] == run.list.entries[q])
            && Submissions(after.log, q) == Submissions(run.log, q) + (if q == path && Due(run.list.entries, q, o) then 1 else 0)
  {
    SubmissionsOf(run.log, Submission(path, true), q);
  }

  /** Nothing went wrong from `run` to `after`, in which these files were worked on. */
  ghost predicate WentWell(run: Run, after: Run, worked: seq<Path>, q: Path) {
    && InStep(after) && after.ending.None?
    && (q in after.list.entries <==> q in run.list.entries)
    && (q !in worked && q in run.list.entries ==> after.list.entries[q] == run.list.entries[q])
    && Submissions(after.log, q) >= Submissions(run.log, q)
  }

  lemma GoodNext(run: Run, before: Run, o: Options, path: Path, worked: seq<Path>, q: Path)
    requires WentWell(run, before, worked, q) && path in before.list.entries
    ensures WentWell(run, Next(before, o, path, GOOD_FILE), worked + [path], q)
  {
    GoodFile(before, o, path, q);
  }

  lemma {:induction false} GoodFiles(run: Run, o: Options, files: seq<Path>, n: nat, q: Path)
    requires n <= |files| && InStep(run) && run.ending.None? && forall p :: p in files ==> p in run.list.entries
    ensures WentWell(run, Files(run, o, files, GOOD_RUN.file, n), files[..n], q)
    decreases n
  {
    if n > 0 {
      GoodFiles(run, o, files, n - 1, q);
      GoodFiles(run, o, files, n - 1, files[n - 1]);
      GoodNext(run, Files(run, o, files, GOOD_RUN.file, n - 1), o, files[n - 1], files[..n - 1], q);
      assert files[..n] == files[..n - 1] + [files[n - 1]];
    }
  }

  function FirstIndex(files: seq<Path>, p: Path): (i: nat)
    requires p in files
    ensures i < |files| && files[i] == p && p !in files[..i]
  {
    if files[0] == p then 0
    else
      var i := FirstIndex(files[1..], p);
      assert files[..i + 1] == [files[0]] + files[1..][..i];
      i + 1
  }

  lemma {:induction false} GoodFilesSubmit(run: Run, o: Options, files: seq<Path>, n: nat, p: Path, i: nat)
    requires i < n <= |files| && InStep(run) && run.ending.None? && forall q :: q in files ==> q in run.list.entries
    requires files[i] == p && p !in files[..i] && Due(run.list.entries, p, o)
    ensures Submissions(Files(run, o, files, GOOD_RUN.file, n).log, p) > Submissions(run.log, p)
    decreases n
  {
    var before := Files(run, o, files, GOOD_RUN.file, n - 1);
    GoodFiles(run, o, files, n - 1, p);
    GoodFiles(run, o, files, n - 1, files[n - 1]);
    GoodFile(before, o, files[n - 1], p);
    if i < n - 1 { GoodFilesSubmit(run, o, files, n - 1, p, i); }
  }

  lemma GoodRunSubmits(o: Options, files: seq<Path>, disk: Option<Checklist>, log: seq<Submission>, p: Path)
    requires Accepts(disk, o) && p in files && Due(Entries(disk), p, o)
    ensures Submissions(RunOnce(o, files, GOOD_RUN, disk, log).log, p) > Submissions(log, p)
  {
    var ready := Opened(o, files, GOOD_RUN, disk, log);
    assert ready.ending.None? && InStep(ready) && ready.log == log;
    assert forall q :: q in files ==> q in ready.list.entries;
    GoodFilesSubmit(ready, o, files, |files|, p, FirstIndex(files, p));
  }

  /** A file of an accepted list can be submitted by a run, if all goes well, exactly when the run is not dry
      and the disk shows the file neither succeeded nor failed without a retry; then no run submits it,
      whatever happens. So a file is safe from a second submission only once the disk says so. */
  lemma CanBeSubmittedIff(o: Options, files: seq<Path>, disk: Option<Checklist>, log: seq<Submission>, p: Path)
    requires AllSound(Entries(disk), log) && Accepts(disk, o) && p in files
    ensures (exists env :: Submissions(RunOnce(o, files, env, disk, log).log, p) > Submissions(log, p))
       <==> Due(Entries(disk), p, o)
  {
    if Due(Entries(disk), p, o) {
      GoodRunSubmits(o, files, disk, log, p);
    } else {
      forall env ensures Submissions(RunOnce(o, files, env, disk, log).log, p) == Submissions(log, p) {
        if o.dryRun {
          DryRunsLogNothing(o, files, env, disk, log);
        } else {
          RunIsSound(o, files, env, disk, log);
          assert LeftAlone(Entries(disk), p, o);
        }
      }
    }
  }

  lemma DryRunsLogNothing(o: Options, files: seq<Path>, env: RunEnv, disk: Option<Checklist>, log: seq<Submission>)
    requires o.dryRun
    ensures RunOnce(o, files, env, disk, log).log == log
  {
    var ready := Opened(o, files, env, disk, log);
    if ready.ending.None? { DryRunsSubmitNothing(ready, o, files, env.file, |files|); }
  }

  // ---- At most once, and when not ----

  /** Never submitted, or once and the list says how it went. */
  predicate Once(entries: map<Path, Entry>, log: seq<Submission>, p: Path) {
    || Submissions(log, p) == 0
    || (Submissions(log, p) == 1 && p in entries && (entries[p].status.Succeeded? || entries[p].status.Failed?))
  }

  /** The run was cut off before its list was safe. */
  predicate CutOff(run: Run) {
    run.ending.Some? && (run.ending.value.Crashed? || run.ending.value.CannotSave?)
  }

  lemma FailKeepsOnce(run: Run, path: Path, reason: Reason, save: Save)
    requires path in run.list.entries && run.ending.None? && Submissions(run.log, path) <= 1
    ensures var after := Fail(run, path, reason, save); !CutOff(after) ==> Once(Entries(after.disk), after.log, path)
  {
  }

  lemma SucceedKeepsOnce(run: Run, path: Path, conversation: Option<int>, save: Save)
    requires path in run.list.entries && run.ending.None? && Submissions(run.log, path) <= 1
    ensures var after := Succeed(run, path, conversation, save); !CutOff(after) ==> Once(Entries(after.disk), after.log, path)
  {
  }

  lemma AnswerKeepsOnce(run: Run, path: Path, taken: bool, reply: Reply, fe: FileEnv)
    requires path in run.list.entries && run.ending.None? && Submissions(run.log, path) == 0
    ensures var after := Answer(run, path, taken, reply, fe); !CutOff(after) ==> Once(Entries(after.disk), after.log, path)
  {
    SubmissionsOf(run.log, Submission(path, taken), path);
    match reply
    case Accepted(conversation) =>
      SubmissionsOf(run.log, Submission(path, true), path);
      SucceedKeepsOnce(Log(run, path, true), path, conversation, fe.secondSave);
    case Rejected => FailKeepsOnce(Log(run, path, taken), path, Refused, fe.secondSave);
    case Lost => FailKeepsOnce(Log(run, path, taken), path, Transport, fe.secondSave);
    case NeverSeen =>
  }

  lemma TryKeepsOnce(run: Run, path: Path, fe: FileEnv)
    requires path in run.list.entries && run.ending.None? && Submissions(run.log, path) == 0
    ensures var after := Try(run, path, fe); !CutOff(after) ==> Once(Entries(after.disk), after.log, path)
  {
    match fe.attempt
    case Unreadable => FailKeepsOnce(run, path, ReadFile, fe.secondSave);
    case Unparsable => FailKeepsOnce(run, path, ParseMessages, fe.secondSave);
    case Oversized => FailKeepsOnce(run, path, TooLong, fe.secondSave);
    case CrashFirst =>
    case Submit(taken, reply) => AnswerKeepsOnce(run, path, taken, reply, fe);
  }

  lemma ProcessKeepsOnce(run: Run, path: Path, fe: FileEnv)
    requires path in run.list.entries && run.ending.None? && Submissions(run.log, path) == 0
    ensures var after := Process(run, path, fe); !CutOff(after) ==> Once(Entries(after.disk), after.log, path)
  {
    var begun := Begin(run, path, fe.firstSave);
    if begun.ending.None? { TryKeepsOnce(begun, path, fe); }
  }

  /** The list and the log say the same about the file. */
  predicate SameFor(run: Run, after: Run, q: Path) {
    && (q in after.list.entries <==> q in run.list.entries)
    && (q in run.list.entries ==> after.list.entries[q] == run.list.entries[q])
    && Submissions(after.log, q) == Submissions(run.log, q)
  }

  lemma FailTouchesOnly(run: Run, path: Path, reason: Reason, save: Save, q: Path)
    requires path in run.list.entries && q != path
    ensures SameFor(run, Fail(run, path, reason, save), q)
  {
  }

  lemma SucceedTouchesOnly(run: Run, path: Path, conversation: Option<int>, save: Save, q: Path)
    requires path in run.list.entries && q != path
    ensures SameFor(run, Succeed(run, path, conversation, save), q)
  {
  }

  lemma LogTouchesOnly(run: Run, path: Path, taken: bool, q: Path)
    requires q != path
    ensures SameFor(run, Log(run, path, taken), q)
  {
    SubmissionsOf(run.log, Submission(path, taken), q);
  }

  lemma AnswerTouchesOnly(run: Run, path: Path, taken: bool, reply: Reply, fe: FileEnv, q: Path)
    requires path in run.list.entries && q != path
    ensures SameFor(run, Answer(run, path, taken, reply, fe), q)
  {
    LogTouchesOnly(run, path, taken, q);
    match reply
    case Accepted(conversation) =>
      LogTouchesOnly(run, path, true, q);
      SucceedTouchesOnly(Log(run, path, true), path, conversation, fe.secondSave, q);
    case Rejected => FailTouchesOnly(Log(run, path, taken), path, Refused, fe.secondSave, q);
    case Lost => FailTouchesOnly(Log(run, path, taken), path, Transport, fe.secondSave, q);
    case NeverSeen =>
  }

  lemma TryTouchesOnly(run: Run, path: Path, fe: FileEnv, q: Path)
    requires path in run.list.entries && q != path
    ensures SameFor(run, Try(run, path, fe), q)
  {
    match fe.attempt
    case Unreadable => FailTouchesOnly(run, path, ReadFile, fe.secondSave, q);
    case Unparsable => FailTouchesOnly(run, path, ParseMessages, fe.secondSave, q);
    case Oversized => FailTouchesOnly(run, path, TooLong, fe.secondSave, q);
    case CrashFirst =>
    case Submit(taken, reply) => AnswerTouchesOnly(run, path, taken, reply, fe, q);
  }

  lemma NextTouchesOnly(run: Run, o: Options, path: Path, fe: FileEnv, q: Path)
    requires q != path
    ensures SameFor(run, Next(run, o, path, fe), q)
  {
    if path in run.list.entries {
      var begun := Begin(Take(run, false), path, fe.firstSave);
      assert SameFor(run, begun, q);
      TryTouchesOnly(begun, path, fe, q);
    }
  }

  lemma NextKeepsOthersOnce(run: Run, o: Options, path: Path, fe: FileEnv, p: Path)
    requires InStep(run) && AllSound(Entries(run.disk), run.log) && Once(Entries(run.disk), run.log, p)
    requires p != path || LeftAlone(Entries(run.disk), p, o)
    ensures Once(Entries(Next(run, o, path, fe).disk), Next(run, o, path, fe).log, p)
  {
    assert Sound(Entries(run.disk), run.log, p) && Sound(Entries(run.disk), run.log, path);
    if p in Entries(run.disk) {
      if run.ending.None? && path in run.list.entries { ProcessIsSound(Take(run, false), path, fe, p); }
    } else {
      NextTouchesOnly(run, o, path, fe, p);
    }
  }

  lemma NextKeepsOnce(run: Run, o: Options, path: Path, fe: FileEnv, p: Path)
    requires InStep(run) && AllSound(Entries(run.disk), run.log) && !o.retryFailed
    requires Once(Entries(run.disk), run.log, p)
    ensures !CutOff(Next(run, o, path, fe)) ==>
              Once(Entries(Next(run, o, path, fe).disk), Next(run, o, path, fe).log, p)
  {
    if p != path || LeftAlone(Entries(run.disk), p, o) {
      NextKeepsOthersOnce(run, o, path, fe, p);
    } else if run.ending.None? && p in run.list.entries && !fe.cancelled {
      ProcessKeepsOnce(Take(run, false), path, fe);
    }
  }

  lemma {:induction false} FilesKeepOnce(run: Run, o: Options, files: seq<Path>, env: nat -> FileEnv, n: nat, p: Path)
    requires n <= |files| && InStep(run) && AllSound(Entries(run.disk), run.log) && !o.retryFailed
    requires Once(Entries(run.disk), run.log, p)
    ensures !CutOff(Files(run, o, files, env, n)) ==>
              Once(Entries(Files(run, o, files, env, n).disk), Files(run, o, files, env, n).log, p)
  {
    if n > 0 {
      FilesAreSound(run, o, files, env, n - 1);
      FilesKeepOnce(run, o, files, env, n - 1, p);
      var before := Files(run, o, files, env, n - 1);
      if !CutOff(before) { NextKeepsOnce(before, o, files[n - 1], env(n - 1), p); }
    }
  }

  lemma OpenedKeepsOnce(o: Options, files: seq<Path>, env: RunEnv, disk: Option<Checklist>, log: seq<Submission>, p: Path)
    requires AllSound(Entries(disk), log) && Once(Entries(disk), log, p)
    ensures var ready := Opened(o, files, env, disk, log); Once(Entries(ready.disk), ready.log, p)
  {
    OpenedIsSound(o, files, env, disk, log);
    if p in Entries(disk) { assert Untouched(Before(disk, log), Opened(o, files, env, disk, log), p); }
  }

  lemma RunKeepsOnce(o: Options, files: seq<Path>, env: RunEnv, disk: Option<Checklist>, log: seq<Submission>, p: Path)
    requires AllSound(Entries(disk), log) && Once(Entries(disk), log, p) && !o.retryFailed
    requires !CutOff(RunOnce(o, files, env, disk, log))
    ensures var after := RunOnce(o, files, env, disk, log); Once(Entries(after.disk), after.log, p)
  {
    OpenedIsSound(o, files, env, disk, log);
    OpenedKeepsOnce(o, files, env, disk, log, p);
    var ready := Opened(o, files, env, disk, log);
    if ready.ending.None? { FilesKeepOnce(ready, o, files, env.file, |files|, p); }
  }

  /** The n-th run of a sequence. */
  function RunAt(plans: seq<Plan>, n: nat): Run
    requires n < |plans|
  {
    RunOnce(plans[n].o, plans[n].files, plans[n].env, After(plans, n).disk, After(plans, n).log)
  }

  ghost predicate NeverCutOff(plans: seq<Plan>) {
    forall i :: 0 <= i < |plans| ==> !CutOff(RunAt(plans, i))
  }

  ghost predicate OnceIn(w: World, p: Path) {
    AllSound(Entries(w.disk), w.log) && Once(Entries(w.disk), w.log, p)
  }

  lemma PlanKeepsOnce(plan: Plan, w: World, p: Path)
    requires OnceIn(w, p) && !plan.o.retryFailed && !CutOff(RunOnce(plan.o, plan.files, plan.env, w.disk, w.log))
    ensures var run := RunOnce(plan.o, plan.files, plan.env, w.disk, w.log); OnceIn(World(run.disk, run.log), p)
  {
    RunIsSound(plan.o, plan.files, plan.env, w.disk, w.log);
    RunKeepsOnce(plan.o, plan.files, plan.env, w.disk, w.log, p);
  }

  lemma {:induction false} WorldsKeepOnce(plans: seq<Plan>, n: nat, p: Path)
    requires n <= |plans| && NeverCutOff(plans) && forall i :: 0 <= i < |plans| ==> !plans[i].o.retryFailed
    ensures OnceIn(After(plans, n), p)
  {
    if n > 0 {
      WorldsKeepOnce(plans, n - 1, p);
      assert !CutOff(RunAt(plans, n - 1));
      PlanKeepsOnce(plans[n - 1], After(plans, n - 1), p);
    }
  }

  /** Without retries, and as long as no run crashes or fails to save, every file is submitted at most once. */
  lemma AtMostOnce(plans: seq<Plan>, p: Path)
    requires NeverCutOff(plans) && forall i :: 0 <= i < |plans| ==> !plans[i].o.retryFailed
    ensures Submissions(After(plans, |plans|).log, p) <= 1
  {
    WorldsKeepOnce(plans, |plans|, p);
  }

  const PLAIN := Options("r", "s", false, false)

  /** One file that reaches the server, the save of the outcome going as given. */
  function OneFile(p: Path, reply: Reply, save: Save): Plan {
    Plan(PLAIN, [p], RunEnv(true, Saved, _ => FileEnv(false, Saved, Submit(true, reply), save, false)))
  }

  /** The run dies after the submission, or cannot save what became of it. */
  predicate LosesTrack(reply: Reply, save: Save) {
    reply.NeverSeen? || save.TempFails? || save.RenameFails? || save.CrashBeforeRename?
  }

  lemma LosingTrack(p: Path, reply: Reply, save: Save)
    ensures var plan := OneFile(p, reply, save);
            var run := RunOnce(plan.o, plan.files, plan.env, None, []);
            && run.log == [Submission(p, true)] && Accepts(run.disk, PLAIN)
            && (Due(Entries(run.disk), p, PLAIN) <==> LosesTrack(reply, save))
  {
    var plan := OneFile(p, reply, save);
    var ready := Opened(plan.o, plan.files, plan.env, None, []);
    assert plan.files[0] == p;
    assert ready.ending.None? && p in ready.list.entries && ready.log == [];
    var begun := Begin(Take(ready, false), p, Saved);
    assert begun.ending.None? && begun.disk == Some(begun.list) && begun.log == [];
    assert Files(ready, plan.o, plan.files, plan.env.file, 0) == ready;
    var last := Files(ready, plan.o, plan.files, plan.env.file, 1);
    assert last == Next(ready, plan.o, p, plan.env.file(0));
    assert last == Answer(begun, p, true, reply, plan.env.file(0));
  }

  /** And so the server may take the same file twice: a file it took in a first run can be submitted again by a
      second one without retries if and only if the first lost track of it, by dying or by failing to save what
      became of it, whatever the reply was. */
  lemma LosingTrackRepeatsIff(p: Path, reply: Reply, save: Save)
    ensures var plan := OneFile(p, reply, save);
            var first := RunOnce(plan.o, plan.files, plan.env, None, []);
            && Submissions(first.log, p) == 1
            && ((exists env :: Submissions(RunOnce(PLAIN, [p], env, first.disk, first.log).log, p) > 1) <==> LosesTrack(reply, save))
  {
    var plan := OneFile(p, reply, save);
    var first := RunOnce(plan.o, plan.files, plan.env, None, []);
    LosingTrack(p, reply, save);
    RunIsSound(plan.o, plan.files, plan.env, None, []);
    SubmissionsOf([], Submission(p, true), p);
    assert [] + [Submission(p, true)] == [Submission(p, true)];
    assert p in [p];
    CanBeSubmittedIff(PLAIN, [p], first.disk, first.log, p);
  }

  // ---- The report of a run ----

  /** Every file so far was processed or skipped, and every processed one succeeded or failed. */
  predicate Balanced(t: Tally, n: nat, dryRun: bool) {
    && t.processed + t.skipped == n
    && (dryRun ==> t.wouldProcess == t.processed && t.succeeded == 0 && t.failed == 0)
    && (!dryRun ==> t.wouldProcess == 0 && t.processed == t.succeeded + t.failed)
  }

  /** The file needs no more work from this run: the server has it, or it had failed and is not retried. */
  predicate Settled(entries: map<Path, Entry>, p: Path, o: Options) {
    p in entries && !ShouldProcess(entries[p], o.retryFailed)
  }

  /** One more failure, noted on the list, or one more success. */
  predicate Tallied(run: Run, after: Run, path: Path) {
    && path in after.list.entries
    && match after.list.entries[path].status
       case Succeeded => after.tally == run.tally.(succeeded := run.tally.succeeded + 1)
       case Failed => after.tally == run.tally.(failed := run.tally.failed + 1)
       case _ => false
  }

  lemma FailTallies(run: Run, path: Path, reason: Reason, save: Save)
    requires path in run.list.entries && run.ending.None?
    ensures var after := Fail(run, path, reason, save);
            !Ended(after) && (after.ending.None? ==> Tallied(run, after, path))
  {
  }

  lemma SucceedTallies(run: Run, path: Path, conversation: Option<int>, save: Save)
    requires path in run.list.entries && run.ending.None?
    ensures var after := Succeed(run, path, conversation, save);
            !Ended(after) && (after.ending.None? ==> Tallied(run, after, path))
  {
  }

  /** The run came to its regular end. */
  predicate Ended(run: Run) {
    run.ending.Some? && (run.ending.value.Finished? || run.ending.value.WithFailures?)
  }

  lemma TryTallies(run: Run, path: Path, fe: FileEnv)
    requires path in run.list.entries && run.ending.None?
    ensures var after := Try(run, path, fe);
            !Ended(after) && (after.ending.None? ==> Tallied(run, after, path))
  {
    match fe.attempt
    case Unreadable => FailTallies(run, path, ReadFile, fe.secondSave);
    case Unparsable => FailTallies(run, path, ParseMessages, fe.secondSave);
    case Oversized => FailTallies(run, path, TooLong, fe.secondSave);
    case CrashFirst =>
    case Submit(taken, reply) =>
      match reply
      case Accepted(conversation) => SucceedTallies(Log(run, path, true), path, conversation, fe.secondSave);
      case Rejected => FailTallies(Log(run, path, taken), path, Refused, fe.secondSave);
      case Lost => FailTallies(Log(run, path, taken), path, Transport, fe.secondSave);
      case NeverSeen =>
  }

  lemma NextTallies(run: Run, o: Options, path: Path, fe: FileEnv, n: nat)
    requires InStep(run) && run.ending.None? && Balanced(run.tally, n, o.dryRun)
    ensures var after := Next(run, o, path, fe);
            !Ended(after) && (after.ending.None? ==>
              && Balanced(after.tally, n + 1, o.dryRun)
              && after.tally.failed >= run.tally.failed
              && (!o.dryRun && after.tally.failed == run.tally.failed ==> Settled(after.list.entries, path, o)))
  {
    if path in run.list.entries && !o.dryRun && !fe.cancelled && ShouldProcess(run.list.entries[path], o.retryFailed) {
      var begun := Begin(Take(run, false), path, fe.firstSave);
      if begun.ending.None? { TryTallies(begun, path, fe); }
    }
  }

  lemma {:induction false} FilesTally(run: Run, o: Options, files: seq<Path>, env: nat -> FileEnv, n: nat)
    requires n <= |files| && InStep(run) && run.ending.None? && run.tally == ZERO
    requires AllSound(Entries(run.disk), run.log)
    ensures !Ended(Files(run, o, files, env, n))
    ensures Files(run, o, files, env, n).ending.None? ==> Balanced(Files(run, o, files, env, n).tally, n, o.dryRun)
  {
    if n > 0 {
      FilesTally(run, o, files, env, n - 1);
      FilesAreSound(run, o, files, env, n - 1);
      var before := Files(run, o, files, env, n - 1);
      if before.ending.None? { NextTallies(before, o, files[n - 1], env(n - 1), n - 1); }
    }
  }

  predicate AllSettled(entries: map<Path, Entry>, files: seq<Path>, n: nat, o: Options)
    requires n <= |files|
  {
    forall i :: 0 <= i < n ==> Settled(entries, files[i], o)
  }

  lemma {:induction false} FilesSettle(run: Run, o: Options, files: seq<Path>, env: nat -> FileEnv, n: nat)
    requires n <= |files| && InStep(run) && run.ending.None? && run.tally == ZERO && !o.dryRun
    requires AllSound(Entries(run.disk), run.log)
    requires Files(run, o, files, env, n).ending.None? && Files(run, o, files, env, n).tally.failed == 0
    ensures AllSettled(Files(run, o, files, env, n).list.entries, files, n, o)
  {
    if n > 0 {
      FilesTally(run, o, files, env, n - 1);
      FilesAreSound(run, o, files, env, n - 1);
      var before := Files(run, o, files, env, n - 1);
      NextTallies(before, o, files[n - 1], env(n - 1), n - 1);
      FilesSettle(run, o, files, env, n - 1);
      NextAllSound(before, o, files[n - 1], env(n - 1));
      StaySettled(before, Files(run, o, files, env, n), o, files, n - 1);
    }
  }

  lemma StaySettled(before: Run, after: Run, o: Options, files: seq<Path>, n: nat)
    requires n <= |files| && InStep(before) && InStep(after) && before.ending.None? && after.ending.None?
    requires forall p :: LeftAlone(Entries(before.disk), p, o) ==> Untouched(before, after, p)
    requires AllSettled(before.list.entries, files, n, o)
    ensures AllSettled(after.list.entries, files, n, o)
  {
    forall i | 0 <= i < n ensures Settled(after.list.entries, files[i], o) {
      assert Settled(before.list.entries, files[i], o);
      assert LeftAlone(Entries(before.disk), files[i], o);
    }
  }

  /** A completed run accounts for every file; it reports success exactly when nothing failed in it; and
      when it does, the disk shows every file as succeeded, or as failed and not retried. */
  lemma CompletedRun(o: Options, files: seq<Path>, env: RunEnv, disk: Option<Checklist>, log: seq<Submission>)
    requires AllSound(Entries(disk), log)
    requires RunOnce(o, files, env, disk, log).ending in {Some(Finished), Some(WithFailures)}
    ensures var run := RunOnce(o, files, env, disk, log);
            && Balanced(run.tally, |files|, o.dryRun)
            && (run.ending == Some(Finished) <==> run.tally.failed == 0)
            && (!o.dryRun && run.ending == Some(Finished) ==>
                  forall p :: p in files ==> Settled(Entries(run.disk), p, o))
            && (o.dryRun ==> run.log == log)
  {
    OpenedIsSound(o, files, env, disk, log);
    var ready := Opened(o, files, env, disk, log);
    assert ready.ending.None?;
    assert ready.tally == ZERO;
    FilesTally(ready, o, files, env.file, |files|);
    FilesAreSound(ready, o, files, env.file, |files|);
    var last := Files(ready, o, files, env.file, |files|);
    if !o.dryRun && last.tally.failed == 0 {
      FilesSettle(ready, o, files, env.file, |files|);
      forall p | p in files ensures Settled(Entries(last.disk), p, o) {
        var i :| 0 <= i < |files| && files[i] == p;
        assert Settled(last.list.entries, files[i], o);
      }
    }
    if o.dryRun { DryRunsSubmitNothing(ready, o, files, env.file, |files|); }
  }

  lemma {:induction false} DryRunsSubmitNothing(run: Run, o: Options, files: seq<Path>, env: nat -> FileEnv, n: nat)
    requires n <= |files| && o.dryRun
    ensures Files(run, o, files, env, n).log == run.log && Files(run, o, files, env, n).disk == run.disk
  {
    if n > 0 { DryRunsSubmitNothing(run, o, files, env, n - 1); }
  }

  // ---- Which files a successful run leaves failed ----

  /** While nothing fails, no file becomes failed. */
  lemma NextFailsNothing(run: Run, o: Options, path: Path, fe: FileEnv, n: nat, q: Path)
    requires InStep(run) && run.ending.None? && AllSound(Entries(run.disk), run.log)
    requires Balanced(run.tally, n, o.dryRun) && !o.dryRun
    requires Next(run, o, path, fe).ending.None? && Next(run, o, path, fe).tally.failed == run.tally.failed
    requires q in Next(run, o, path, fe).list.entries && Next(run, o, path, fe).list.entries[q].status.Failed?
    ensures q in run.list.entries && run.list.entries[q].status.Failed?
  {
    var after := Next(run, o, path, fe);
    if path in run.list.entries && ShouldProcess(run.list.entries[path], o.retryFailed) {
      var begun := Begin(Take(run, false), path, fe.firstSave);
      TryTallies(begun, path, fe);
      assert begun.tally.failed == run.tally.failed;
      if q != path { NextTouchesOnly(run, o, path, fe, q); }
    }
  }

  lemma {:induction false} FilesFailNothing(run: Run, o: Options, files: seq<Path>, env: nat -> FileEnv, n: nat, q: Path)
    requires n <= |files| && InStep(run) && run.ending.None? && run.tally == ZERO && !o.dryRun
    requires AllSound(Entries(run.disk), run.log)
    requires Files(run, o, files, env, n).ending.None? && Files(run, o, files, env, n).tally.failed == 0
    requires q in Files(run, o, files, env, n).list.entries && Files(run, o, files, env, n).list.entries[q].status.Failed?
    ensures q in run.list.entries && run.list.entries[q].status.Failed?
  {
    if n > 0 {
      var before := Files(run, o, files, env, n - 1);
      FilesTally(run, o, files, env, n - 1);
      FilesAreSound(run, o, files, env, n - 1);
      NextTallies(before, o, files[n - 1], env(n - 1), n - 1);
      NextFailsNothing(before, o, files[n - 1], env(n - 1), n - 1, q);
      FilesFailNothing(run, o, files, env, n - 1, q);
    }
  }

  lemma ReadyFailed(o: Options, files: seq<Path>, env: RunEnv, disk: Option<Checklist>, log: seq<Submission>, p: Path)
    requires Opened(o, files, env, disk, log).ending.None?
    requires var list := Opened(o, files, env, disk, log).list; p in list.entries && list.entries[p].status.Failed?
    ensures p in Entries(disk) && Entries(disk)[p].status.Failed?
  {
  }

  /** When a run that is not dry reports success, the disk shows a file as failed if and only if it showed it
      so before and the run does not retry; every other file of the run has succeeded. */
  lemma SuccessLeavesFailedIff(o: Options, files: seq<Path>, env: RunEnv, disk: Option<Checklist>, log: seq<Submission>, p: Path)
    requires AllSound(Entries(disk), log) && !o.dryRun && p in files
    requires RunOnce(o, files, env, disk, log).ending == Some(Finished)
    ensures var after := Entries(RunOnce(o, files, env, disk, log).disk);
            && p in after
            && (after[p].status.Failed? <==> p in Entries(disk) && Entries(disk)[p].status.Failed? && !o.retryFailed)
            && (!after[p].status.Failed? ==> after[p].status.Succeeded?)
  {
    CompletedRun(o, files, env, disk, log);
    OpenedIsSound(o, files, env, disk, log);
    var ready := Opened(o, files, env, disk, log);
    var last := Files(ready, o, files, env.file, |files|);
    var after := Entries(RunOnce(o, files, env, disk, log).disk);
    assert Settled(after, p, o);
    FilesAreSound(ready, o, files, env.file, |files|);
    FilesTally(ready, o, files, env.file, |files|);
    if p in Entries(disk) && Entries(disk)[p].status.Failed? && !o.retryFailed { StaysFailed(o, files, env, disk, log, p); }
    if after[p].status.Failed? {
      FilesFailNothing(ready, o, files, env.file, |files|, p);
      ReadyFailed(o, files, env, disk, log, p);
    }
  }

  lemma StaysFailed(o: Options, files: seq<Path>, env: RunEnv, disk: Option<Checklist>, log: seq<Submission>, p: Path)
    requires AllSound(Entries(disk), log) && !o.retryFailed && p in Entries(disk) && Entries(disk)[p].status.Failed?
    ensures var after := Entries(RunOnce(o, files, env, disk, log).disk); p in after && after[p].status.Failed?
  {
    RunIsSound(o, files, env, disk, log);
    assert LeftAlone(Entries(disk), p, o);
    assert Untouched(Before(disk, log), RunOnce(o, files, env, disk, log), p);
  }

  /** Such runs exist: a file that failed stays failed under a run that reports success. */
  lemma SuccessCanLeaveAFailure(p: Path, e: Entry, log: seq<Submission>)
    requires e.status.Failed?
    ensures var disk := Some(Checklist("r", "s", map[p := e]));
            var run := RunOnce(PLAIN, [p], GOOD_RUN, disk, log);
            run.ending == Some(Finished) && run.disk.Some? && run.disk.value.entries == map[p := e] && run.log == log
  {
    var disk := Some(Checklist("r", "s", map[p := e]));
    var ready := Opened(PLAIN, [p], GOOD_RUN, disk, log);
    assert [p][0] == p && p in [p];
    assert ready.list.entries == map[p := e];
    assert Files(ready, PLAIN, [p], GOOD_RUN.file, 0) == ready;
    assert Files(ready, PLAIN, [p], GOOD_RUN.file, 1) == Next(ready, PLAIN, p, GOOD_FILE) == Skip(ready);
  }

  /** The list was made for another directory or another selector. */
  predicate Foreign(list: Checklist, o: Options) {
    (list.root != "" && list.root != o.root) || (list.selector != "" && list.selector != o.selector)
  }

  lemma ForeignListIsRefused(o: Options, files: seq<Path>, env: RunEnv, list: Checklist, log: seq<Submission>)
    requires Foreign(list, o)
    ensures var run := RunOnce(o, files, env, Some(list), log);
            && run.disk == Some(list) && run.log == log
            && run.ending == Some(if files == [] then NoFiles else if !env.loads then CannotLoad
                                  else if list.root != "" && list.root != o.root then RootMismatch else SelectorMismatch)
  {
  }

  /** However many runs for other directories or selectors come along, dry, retrying or failing: the list on disk
      stays as it is and nothing is submitted. */
  lemma {:induction false} ForeignRunsChangeNothing(plans: seq<Plan>, m: nat, n: nat, list: Checklist)
    requires m <= n <= |plans| && After(plans, m).disk == Some(list)
    requires forall i :: m <= i < n ==> Foreign(list, plans[i].o)
    ensures After(plans, n) == After(plans, m)
  {
    if m < n {
      ForeignRunsChangeNothing(plans, m, n - 1, list);
      var plan, w := plans[n - 1], After(plans, n - 1);
      ForeignListIsRefused(plan.o, plan.files, plan.env, list, w.log);
    }
  }
}
