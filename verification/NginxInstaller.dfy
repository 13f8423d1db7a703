/**
 The nginx installer of scripts/install-nginx-config.mjs as a protocol: any number of installers of one target, interleaved
 at each filesystem call and each command. Calls and commands may fail at any point.
 */
module NginxInstaller {
  import opened Wrappers

  /** Permission bits 0644. */
  const PUBLISHED_MODE := 420

  /** The mask 0777, of the nine permission bits, is the remainder by this. */
  const PERMISSIONS := 512

  /**
   What is found at a path, with the mode bits that chmod can set: the nine permission bits, and above them set-user-id,
   set-group-id and sticky. A dangling link does not "exist" for existsSync; any other link or directory is special.
   */
  datatype Entry = Absent | Dangling | Special | Regular(content: string, mode: nat)

  datatype Copy = Copy(content: string, mode: nat)

  /** A transaction directory. */
  datatype Transaction = Transaction(staged: Option<Copy>, backup: Option<Copy>)

  datatype Way = Forward | Untouched | Backward

  datatype Outcome =
    | Installed
    | Busy
    | Failed
    | Restored
    | RollbackIncomplete
    | CleanupFailed

  /** The call an installer is about to make. */
  datatype Pc =
    | TakeLock
    | MakeTransaction
    | LookAtTarget
    | StatTarget
    | CopyBackup
    | CopyCandidate
    | ChmodStaged
    | Promote
    | Command(way: Way, n: nat)
    | RestoreCopy
    | RestoreMode
    | RestoreAbsence
    | CleanBackup(way: Way)
    | CleanStaged(way: Way)
    | RemoveTransaction(way: Way)
    | Unlock(outcome: Outcome)
    | Done(outcome: Outcome)
    | Stuck(outcome: Outcome)

  /** `was` remembers the target as found under the lock. */
  datatype Installer = Installer(candidate: string, pc: Pc, hadPrevious: bool, previousMode: nat, was: Entry)

  /** `expected` is what the ended installers have announced the target to be; None after an incomplete rollback. */
  datatype System = System(
    target: Entry,
    lock: Option<nat>,
    transactions: map<nat, Transaction>,
    installers: map<nat, Installer>,
    expected: Option<Entry>)

  datatype Event =
    | Arrives(who: nat, candidate: string)
    | Acts(who: nat, ok: bool, partial: Option<Copy>)

  predicate Enabled(y: System, e: Event) {
    match e
    case Arrives(who, _) => who !in y.installers
    case Acts(who, _, _) => who in y.installers && !Ended(y.installers[who].pc)
  }

  /** The installer has returned or thrown; Stuck is the one that could not remove the lock. */
  predicate Ended(pc: Pc) {
    pc.Done? || pc.Stuck?
  }

  function Exists(target: Entry): bool {
    target.Special? || target.Regular?
  }

  /** The catch block: cleanup when nothing was promoted, else the rollback. */
  function AfterFailure(hadPrevious: bool, mutated: bool): Pc {
    if !mutated then CleanBackup(Untouched) else if hadPrevious then RestoreCopy else RestoreAbsence
  }

  function Goto(y: System, who: nat, pc: Pc): System
    requires who in y.installers
  {
    y.(installers := y.installers[who := y.installers[who].(pc := pc)])
  }

  function SetTransaction(y: System, who: nat, t: Transaction): System {
    y.(transactions := y.transactions[who := t])
  }

  function TransactionOf(y: System, who: nat): Transaction {
    if who in y.transactions then y.transactions[who] else Transaction(None, None)
  }

  /** What a way of failing leads to. */
  function FailedOn(hadPrevious: bool, way: Way): Pc {
    match way
    case Forward => AfterFailure(hadPrevious, true)
    case Untouched => Unlock(CleanupFailed)
    case Backward => Unlock(RollbackIncomplete)
  }

  function OutcomeOf(way: Way): Outcome {
    match way
    case Forward => Installed
    case Untouched => Failed
    case Backward => Restored
  }

  /** The target after a successful rollback: a dangling link is gone, and only the permission bits have come back. */
  function RolledBack(was: Entry): Entry {
    match was
    case Dangling => Absent
    case Regular(content, mode) => Regular(content, mode % PERMISSIONS)
    case _ => was
  }

  /** What the world may expect of the target once an installer has let go of the lock. */
  function ExpectedAfter(y: System, i: Installer, outcome: Outcome): Option<Entry> {
    match outcome
    case Installed => Some(Regular(i.candidate, PUBLISHED_MODE))
    case Restored => Some(RolledBack(i.was))
    case RollbackIncomplete => None
    case _ => y.expected
  }

  /** One call of one installer. A copy that fails may leave a partial file behind. */
  function Act(y: System, who: nat, ok: bool, partial: Option<Copy>): System
    requires who in y.installers && !Ended(y.installers[who].pc)
  {
    var i := y.installers[who];
    var t := TransactionOf(y, who);
    match i.pc
    case TakeLock =>
      if y.lock.Some? then Goto(y, who, Done(Busy))
      else if !ok then Goto(y, who, Done(Failed))
      else y.(lock := Some(who), installers := y.installers[who := i.(pc := MakeTransaction, was := y.target)])
    case MakeTransaction =>
      if !ok then Goto(y, who, Unlock(Failed)) else Goto(SetTransaction(y, who, Transaction(None, None)), who, LookAtTarget)
    case LookAtTarget =>
      y.(installers := y.installers[who := i.(hadPrevious := Exists(y.target), pc := if Exists(y.target) then StatTarget else CopyCandidate)])
    case StatTarget =>
      if !ok || !y.target.Regular? then Goto(y, who, AfterFailure(i.hadPrevious, false))
      else y.(installers := y.installers[who := i.(previousMode := y.target.mode % PERMISSIONS, pc := CopyBackup)])
    case CopyBackup =>
      if !ok || !y.target.Regular? then Goto(SetTransaction(y, who, t.(backup := partial)), who, AfterFailure(i.hadPrevious, false))
      else Goto(SetTransaction(y, who, t.(backup := Some(Copy(y.target.content, y.target.mode)))), who, CopyCandidate)
    case CopyCandidate =>
      if !ok then Goto(SetTransaction(y, who, t.(staged := partial)), who, AfterFailure(i.hadPrevious, false))
      else Goto(SetTransaction(y, who, t.(staged := Some(Copy(i.candidate, 0)))), who, ChmodStaged)
    case ChmodStaged =>
      if !ok || t.staged.None? then Goto(y, who, AfterFailure(i.hadPrevious, false))
      else Goto(SetTransaction(y, who, t.(staged := Some(t.staged.value.(mode := PUBLISHED_MODE)))), who, Promote)
    case Promote =>
      if !ok || t.staged.None? then Goto(y, who, AfterFailure(i.hadPrevious, false))
      else
        Goto(SetTransaction(y, who, t.(staged := None)), who, Command(Forward, 0)).(
          target := Regular(t.staged.value.content, t.staged.value.mode))
    case Command(way, n) =>
      if !ok then Goto(y, who, FailedOn(i.hadPrevious, way))
      else Goto(y, who, if n < 2 then Command(way, n + 1) else CleanBackup(way))
    case RestoreCopy =>
      if t.backup.None? then Goto(y, who, Unlock(RollbackIncomplete))
      else if !ok then
        Goto(y, who, Unlock(RollbackIncomplete)).(target := if partial.Some? then Regular(partial.value.content, partial.value.mode) else y.target)
      else Goto(y, who, RestoreMode).(target := Regular(t.backup.value.content, if y.target.Regular? then y.target.mode else t.backup.value.mode))
    case RestoreMode =>
      if !ok || !y.target.Regular? then Goto(y, who, Unlock(RollbackIncomplete))
      else Goto(y, who, Command(Backward, 0)).(target := y.target.(mode := i.previousMode))
    case RestoreAbsence =>
      if !ok then Goto(y, who, Unlock(RollbackIncomplete))
      else Goto(y, who, Command(Backward, 0)).(target := if Exists(y.target) then Absent else y.target)
    case CleanBackup(way) =>
      if t.backup.Some? && !ok then Goto(y, who, FailedOn(i.hadPrevious, way))
      else Goto(SetTransaction(y, who, t.(backup := None)), who, CleanStaged(way))
    case CleanStaged(way) =>
      if t.staged.Some? && !ok then Goto(y, who, FailedOn(i.hadPrevious, way))
      else Goto(SetTransaction(y, who, t.(staged := None)), who, RemoveTransaction(way))
    case RemoveTransaction(way) =>
      if !ok then Goto(y, who, FailedOn(i.hadPrevious, way))
      else Goto(y.(transactions := y.transactions - {who}), who, Unlock(OutcomeOf(way)))
    case Unlock(outcome) =>
      if !ok then Goto(y, who, Stuck(outcome))
      else Goto(y, who, Done(outcome)).(lock := None, expected := ExpectedAfter(y, i, outcome))
  }

  function Next(y: System, e: Event): System
    requires Enabled(y, e)
  {
    match e
    case Arrives(who, candidate) =>
      y.(installers := y.installers[who := Installer(candidate, TakeLock, false, PUBLISHED_MODE, Absent)])
    case Acts(who, ok, partial) => Act(y, who, ok, partial)
  }

  // ---------- what holds in every run ----------

  predicate Holding(pc: Pc) {
    !pc.TakeLock? && !pc.Done?
  }

  /** An installer that has the lock was not refused it. */
  predicate Sensible(pc: Pc) {
    && (pc.Unlock? || pc.Stuck? ==> pc.outcome != Busy)
    && (pc.Command? ==> pc.way != Untouched)
  }

  /** Only the holder of the lock is past it. */
  ghost predicate Exclusive(y: System) {
    forall who :: who in y.installers ==>
      Sensible(y.installers[who].pc) && (Holding(y.installers[who].pc) ==> y.lock == Some(who))
  }

  predicate Mutated(pc: Pc) {
    pc.Command? || pc.RestoreCopy? || pc.RestoreMode? || pc.RestoreAbsence?
    || ((pc.CleanBackup? || pc.CleanStaged? || pc.RemoveTransaction?) && pc.way != Untouched)
  }

  predicate Restoring(pc: Pc) {
    (pc.Command? || pc.CleanBackup? || pc.CleanStaged? || pc.RemoveTransaction?) && pc.way == Backward
  }

  /** Where the transaction directory of an installer is. */
  predicate HasTransaction(pc: Pc) {
    match pc
    case TakeLock => false
    case MakeTransaction => false
    case Unlock(outcome) => LeavesTransaction(outcome)
    case Done(outcome) => LeavesTransaction(outcome)
    case Stuck(outcome) => LeavesTransaction(outcome)
    case _ => true
  }

  /** What the holder knows of the target and of its own files. */
  ghost predicate HolderOk(y: System, who: nat, i: Installer) {
    var t := TransactionOf(y, who);
    && (i.pc.Unlock? || i.pc.Stuck? ==> UnlockOk(y, i))
    && (!i.pc.Unlock? && !Ended(i.pc) ==>
          (if Restoring(i.pc) then y.target == RolledBack(i.was)
           else if i.pc.RestoreMode? then i.was.Regular? && y.target == Regular(i.was.content, PUBLISHED_MODE)
           else if Mutated(i.pc) then y.target == Regular(i.candidate, PUBLISHED_MODE)
           else y.target == i.was))
    && (Mutated(i.pc) || i.pc.CopyCandidate? || i.pc.ChmodStaged? || i.pc.Promote? ==> PreviousOk(i))
    && (i.pc.CopyBackup? ==> i.hadPrevious && i.was.Regular? && i.previousMode == i.was.mode % PERMISSIONS)
    && (i.pc.StatTarget? ==> i.hadPrevious && Exists(i.was))
    && (i.pc.LookAtTarget? || i.pc.StatTarget? || i.pc.CopyBackup? ==> t.backup.None?)
    && (i.pc.ChmodStaged? ==> t.staged.Some? && t.staged.value.content == i.candidate)
    && (i.pc.Promote? ==> t.staged == Some(Copy(i.candidate, PUBLISHED_MODE)))
    && (i.pc.RestoreCopy? || i.pc.RestoreMode? ==> i.hadPrevious)
    && (i.pc.RestoreAbsence? ==> !i.hadPrevious)
    && ((Mutated(i.pc) || i.pc.CopyCandidate? || i.pc.ChmodStaged? || i.pc.Promote?) && t.backup.Some? ==>
          i.was.Regular? && t.backup == Some(Copy(i.was.content, i.was.mode)))
  }

  ghost predicate PreviousOk(i: Installer) {
    && i.hadPrevious == Exists(i.was) && !i.was.Special?
    && (i.hadPrevious ==> i.was.Regular? && i.previousMode == i.was.mode % PERMISSIONS)
  }

  ghost predicate UnlockOk(y: System, i: Installer)
    requires i.pc.Unlock? || i.pc.Stuck?
  {
    match i.pc.outcome
    case Installed => y.target == Regular(i.candidate, PUBLISHED_MODE)
    case Restored => y.target == RolledBack(i.was)
    case RollbackIncomplete => true
    case _ => y.target == i.was
  }

  /** Everything announced about the target is true whenever no installer is at work. */
  ghost predicate TargetOk(y: System) {
    match y.lock
    case None => y.expected.Some? ==> y.target == y.expected.value
    case Some(who) =>
      && who in y.installers && Holding(y.installers[who].pc)
      && HolderOk(y, who, y.installers[who])
      && (!Ended(y.installers[who].pc) && y.expected.Some? ==> y.installers[who].was == y.expected.value)
  }

  predicate LeavesTransaction(outcome: Outcome) {
    outcome == RollbackIncomplete || outcome == CleanupFailed
  }

  /** The transaction directory of an installer is there while it is at work, and after that only when it had to be left. */
  predicate TransactionKept(pc: Pc, there: bool) {
    there <==> HasTransaction(pc)
  }

  ghost predicate TransactionsOk(y: System) {
    forall who :: (who in y.transactions ==> who in y.installers)
                  && (who in y.installers ==> TransactionKept(y.installers[who].pc, who in y.transactions))
  }

  ghost predicate InstallOk(y: System) {
    Exclusive(y) && TargetOk(y) && TransactionsOk(y)
  }

  lemma ActExclusive(y: System, who: nat, ok: bool, partial: Option<Copy>)
    requires Exclusive(y) && who in y.installers && !Ended(y.installers[who].pc)
    ensures Exclusive(Act(y, who, ok, partial))
  {
    ActIsLocal(y, who, ok, partial);
    ActLock(y, who, ok, partial);
    hide Act, Holding, Sensible;
  }

  /** The lock is taken when it is free, and given back by its holder only. */
  lemma ActLock(y: System, who: nat, ok: bool, partial: Option<Copy>)
    requires who in y.installers && !Ended(y.installers[who].pc) && Sensible(y.installers[who].pc)
    requires Holding(y.installers[who].pc) ==> y.lock == Some(who)
    ensures var t := Act(y, who, ok, partial);
      && Sensible(t.installers[who].pc) && (Holding(t.installers[who].pc) ==> t.lock == Some(who))
      && (t.lock != y.lock ==> y.lock == None || y.lock == Some(who))
  {
  }

  /** A step touches nothing of another installer. */
  lemma ActIsLocal(y: System, who: nat, ok: bool, partial: Option<Copy>)
    requires who in y.installers && !Ended(y.installers[who].pc)
    ensures var t := Act(y, who, ok, partial);
      && t.installers.Keys == y.installers.Keys
      && (forall o :: o in y.installers && o != who ==> t.installers[o] == y.installers[o])
      && (forall o :: o != who ==> (o in t.transactions <==> o in y.transactions))
      && t.installers[who].candidate == y.installers[who].candidate
  {
    ActOwnFiles(y, who, ok, partial);
    ActOwnState(y, who, ok, partial);
    hide Act;
  }

  lemma ActOwnFiles(y: System, who: nat, ok: bool, partial: Option<Copy>)
    requires who in y.installers && !Ended(y.installers[who].pc)
    ensures var t := Act(y, who, ok, partial);
      t.transactions == y.transactions || t.transactions == y.transactions - {who}
      || (who in t.transactions && t.transactions == y.transactions[who := t.transactions[who]])
  {
  }

  lemma ActOwnState(y: System, who: nat, ok: bool, partial: Option<Copy>)
    requires who in y.installers && !Ended(y.installers[who].pc)
    ensures var t := Act(y, who, ok, partial);
      && who in t.installers && t.installers == y.installers[who := t.installers[who]]
      && t.installers[who].candidate == y.installers[who].candidate
  {
  }

  lemma ActOwnTransaction(y: System, who: nat, ok: bool, partial: Option<Copy>)
    requires who in y.installers && !Ended(y.installers[who].pc) && Sensible(y.installers[who].pc)
    requires TransactionKept(y.installers[who].pc, who in y.transactions)
    ensures var t := Act(y, who, ok, partial); TransactionKept(t.installers[who].pc, who in t.transactions)
  {
  }

  lemma ActTransactions(y: System, who: nat, ok: bool, partial: Option<Copy>)
    requires TransactionsOk(y) && who in y.installers && !Ended(y.installers[who].pc) && Sensible(y.installers[who].pc)
    ensures TransactionsOk(Act(y, who, ok, partial))
  {
    ActIsLocal(y, who, ok, partial);
    ActOwnTransaction(y, who, ok, partial);
    hide Act, TransactionKept;
  }

  ghost predicate Working(y: System, who: nat) {
    who in y.installers && y.lock == Some(who) && Holding(y.installers[who].pc) && !Ended(y.installers[who].pc)
  }

  predicate Cleaning(pc: Pc) {
    pc.CleanBackup? || pc.CleanStaged? || pc.RemoveTransaction?
  }

  /** The holder knows as much after the step as before, and has announced nothing. */
  ghost predicate Carries(y: System, t: System, who: nat) {
    Working(t, who) && HolderOk(t, who, t.installers[who]) && who in y.installers && t.installers[who].was == y.installers[who].was
    && t.expected == y.expected
  }

  predicate Staging(pc: Pc) {
    pc.CopyCandidate? || pc.ChmodStaged? || pc.Promote?
  }

  /** The transaction directory, and a look at the target. */
  lemma ActOpening(y: System, who: nat, ok: bool, partial: Option<Copy>)
    requires Working(y, who) && HolderOk(y, who, y.installers[who])
    requires y.installers[who].pc.MakeTransaction? || y.installers[who].pc.LookAtTarget?
    ensures Carries(y, Act(y, who, ok, partial), who)
  {
  }

  /** The backup of what is there. */
  lemma ActBackup(y: System, who: nat, ok: bool, partial: Option<Copy>)
    requires Working(y, who) && HolderOk(y, who, y.installers[who])
    requires y.installers[who].pc.StatTarget? || y.installers[who].pc.CopyBackup?
    ensures Carries(y, Act(y, who, ok, partial), who)
  {
  }

  /** The steps up to the promotion. */
  lemma ActStaging(y: System, who: nat, ok: bool, partial: Option<Copy>)
    requires Working(y, who) && Sensible(y.installers[who].pc) && HolderOk(y, who, y.installers[who])
    requires Staging(y.installers[who].pc)
    ensures Carries(y, Act(y, who, ok, partial), who)
  {
  }

  /** The commands and the rollback. */
  lemma ActAfter(y: System, who: nat, ok: bool, partial: Option<Copy>)
    requires Working(y, who) && Sensible(y.installers[who].pc) && HolderOk(y, who, y.installers[who])
    requires Mutated(y.installers[who].pc) && !Cleaning(y.installers[who].pc)
    ensures Carries(y, Act(y, who, ok, partial), who)
  {
  }

  /** The removal of the transaction's files, when nothing was promoted. */
  lemma ActCleanUntouched(y: System, who: nat, ok: bool, partial: Option<Copy>)
    requires Working(y, who) && Sensible(y.installers[who].pc) && HolderOk(y, who, y.installers[who])
    requires Cleaning(y.installers[who].pc) && y.installers[who].pc.way == Untouched
    ensures Carries(y, Act(y, who, ok, partial), who)
  {
  }

  /** And otherwise: a failure of the cleanup after a good install starts the rollback. */
  lemma ActCleanMutated(y: System, who: nat, ok: bool, partial: Option<Copy>)
    requires Working(y, who) && Sensible(y.installers[who].pc) && HolderOk(y, who, y.installers[who])
    requires Cleaning(y.installers[who].pc) && y.installers[who].pc.way != Untouched
    ensures Carries(y, Act(y, who, ok, partial), who)
  {
    if y.installers[who].pc.way == Forward {
      ActCleanForward(y, who, ok, partial);
    } else {
      ActCleanBackward(y, who, ok, partial);
    }
    hide *;
  }

  lemma ActCleanForward(y: System, who: nat, ok: bool, partial: Option<Copy>)
    requires Working(y, who) && HolderOk(y, who, y.installers[who])
    requires Cleaning(y.installers[who].pc) && y.installers[who].pc.way == Forward
    ensures Carries(y, Act(y, who, ok, partial), who)
  {
  }

  lemma ActCleanBackward(y: System, who: nat, ok: bool, partial: Option<Copy>)
    requires Working(y, who) && HolderOk(y, who, y.installers[who])
    requires Cleaning(y.installers[who].pc) && y.installers[who].pc.way == Backward
    ensures Carries(y, Act(y, who, ok, partial), who)
  {
  }

  lemma ActUnlock(y: System, who: nat, ok: bool, partial: Option<Copy>)
    requires Working(y, who) && Sensible(y.installers[who].pc) && TargetOk(y) && y.installers[who].pc.Unlock?
    ensures TargetOk(Act(y, who, ok, partial))
  {
  }

  /** The holder's own step. */
  lemma ActHolder(y: System, who: nat, ok: bool, partial: Option<Copy>)
    requires Working(y, who) && Sensible(y.installers[who].pc) && TargetOk(y)
    ensures TargetOk(Act(y, who, ok, partial))
  {
    if y.installers[who].pc.Unlock? {
      ActUnlock(y, who, ok, partial);
    } else {
      if Cleaning(y.installers[who].pc) {
        if y.installers[who].pc.way == Untouched {
          ActCleanUntouched(y, who, ok, partial);
        } else {
          ActCleanMutated(y, who, ok, partial);
        }
      } else if Mutated(y.installers[who].pc) {
        ActAfter(y, who, ok, partial);
      } else if Staging(y.installers[who].pc) {
        ActStaging(y, who, ok, partial);
      } else if y.installers[who].pc.MakeTransaction? || y.installers[who].pc.LookAtTarget? {
        ActOpening(y, who, ok, partial);
      } else {
        ActBackup(y, who, ok, partial);
      }
      hide Act, HolderOk, Mutated, Sensible, Cleaning, Staging;
    }
  }

  lemma ActOther(y: System, who: nat, ok: bool, partial: Option<Copy>)
    requires Exclusive(y) && TargetOk(y) && who in y.installers && y.installers[who].pc.TakeLock?
    ensures TargetOk(Act(y, who, ok, partial))
  {
  }

  lemma InstallStep(y: System, e: Event)
    requires InstallOk(y) && Enabled(y, e)
    ensures InstallOk(Next(y, e))
  {
    hide Act, HolderOk;
    match e
    case Arrives(who, candidate) => ArrivalKeeps(y, who, candidate);
    case Acts(who, ok, partial) =>
      assert Sensible(y.installers[who].pc);
      ActExclusive(y, who, ok, partial);
      ActTransactions(y, who, ok, partial);
      if y.installers[who].pc.TakeLock? {
        ActOther(y, who, ok, partial);
      } else {
        assert Holding(y.installers[who].pc);
        ActHolder(y, who, ok, partial);
      }
  }

  lemma ArrivalKeeps(y: System, who: nat, candidate: string)
    requires InstallOk(y) && who !in y.installers
    ensures InstallOk(Next(y, Arrives(who, candidate)))
  {
  }

  // ---------- whole runs ----------

  ghost predicate Legal(y: System, es: seq<Event>)
    decreases |es|
  {
    es == [] || (Enabled(y, es[0]) && Legal(Next(y, es[0]), es[1..]))
  }

  ghost function Exec(y: System, es: seq<Event>): System
    requires Legal(y, es)
    decreases |es|
  {
    if es == [] then y else Exec(Next(y, es[0]), es[1..])
  }

  function InitialSystem(target: Entry): System {
    System(target, None, map[], map[], Some(target))
  }

  lemma {:induction false} InstallRun(y: System, es: seq<Event>)
    requires Legal(y, es) && InstallOk(y)
    ensures InstallOk(Exec(y, es))
    decreases |es|
  {
    hide InstallOk, Next, Enabled;
    if es != [] {
      InstallStep(y, es[0]);
      InstallRun(Next(y, es[0]), es[1..]);
    }
  }

  /** At most one installer is past the lock. */
  lemma MutualExclusion(target: Entry, es: seq<Event>, a: nat, b: nat)
    requires Legal(InitialSystem(target), es)
    ensures var y := Exec(InitialSystem(target), es);
      a in y.installers && b in y.installers && Holding(y.installers[a].pc) && Holding(y.installers[b].pc) ==> a == b
  {
    InstallRun(InitialSystem(target), es);
    hide Exec, Legal, TargetOk, TransactionsOk;
  }

  /**
   Whenever the lock is free, the target is what the installers have announced: the candidate of the last one that
   returned, or what was there before; unless the last word was an incomplete rollback.
   */
  lemma TargetAsAnnounced(target: Entry, es: seq<Event>)
    requires Legal(InitialSystem(target), es)
    ensures var y := Exec(InitialSystem(target), es);
      y.lock == None && y.expected.Some? ==> y.target == y.expected.value
  {
    InstallRun(InitialSystem(target), es);
    hide Exec, Legal, Exclusive, TransactionsOk, HolderOk;
  }

  /**
   A transaction directory outlives its installer exactly when the rollback was incomplete or the cleanup itself failed,
   whether or not the installer could then remove the lock.
   */
  lemma WhatSurvives(target: Entry, es: seq<Event>, who: nat)
    requires Legal(InitialSystem(target), es)
    requires var y := Exec(InitialSystem(target), es);
      who in y.installers && Ended(y.installers[who].pc)
    ensures var y := Exec(InitialSystem(target), es);
      who in y.transactions <==> LeavesTransaction(y.installers[who].pc.outcome)
  {
    InstallRun(InitialSystem(target), es);
    hide Exec, Legal, Exclusive, TargetOk;
  }

  /** The target is restored by a rollback exactly when it was no dangling link and had none of the bits above the permissions. */
  lemma RolledBackExactly(was: Entry)
    ensures RolledBack(was) == was <==> was != Dangling && (was.Regular? ==> was.mode < PERMISSIONS)
  {
  }

  /**
   Letting go of the lock: a returned install leaves its candidate; a failure before the promotion leaves what was found;
   and a reported restoration is one if and only if what was found is no dangling link and has permission bits only.
   */
  lemma AnnouncedTruly(target: Entry, es: seq<Event>, who: nat)
    requires Legal(InitialSystem(target), es)
    requires var y := Exec(InitialSystem(target), es); who in y.installers && (y.installers[who].pc.Unlock? || y.installers[who].pc.Stuck?)
    ensures var y := Exec(InitialSystem(target), es);
      var i := y.installers[who];
      && (i.pc.outcome == Installed ==> y.target == Regular(i.candidate, PUBLISHED_MODE))
      && (i.pc.outcome == Restored ==>
            (y.target == i.was <==> i.was != Dangling && (i.was.Regular? ==> i.was.mode < PERMISSIONS)))
      && (i.pc.outcome == Failed || i.pc.outcome == CleanupFailed ==> y.target == i.was)
  {
    InstallRun(InitialSystem(target), es);
    var y := Exec(InitialSystem(target), es);
    RolledBackExactly(y.installers[who].was);
    hide Exec, Legal, TransactionsOk, RolledBack;
    assert Holding(y.installers[who].pc);
  }

  // ---------- when an install succeeds, and that every installer ends ----------

  /** The lock is held, what is there is no regular file, or a call that the installer makes on its way is refused. */
  predicate Hinders(y: System, who: nat, ok: bool)
    requires who in y.installers
  {
    var t := TransactionOf(y, who);
    match y.installers[who].pc
    case TakeLock => y.lock.Some? || !ok
    case LookAtTarget => false
    case StatTarget => !ok || !y.target.Regular?
    case CleanBackup(_) => t.backup.Some? && !ok
    case CleanStaged(_) => t.staged.Some? && !ok
    case Unlock(_) => false
    case _ => !ok
  }

  /** Nothing has gone wrong so far. */
  predicate OnTrack(pc: Pc) {
    match pc
    case Command(way, _) => way == Forward
    case CleanBackup(way) => way == Forward
    case CleanStaged(way) => way == Forward
    case RemoveTransaction(way) => way == Forward
    case RestoreCopy => false
    case RestoreMode => false
    case RestoreAbsence => false
    case Unlock(outcome) => outcome == Installed
    case Done(outcome) => outcome == Installed
    case Stuck(outcome) => outcome == Installed
    case _ => true
  }

  ghost predicate WellSoFar(y: System, who: nat) {
    who in y.installers ==> OnTrack(y.installers[who].pc)
  }

  /** Where a call takes the installer that makes it, along the forward way: on to the next call, or off the track. */
  lemma TrackAct(y: System, who: nat, ok: bool, partial: Option<Copy>)
    requires InstallOk(y) && who in y.installers && !Ended(y.installers[who].pc)
    ensures OnTrack(Act(y, who, ok, partial).installers[who].pc) <==> OnTrack(y.installers[who].pc) && !Hinders(y, who, ok)
  {
    HolderKnows(y, who);
    hide InstallOk;
    var pc := y.installers[who].pc;
    if Early(pc) {
      TrackEarly(y, who, ok, partial);
    } else if Middle(pc) {
      TrackMiddle(y, who, ok, partial);
    } else {
      TrackLate(y, who, ok, partial);
    }
    hide *;
  }

  predicate Early(pc: Pc) {
    pc.TakeLock? || pc.MakeTransaction? || pc.LookAtTarget? || pc.StatTarget? || pc.CopyBackup?
  }

  predicate Middle(pc: Pc) {
    pc.CopyCandidate? || pc.ChmodStaged? || pc.Promote? || pc.Command?
  }

  lemma TrackEarly(y: System, who: nat, ok: bool, partial: Option<Copy>)
    requires who in y.installers && Early(y.installers[who].pc) && (y.installers[who].pc.CopyBackup? ==> y.target.Regular?)
    ensures OnTrack(Act(y, who, ok, partial).installers[who].pc) <==> !Hinders(y, who, ok)
  {
  }

  lemma TrackMiddle(y: System, who: nat, ok: bool, partial: Option<Copy>)
    requires who in y.installers && Middle(y.installers[who].pc)
    requires y.installers[who].pc.ChmodStaged? || y.installers[who].pc.Promote? ==> TransactionOf(y, who).staged.Some?
    ensures OnTrack(Act(y, who, ok, partial).installers[who].pc) <==> OnTrack(y.installers[who].pc) && !Hinders(y, who, ok)
  {
  }

  lemma TrackLate(y: System, who: nat, ok: bool, partial: Option<Copy>)
    requires who in y.installers && !Early(y.installers[who].pc) && !Middle(y.installers[who].pc) && !Ended(y.installers[who].pc)
    ensures OnTrack(Act(y, who, ok, partial).installers[who].pc) <==> OnTrack(y.installers[who].pc) && !Hinders(y, who, ok)
  {
    if Cleaning(y.installers[who].pc) {
      TrackCleaning(y, who, ok, partial);
      hide *;
    }
  }

  lemma TrackCleaning(y: System, who: nat, ok: bool, partial: Option<Copy>)
    requires who in y.installers && Cleaning(y.installers[who].pc)
    ensures OnTrack(Act(y, who, ok, partial).installers[who].pc) <==> OnTrack(y.installers[who].pc) && !Hinders(y, who, ok)
  {
  }

  /** What the installer that makes a call knows of the files it needs for it. */
  lemma HolderKnows(y: System, who: nat)
    requires InstallOk(y) && who in y.installers && !Ended(y.installers[who].pc)
    ensures var i := y.installers[who];
      && (i.pc.CopyBackup? ==> y.target.Regular?)
      && (i.pc.ChmodStaged? || i.pc.Promote? ==> TransactionOf(y, who).staged.Some?)
  {
    hide TransactionsOk, UnlockOk, PreviousOk;
    if !y.installers[who].pc.TakeLock? {
      assert Holding(y.installers[who].pc) && y.lock == Some(who);
    }
  }

  lemma TrackStep(y: System, e: Event, who: nat)
    requires InstallOk(y) && Enabled(y, e)
    ensures WellSoFar(Next(y, e), who) <==> WellSoFar(y, who) && !(e.Acts? && e.who == who && Hinders(y, who, e.ok))
  {
    if e.Acts? {
      ActIsLocal(y, e.who, e.ok, e.partial);
      TrackAct(y, e.who, e.ok, e.partial);
    }
    hide InstallOk, Act, OnTrack, Hinders;
  }

  ghost predicate HinderedIn(y: System, es: seq<Event>, who: nat)
    requires Legal(y, es)
    decreases |es|
  {
    es != [] && ((es[0].Acts? && es[0].who == who && Hinders(y, who, es[0].ok)) || HinderedIn(Next(y, es[0]), es[1..], who))
  }

  lemma {:induction false} TrackRun(y: System, es: seq<Event>, who: nat)
    requires Legal(y, es) && InstallOk(y)
    ensures WellSoFar(Exec(y, es), who) <==> WellSoFar(y, who) && !HinderedIn(y, es, who)
    decreases |es|
  {
    hide InstallOk, Next, Enabled, WellSoFar, Hinders;
    if es != [] {
      TrackStep(y, es[0], who);
      InstallStep(y, es[0]);
      TrackRun(Next(y, es[0]), es[1..], who);
    }
  }

  /** An installer that has ended has installed its candidate if and only if it was never hindered. */
  lemma InstalledExactly(target: Entry, es: seq<Event>, who: nat)
    requires Legal(InitialSystem(target), es)
    requires var y := Exec(InitialSystem(target), es); who in y.installers && Ended(y.installers[who].pc)
    ensures Exec(InitialSystem(target), es).installers[who].pc.outcome == Installed <==> !HinderedIn(InitialSystem(target), es, who)
  {
    TrackRun(InitialSystem(target), es, who);
    hide Legal, Exec, HinderedIn;
  }

  /** How many of the three commands the installer has behind it: the configuration check, the reload, the look at the service. */
  function CommandsBehind(pc: Pc): nat {
    match pc
    case Command(_, n) => if n < 3 then n else 2
    case CleanBackup(_) => 3
    case CleanStaged(_) => 3
    case RemoveTransaction(_) => 3
    case Unlock(_) => 3
    case Done(_) => 3
    case Stuck(_) => 3
    case _ => 0
  }

  /** The commands of this installer that succeeded in the run. */
  ghost function CommandsIn(y: System, es: seq<Event>, who: nat): nat
    requires Legal(y, es)
    decreases |es|
  {
    if es == [] then 0
    else (if es[0].Acts? && es[0].who == who && y.installers[who].pc.Command? && es[0].ok then 1 else 0)
         + CommandsIn(Next(y, es[0]), es[1..], who)
  }

  ghost function Behind(y: System, who: nat): nat {
    if who in y.installers then CommandsBehind(y.installers[who].pc) else 0
  }

  lemma CommandStep(y: System, e: Event, who: nat)
    requires InstallOk(y) && Enabled(y, e) && WellSoFar(Next(y, e), who)
    ensures WellSoFar(y, who)
    ensures Behind(Next(y, e), who) == Behind(y, who) + if e.Acts? && e.who == who && y.installers[who].pc.Command? && e.ok then 1 else 0
  {
    TrackStep(y, e, who);
    if e.Acts? {
      ActIsLocal(y, e.who, e.ok, e.partial);
      if e.who == who {
        HolderKnows(y, who);
        hide InstallOk;
        CommandAct(y, who, e.ok, e.partial);
      }
    }
    hide InstallOk, Act, OnTrack, Hinders, CommandsBehind;
  }

  lemma CommandAct(y: System, who: nat, ok: bool, partial: Option<Copy>)
    requires who in y.installers && !Ended(y.installers[who].pc) && OnTrack(y.installers[who].pc)
    requires OnTrack(Act(y, who, ok, partial).installers[who].pc)
    ensures CommandsBehind(Act(y, who, ok, partial).installers[who].pc) ==
              CommandsBehind(y.installers[who].pc) + if y.installers[who].pc.Command? && ok then 1 else 0
  {
    hide Early, Middle;
    if Early(y.installers[who].pc) {
      CommandEarly(y, who, ok, partial);
      hide *;
    } else if !Middle(y.installers[who].pc) {
      CommandLate(y, who, ok, partial);
      hide *;
    }
  }

  lemma CommandEarly(y: System, who: nat, ok: bool, partial: Option<Copy>)
    requires who in y.installers && Early(y.installers[who].pc) && OnTrack(Act(y, who, ok, partial).installers[who].pc)
    ensures CommandsBehind(Act(y, who, ok, partial).installers[who].pc) == CommandsBehind(y.installers[who].pc) == 0
  {
  }

  lemma CommandLate(y: System, who: nat, ok: bool, partial: Option<Copy>)
    requires who in y.installers && !Early(y.installers[who].pc) && !Middle(y.installers[who].pc) && !Ended(y.installers[who].pc)
    requires OnTrack(y.installers[who].pc) && OnTrack(Act(y, who, ok, partial).installers[who].pc)
    ensures CommandsBehind(Act(y, who, ok, partial).installers[who].pc) == CommandsBehind(y.installers[who].pc) == 3
  {
  }

  lemma {:induction false} CommandRun(y: System, es: seq<Event>, who: nat)
    requires Legal(y, es) && InstallOk(y) && WellSoFar(Exec(y, es), who)
    ensures WellSoFar(y, who) && Behind(Exec(y, es), who) == Behind(y, who) + CommandsIn(y, es, who)
    decreases |es|
  {
    hide InstallOk, Next, Enabled, WellSoFar, Behind;
    if es != [] {
      InstallStep(y, es[0]);
      CommandRun(Next(y, es[0]), es[1..], who);
      CommandStep(y, es[0], who);
    }
  }

  /** An installer that has installed its candidate has had all three commands succeed. */
  lemma InstalledMeansChecked(target: Entry, es: seq<Event>, who: nat)
    requires Legal(InitialSystem(target), es)
    requires var y := Exec(InitialSystem(target), es); who in y.installers && Ended(y.installers[who].pc) && y.installers[who].pc.outcome == Installed
    ensures CommandsIn(InitialSystem(target), es, who) == 3
  {
    CommandRun(InitialSystem(target), es, who);
    hide Legal, Exec, CommandsIn;
  }

  /** The calls still to come, at most. */
  function Left(pc: Pc): nat {
    match pc
    case TakeLock => 23
    case MakeTransaction => 22
    case LookAtTarget => 21
    case StatTarget => 20
    case CopyBackup => 19
    case CopyCandidate => 18
    case ChmodStaged => 17
    case Promote => 16
    case Command(way, n) => (if way == Forward then 13 else 5) + if n < 2 then 2 - n else 0
    case CleanBackup(way) => if way == Forward then 12 else 4
    case CleanStaged(way) => if way == Forward then 11 else 3
    case RemoveTransaction(way) => if way == Forward then 10 else 2
    case RestoreCopy => 9
    case RestoreMode => 8
    case RestoreAbsence => 8
    case Unlock(_) => 1
    case Done(_) => 0
    case Stuck(_) => 0
  }

  lemma LessLeft(y: System, who: nat, ok: bool, partial: Option<Copy>)
    requires who in y.installers && !Ended(y.installers[who].pc)
    ensures Left(Act(y, who, ok, partial).installers[who].pc) < Left(y.installers[who].pc)
  {
    hide Early, Middle;
    if Early(y.installers[who].pc) {
      LessEarly(y, who, ok, partial);
    } else if Middle(y.installers[who].pc) {
      LessMiddle(y, who, ok, partial);
    } else {
      LessLate(y, who, ok, partial);
    }
    hide *;
  }

  lemma LessEarly(y: System, who: nat, ok: bool, partial: Option<Copy>)
    requires who in y.installers && Early(y.installers[who].pc)
    ensures Left(Act(y, who, ok, partial).installers[who].pc) < Left(y.installers[who].pc)
  {
  }

  lemma LessMiddle(y: System, who: nat, ok: bool, partial: Option<Copy>)
    requires who in y.installers && Middle(y.installers[who].pc)
    ensures Left(Act(y, who, ok, partial).installers[who].pc) < Left(y.installers[who].pc)
  {
  }

  lemma LessLate(y: System, who: nat, ok: bool, partial: Option<Copy>)
    requires who in y.installers && !Early(y.installers[who].pc) && !Middle(y.installers[who].pc) && !Ended(y.installers[who].pc)
    ensures Left(Act(y, who, ok, partial).installers[who].pc) < Left(y.installers[who].pc)
  {
    if Cleaning(y.installers[who].pc) {
      LessCleaning(y, who, ok, partial);
      hide *;
    }
  }

  lemma LessCleaning(y: System, who: nat, ok: bool, partial: Option<Copy>)
    requires who in y.installers && Cleaning(y.installers[who].pc)
    ensures Left(Act(y, who, ok, partial).installers[who].pc) < Left(y.installers[who].pc)
  {
  }

  /** The calls that this installer makes in a run. */
  function CallsOf(es: seq<Event>, who: nat): nat {
    if es == [] then 0 else (if es[0].Acts? && es[0].who == who then 1 else 0) + CallsOf(es[1..], who)
  }

  lemma {:induction false} CallsBounded(y: System, es: seq<Event>, who: nat)
    requires Legal(y, es) && who in y.installers
    ensures var t := Exec(y, es); who in t.installers && CallsOf(es, who) + Left(t.installers[who].pc) <= Left(y.installers[who].pc)
    decreases |es|
  {
    if es != [] {
      var t := Next(y, es[0]);
      if es[0].Acts? {
        ActIsLocal(y, es[0].who, es[0].ok, es[0].partial);
        if es[0].who == who { LessLeft(y, who, es[0].ok, es[0].partial); }
      }
      hide Act, Left;
      assert who in t.installers;
      CallsBounded(t, es[1..], who);
    }
  }

  /** However its calls are answered and whoever else is at work, an installer has ended after at most 23 calls. */
  lemma EveryInstallerEnds(y: System, es: seq<Event>, who: nat)
    requires Legal(y, es) && who in y.installers && y.installers[who].pc == TakeLock
    ensures CallsOf(es, who) <= 23
    ensures who in Exec(y, es).installers && (CallsOf(es, who) == 23 ==> Ended(Exec(y, es).installers[who].pc))
  {
    CallsBounded(y, es, who);
    hide Legal, Exec, CallsOf;
  }

  // ---------- the code under the lock ----------

  lemma {:induction false} ExecSnoc(y: System, es: seq<Event>, e: Event)
    requires Legal(y, es) && Enabled(Exec(y, es), e)
    ensures Legal(y, es + [e]) && Exec(y, es + [e]) == Next(Exec(y, es), e)
    decreases |es|
  {
    hide Enabled, Next;
    if es == [] {
      assert (es + [e])[1..] == [];
    } else {
      ExecSnoc(Next(y, es[0]), es[1..], e);
      assert (es + [e])[1..] == es[1..] + [e];
    }
  }

  /**
   installNginxConfigLocked: what the installer `who`, which holds the lock, does to the target directory. `machine` is the
   protocol above, driven by the answers that the calls of this code get.
   */
  class TargetDirectory {
    var target: Entry
    var transaction: Option<Transaction>
    ghost const who: nat
    ghost const candidate: string
    ghost const start: System
    ghost var machine: System
    ghost var trace: seq<Event>

    /** The directory as an installer finds it that has just taken the lock. */
    constructor (ghost who: nat, ghost start: System, target: Entry)
      requires who in start.installers && start.installers[who].pc == MakeTransaction && start.target == target
      requires who !in start.transactions && start.installers[who].previousMode == PUBLISHED_MODE
      ensures this.target == target && transaction == None && this.who == who && this.start == start
      ensures candidate == start.installers[who].candidate
      ensures At(MakeTransaction, start.installers[who].hadPrevious, PUBLISHED_MODE) && machine == start && trace == []
    {
      this.target := target;
      transaction := None;
      this.who := who;
      this.start := start;
      candidate := start.installers[who].candidate;
      machine := start;
      trace := [];
    }

    /** The protocol has come, on the answers so far, to this call, with the same target and the same files. */
    ghost predicate At(pc: Pc, hadPrevious: bool, previousMode: nat)
      reads this
    {
      && Legal(start, trace) && Exec(start, trace) == machine
      && who in machine.installers && machine.installers[who].candidate == candidate
      && machine.installers[who].pc == pc && machine.installers[who].hadPrevious == hadPrevious
      && machine.installers[who].previousMode == previousMode
      && machine.target == target
      && (if transaction.Some? then who in machine.transactions && machine.transactions[who] == transaction.value
          else who !in machine.transactions)
    }

    /** The protocol makes the call it is at. */
    ghost method Follow(ok: bool, partial: Option<Copy>)
      requires Legal(start, trace) && Exec(start, trace) == machine
      requires who in machine.installers && !Ended(machine.installers[who].pc)
      modifies this`machine, this`trace
      ensures Legal(start, trace) && Exec(start, trace) == machine
      ensures machine == Act(old(machine), who, ok, partial)
    {
      ExecSnoc(start, trace, Acts(who, ok, partial));
      trace := trace + [Acts(who, ok, partial)];
      machine := Act(machine, who, ok, partial);
    }

    /** One of the three commands. */
    method Execute(way: Way, n: nat, ghost hadPrevious: bool, ghost previousMode: nat) returns (ok: bool)
      requires At(Command(way, n), hadPrevious, previousMode)
      modifies this`machine, this`trace
      ensures At(if !ok then FailedOn(hadPrevious, way) else if n < 2 then Command(way, n + 1) else CleanBackup(way),
                 hadPrevious, previousMode)
    {
      hide Legal, Exec;
      ok := *;
      Follow(ok, None);
    }

    /** The three commands, up to the first that fails. */
    method ValidateAndReload(way: Way, ghost hadPrevious: bool, ghost previousMode: nat) returns (ok: bool)
      requires At(Command(way, 0), hadPrevious, previousMode)
      modifies this`machine, this`trace
      ensures At(if ok then CleanBackup(way) else FailedOn(hadPrevious, way), hadPrevious, previousMode)
    {
      hide Legal, Exec;
      ok := Execute(way, 0, hadPrevious, previousMode);
      if ok {
        ok := Execute(way, 1, hadPrevious, previousMode);
      }
      if ok {
        ok := Execute(way, 2, hadPrevious, previousMode);
      }
    }

    method RemoveBackup(way: Way, ghost hadPrevious: bool, ghost previousMode: nat) returns (ok: bool)
      requires transaction.Some? && At(CleanBackup(way), hadPrevious, previousMode)
      modifies this`transaction, this`machine, this`trace
      ensures transaction.Some? && transaction.value.staged == old(transaction).value.staged
      ensures if ok then transaction.value.backup == None else transaction == old(transaction)
      ensures At(if ok then CleanStaged(way) else FailedOn(hadPrevious, way), hadPrevious, previousMode)
    {
      hide Legal, Exec;
      ok := true;
      if transaction.value.backup.Some? {
        ok := *;
      }
      Follow(ok, None);
      if ok {
        transaction := Some(transaction.value.(backup := None));
      }
    }

    method RemoveStaged(way: Way, ghost hadPrevious: bool, ghost previousMode: nat) returns (ok: bool)
      requires transaction.Some? && At(CleanStaged(way), hadPrevious, previousMode)
      modifies this`transaction, this`machine, this`trace
      ensures transaction.Some? && transaction.value.backup == old(transaction).value.backup
      ensures At(if ok then RemoveTransaction(way) else FailedOn(hadPrevious, way), hadPrevious, previousMode)
    {
      hide Legal, Exec;
      ok := true;
      if transaction.value.staged.Some? {
        ok := *;
      }
      Follow(ok, None);
      if ok {
        transaction := Some(transaction.value.(staged := None));
      }
    }

    /** Removes what is there of backup and staged file, then the directory; any removal may fail. */
    method CleanupTransaction(way: Way, ghost hadPrevious: bool, ghost previousMode: nat) returns (ok: bool)
      requires transaction.Some? && At(CleanBackup(way), hadPrevious, previousMode)
      modifies this`transaction, this`machine, this`trace
      ensures if ok then transaction == None else transaction.Some?
      ensures transaction.Some? && transaction.value.backup.Some? ==> transaction.value.backup == old(transaction).value.backup
      ensures At(if ok then Unlock(OutcomeOf(way)) else FailedOn(hadPrevious, way), hadPrevious, previousMode)
    {
      hide Legal, Exec;
      ok := RemoveBackup(way, hadPrevious, previousMode);
      if !ok {
        return;
      }
      ok := RemoveStaged(way, hadPrevious, previousMode);
      if !ok {
        return;
      }
      ok := *;
      Follow(ok, None);
      if ok {
        transaction := None;
      }
    }

    /** lstat and the copy of the target, when there is one. */
    method BackUp() returns (ok: bool, previousMode: nat)
      requires transaction == Some(Transaction(None, None)) && Exists(target) && At(StatTarget, true, PUBLISHED_MODE)
      modifies this`transaction, this`machine, this`trace
      ensures transaction.Some?
      ensures ok ==> target.Regular? && previousMode == target.mode % PERMISSIONS
      ensures ok ==> transaction == Some(Transaction(None, Some(Copy(target.content, target.mode))))
      ensures At(if ok then CopyCandidate else CleanBackup(Untouched), true, previousMode)
    {
      hide Legal, Exec;
      previousMode := PUBLISHED_MODE;
      ok := *;
      Follow(ok, None);
      if !ok || !target.Regular? {
        return false, previousMode;
      }
      previousMode := target.mode % PERMISSIONS;
      var partial: Option<Copy>;
      ok, partial := *, *;
      Follow(ok, partial);
      transaction := Some(transaction.value.(backup := if ok then Some(Copy(target.content, target.mode)) else partial));
    }

    /** The staged copy and its mode. */
    method StageCandidate(candidatePath: string, ghost hadPrevious: bool, ghost previousMode: nat) returns (ok: bool)
      requires candidatePath == candidate
      requires transaction.Some? && transaction.value.staged == None && At(CopyCandidate, hadPrevious, previousMode)
      modifies this`transaction, this`machine, this`trace
      ensures transaction.Some? && transaction.value.backup == old(transaction).value.backup
      ensures ok ==> transaction.value.staged == Some(Copy(candidate, PUBLISHED_MODE))
      ensures At(if ok then Pc.Promote else CleanBackup(Untouched), hadPrevious, previousMode)
    {
      hide Legal, Exec;
      var partial: Option<Copy>;
      ok, partial := *, *;
      Follow(ok, partial);
      transaction := Some(transaction.value.(staged := if ok then Some(Copy(candidatePath, 0)) else partial));
      if !ok {
        return;
      }
      ok := *;
      Follow(ok, None);
      if ok {
        transaction := Some(transaction.value.(staged := Some(Copy(candidatePath, PUBLISHED_MODE))));
      }
    }

    /** The staged copy, and the rename. */
    method Promote(candidatePath: string, ghost hadPrevious: bool, ghost previousMode: nat) returns (mutated: bool)
      requires candidatePath == candidate
      requires transaction.Some? && transaction.value.staged == None && At(CopyCandidate, hadPrevious, previousMode)
      modifies this`target, this`transaction, this`machine, this`trace
      ensures transaction.Some? && transaction.value.backup == old(transaction).value.backup
      ensures target == if mutated then Regular(candidate, PUBLISHED_MODE) else old(target)
      ensures At(if mutated then Command(Forward, 0) else CleanBackup(Untouched), hadPrevious, previousMode)
    {
      hide Legal, Exec;
      mutated := StageCandidate(candidatePath, hadPrevious, previousMode);
      if !mutated {
        return;
      }
      mutated := *;
      Follow(mutated, None);
      if mutated {
        target := Regular(transaction.value.staged.value.content, transaction.value.staged.value.mode);
        transaction := Some(transaction.value.(staged := None));
      }
    }

    /** Puts back what was there, if the backup still is; a copy that fails may leave anything in the target. */
    method Restore(hadPrevious: bool, previousMode: nat) returns (ok: bool)
      requires transaction.Some? && target.Regular?
      requires At(if hadPrevious then RestoreCopy else RestoreAbsence, hadPrevious, previousMode)
      modifies this`target, this`machine, this`trace
      ensures ok && hadPrevious ==>
                transaction.value.backup.Some? && target == Regular(transaction.value.backup.value.content, previousMode)
      ensures ok && !hadPrevious ==> target == Absent
      ensures At(if ok then Command(Backward, 0) else Unlock(RollbackIncomplete), hadPrevious, previousMode)
    {
      hide Legal, Exec;
      var partial: Option<Copy>;
      ok, partial := *, *;
      Follow(ok, partial);
      if hadPrevious {
        if transaction.value.backup.None? {
          return false;
        }
        if !ok {
          target := if partial.Some? then Regular(partial.value.content, partial.value.mode) else target;
          return;
        }
        target := Regular(transaction.value.backup.value.content, target.mode);
        ok := *;
        Follow(ok, None);
        if ok {
          target := target.(mode := previousMode);
        }
      } else if ok {
        target := Absent;
      }
    }

    /** The try block up to the rename: `made` when there is a transaction directory, `mutated` when the target is replaced. */
    method Stage(candidatePath: string) returns (made: bool, mutated: bool, hadPrevious: bool, previousMode: nat)
      requires transaction.None? && candidatePath == candidate
      requires exists h: bool :: At(MakeTransaction, h, PUBLISHED_MODE)
      modifies this`target, this`transaction, this`machine, this`trace
      ensures transaction.Some? <==> made
      ensures !made ==> !mutated && exists h: bool :: At(Unlock(Failed), h, PUBLISHED_MODE)
      ensures made ==> At(if mutated then Command(Forward, 0) else CleanBackup(Untouched), hadPrevious, previousMode)
      ensures !mutated ==> target == old(target)
      ensures mutated ==>
                && hadPrevious == Exists(old(target)) && !old(target).Special? && target == Regular(candidate, PUBLISHED_MODE)
                && transaction.value.backup == (if hadPrevious then Some(Copy(old(target).content, old(target).mode)) else None)
                && (hadPrevious ==> previousMode == old(target).mode % PERMISSIONS)
    {
      hide Legal, Exec;
      mutated, hadPrevious, previousMode := false, Exists(target), PUBLISHED_MODE;
      made := *;
      Follow(made, None);
      if !made {
        assert At(Unlock(Failed), machine.installers[who].hadPrevious, PUBLISHED_MODE);
        return;
      }
      transaction := Some(Transaction(None, None));
      Follow(true, None);
      var ok := true;
      if hadPrevious {
        ok, previousMode := BackUp();
      }
      if ok {
        mutated := Promote(candidatePath, hadPrevious, previousMode);
      }
    }

    /** The rollback: restore, check and reload once more, clean up. */
    method RollBack(hadPrevious: bool, previousMode: nat) returns (restored: bool, cleaning: bool)
      requires transaction.Some? && target.Regular?
      requires At(if hadPrevious then RestoreCopy else RestoreAbsence, hadPrevious, previousMode)
      modifies this`target, this`transaction, this`machine, this`trace
      ensures transaction.Some? <==> !restored
      ensures !cleaning ==> transaction == old(transaction)
      ensures restored ==> target == if hadPrevious && old(transaction).value.backup.Some?
                                     then Regular(old(transaction).value.backup.value.content, previousMode) else Absent
      ensures restored && hadPrevious ==> old(transaction).value.backup.Some?
      ensures At(Unlock(if restored then Restored else RollbackIncomplete), hadPrevious, previousMode)
    {
      hide Legal, Exec;
      cleaning := false;
      restored := Restore(hadPrevious, previousMode);
      if restored {
        restored := ValidateAndReload(Backward, hadPrevious, previousMode);
      }
      if restored {
        cleaning := true;
        restored := CleanupTransaction(Backward, hadPrevious, previousMode);
      }
    }

    /**
     All five ways out, each the end of the protocol on the same answers. A failed install that says it restored the target
     has rolled it back; the backup of a regular file is lost only when a cleanup was begun.
     */
    method InstallLocked(candidatePath: string) returns (outcome: Outcome, cleaning: bool)
      requires transaction.None? && candidatePath == candidate
      requires exists h: bool :: At(MakeTransaction, h, PUBLISHED_MODE)
      modifies this`target, this`transaction, this`machine, this`trace
      ensures exists h: bool, m: nat :: At(Unlock(outcome), h, m)
      ensures outcome == Installed ==> target == Regular(candidate, PUBLISHED_MODE)
      ensures outcome == Restored ==> target == RolledBack(old(target))
      ensures outcome == Failed || outcome == CleanupFailed ==> target == old(target)
      ensures outcome in {Installed, Restored, Failed, CleanupFailed, RollbackIncomplete}
      ensures transaction.Some? <==> LeavesTransaction(outcome)
      ensures outcome == RollbackIncomplete && old(target).Regular? && !cleaning ==>
                transaction.value.backup == Some(Copy(old(target).content, old(target).mode))
    {
      hide At;
      var made, mutated, hadPrevious, previousMode := Stage(candidatePath);
      cleaning := false;
      if !made {
        return Failed, cleaning;
      }
      if !mutated {
        var removed := CleanupTransaction(Untouched, hadPrevious, previousMode);
        return if removed then Failed else CleanupFailed, true;
      }
      var ok := ValidateAndReload(Forward, hadPrevious, previousMode);
      if ok {
        cleaning := true;
        ok := CleanupTransaction(Forward, hadPrevious, previousMode);
        if ok {
          return Installed, cleaning;
        }
      }
      var restored, again := RollBack(hadPrevious, previousMode);
      return if restored then Restored else RollbackIncomplete, cleaning || again;
    }
  }
}
