/** Runs and cleanups exclude each other: the service's `active` state, the saved cleanup jobs and
    the two locks, in every interleaving. Each critical section is one atomic event. */
module Exclusion {
  import opened Plan

  /** A job at work; one its worker ended, well or not; one found without its worker. */
  datatype Status = Running | Final | Interrupted

  datatype Job = Job(id: string, status: Status)

  datatype Stage = Begun | Working | Closing | Ended

  /** A worker in the background: a run, or a cleanup that owns a job saved under `key`. */
  datatype Work = Run | Cleanup(job: string, key: string)

  datatype Task = Task(work: Work, stage: Stage)

  /** `reading` is what the status query has read while it holds the job lock. */
  datatype State = State(active: string, cleaning: string, tasks: seq<Task>, files: map<string, Job>,
    reading: Option<(string, Job)>)

  datatype Event =
    | StartRun
    | OnStart(i: nat, id: string)
    | FinishRun(i: nat)
    | BeginCleanup(job: string, key: string)
    | SaveFirst(i: nat, ok: bool)
    | SaveProgress(i: nat)
    | SaveLast(i: nat, ok: bool)
    | EndCleanup(i: nat)
    | StatusRead(key: string)
    | StatusDecide(ok: bool)
    | Restart

  const STARTING := "starting"
  const CLEANING := "cleaning"

  predicate IsRun(s: State, i: nat, stages: set<Stage>) {
    i < |s.tasks| && s.tasks[i].work.Run? && s.tasks[i].stage in stages
  }

  predicate IsCleanup(s: State, i: nat, stage: Stage) {
    i < |s.tasks| && s.tasks[i].work.Cleanup? && s.tasks[i].stage == stage
  }

  predicate NeedsJobLock(e: Event) { e.SaveFirst? || e.SaveProgress? || e.SaveLast? || e.StatusRead? }

  /** When the event can happen at all; starting is always possible, if only to be refused. */
  predicate Enabled(s: State, e: Event) {
    && (NeedsJobLock(e) ==> s.reading.None?)
    && match e
       case OnStart(i, id) => IsRun(s, i, {Begun}) && id != ""
       case FinishRun(i) => IsRun(s, i, {Begun, Working})
       case SaveFirst(i, _) => IsCleanup(s, i, Begun)
       case SaveProgress(i) => IsCleanup(s, i, Working)
       case SaveLast(i, _) => IsCleanup(s, i, Working)
       case EndCleanup(i) => IsCleanup(s, i, Closing)
       case StatusDecide(_) => s.reading.Some?
       case _ => true
  }

  function Moved(s: State, i: nat, stage: Stage): State
    requires i < |s.tasks|
  {
    s.(tasks := s.tasks[i := s.tasks[i].(stage := stage)])
  }

  function Save(s: State, i: nat, status: Status): State
    requires i < |s.tasks| && s.tasks[i].work.Cleanup?
  {
    s.(files := s.files[s.tasks[i].work.key := Job(s.tasks[i].work.job, status)])
  }

  /** The status query calls a running job interrupted when no live worker is cleaning it. */
  predicate Orphaned(s: State, j: Job) { j.status == Running && s.cleaning != j.id }

  function Step(s: State, e: Event): State
    requires Enabled(s, e)
  {
    match e
    case StartRun => if s.active != "" then s else s.(active := STARTING, tasks := s.tasks + [Task(Run, Begun)])
    case OnStart(i, id) => Moved(s, i, Working).(active := id)
    case FinishRun(i) => Moved(s, i, Ended).(active := "")
    case BeginCleanup(job, key) =>
      if s.active != "" then s
      else s.(active := CLEANING, cleaning := job, tasks := s.tasks + [Task(Cleanup(job, key), Begun)])
    case SaveFirst(i, ok) => if ok then Moved(Save(s, i, Running), i, Working) else Moved(s, i, Closing)
    case SaveProgress(i) => Save(s, i, Running)
    case SaveLast(i, ok) => Moved(if ok then Save(s, i, Final) else s, i, Closing)
    case EndCleanup(i) => Moved(s, i, Ended).(active := "", cleaning := "")
    case StatusRead(key) => if key in s.files then s.(reading := Some((key, s.files[key]))) else s
    case StatusDecide(ok) =>
      var (key, j) := s.reading.value;
      var t := s.(reading := None);
      if Orphaned(s, j) && ok then t.(files := t.files[key := j.(status := Interrupted)]) else t
    case Restart =>
      var ended := seq(|s.tasks|, i requires 0 <= i < |s.tasks| => s.tasks[i].(stage := Ended));
      s.(active := "", cleaning := "", tasks := ended, reading := None)
  }

  function INITIAL(files: map<string, Job>): State { State("", "", [], files, None) }

  // ---------------------------------------------------------------- what every state keeps

  predicate Live(t: Task) { t.stage != Ended }

  /** At most one worker is in flight, and the fields say which. */
  predicate Exclusive(s: State) { OneWorker(s.active, s.cleaning, s.tasks) }

  predicate OneWorker(active: string, cleaning: string, tasks: seq<Task>) {
    && (forall i, j | 0 <= i < |tasks| && 0 <= j < |tasks| && Live(tasks[i]) && Live(tasks[j]) :: i == j)
    && (active == "" <==> forall i | 0 <= i < |tasks| :: !Live(tasks[i]))
    && (forall i | 0 <= i < |tasks| && Live(tasks[i]) && tasks[i].work.Cleanup? ::
          active == CLEANING && cleaning == tasks[i].work.job)
    && (forall i | 0 <= i < |tasks| && Live(tasks[i]) && tasks[i].work.Run? :: tasks[i].stage in {Begun, Working})
    && ((forall i | 0 <= i < |tasks| && Live(tasks[i]) :: tasks[i].work.Run?) ==> cleaning == "")
  }

  /** The saved job of a working cleanup says so, and what the status query holds is current. */
  predicate Recorded(s: State) {
    && (forall i | 0 <= i < |s.tasks| && IsCleanup(s, i, Working) ::
          s.tasks[i].work.key in s.files && s.files[s.tasks[i].work.key] == Job(s.tasks[i].work.job, Running))
    && (s.reading.Some? ==> s.reading.value.0 in s.files && s.files[s.reading.value.0] == s.reading.value.1)
  }

  predicate Coherent(s: State) { Exclusive(s) && Recorded(s) }

  lemma BeginExclusive(s: State, work: Work, active: string, cleaning: string)
    requires Exclusive(s) && s.active == "" && active != ""
    requires if work.Run? then cleaning == s.cleaning else active == CLEANING && cleaning == work.job
    ensures OneWorker(active, cleaning, s.tasks + [Task(work, Begun)])
  {
    var tasks := s.tasks + [Task(work, Begun)];
    assert Live(tasks[|s.tasks|]) && tasks[|s.tasks|].work == work;
    assert forall i | 0 <= i < |s.tasks| :: tasks[i] == s.tasks[i] && !Live(s.tasks[i]);
  }

  lemma MoveExclusive(s: State, i: nat, stage: Stage, active: string)
    requires Exclusive(s) && i < |s.tasks| && Live(s.tasks[i]) && stage != Ended
    requires if s.tasks[i].work.Run? then stage == Working && active != "" else active == s.active
    ensures OneWorker(active, s.cleaning, Moved(s, i, stage).tasks)
  {
    var tasks := Moved(s, i, stage).tasks;
    assert Live(tasks[i]) && tasks[i].work == s.tasks[i].work;
    assert forall j | 0 <= j < |s.tasks| && j != i :: tasks[j] == s.tasks[j] && !Live(s.tasks[j]);
  }

  lemma EndExclusive(s: State, i: nat)
    requires Exclusive(s) && i < |s.tasks| && Live(s.tasks[i])
    ensures OneWorker("", if s.tasks[i].work.Run? then s.cleaning else "", Moved(s, i, Ended).tasks)
  {
    var tasks := Moved(s, i, Ended).tasks;
    assert forall j | 0 <= j < |s.tasks| :: !Live(tasks[j]);
    assert s.tasks[i].work.Run? ==> forall j | 0 <= j < |s.tasks| && Live(s.tasks[j]) :: s.tasks[j].work.Run?;
  }

  lemma StepExclusive(s: State, e: Event)
    requires Exclusive(s) && Enabled(s, e)
    ensures Exclusive(Step(s, e))
  {
    if e.Restart? {
    } else {
      hide OneWorker;
      match e
      case StartRun => if s.active == "" { BeginExclusive(s, Run, STARTING, s.cleaning); }
      case BeginCleanup(job, key) => if s.active == "" { BeginExclusive(s, Cleanup(job, key), CLEANING, job); }
      case OnStart(i, id) => MoveExclusive(s, i, Working, id);
      case SaveFirst(i, ok) => MoveExclusive(s, i, if ok then Working else Closing, s.active);
      case SaveLast(i, ok) => MoveExclusive(s, i, Closing, s.active);
      case FinishRun(i) => EndExclusive(s, i);
      case EndCleanup(i) => EndExclusive(s, i);
      case _ =>
    }
  }

  lemma StepRecorded(s: State, e: Event)
    requires Coherent(s) && Enabled(s, e)
    ensures Recorded(Step(s, e))
  {
    match e
    case SaveFirst(i, _) => assert Live(s.tasks[i]);
    case SaveProgress(i) => assert Live(s.tasks[i]);
    case SaveLast(i, _) => assert Live(s.tasks[i]);
    case _ =>
  }

  lemma StepKeeps(s: State, e: Event)
    requires Coherent(s) && Enabled(s, e)
    ensures Coherent(Step(s, e))
  {
    StepExclusive(s, e);
    StepRecorded(s, e);
  }

  ghost predicate Happens(s: State, events: seq<Event>, t: State)
    decreases |events|
  {
    if events == [] then t == s else Enabled(s, events[0]) && Happens(Step(s, events[0]), events[1..], t)
  }

  lemma {:induction false} HappensKeeps(s: State, events: seq<Event>, t: State)
    requires Coherent(s) && Happens(s, events, t)
    ensures Coherent(t)
    decreases |events|
  {
    hide Coherent, Step, Enabled;
    if events != [] {
      StepKeeps(s, events[0]);
      HappensKeeps(Step(s, events[0]), events[1..], t);
    }
  }

  /** In every interleaving: at most one run or cleanup is in flight, and nothing new starts beside it. */
  lemma OneAtATime(files: map<string, Job>, events: seq<Event>, s: State)
    requires Happens(INITIAL(files), events, s)
    ensures forall i, j | 0 <= i < |s.tasks| && 0 <= j < |s.tasks| && Live(s.tasks[i]) && Live(s.tasks[j]) :: i == j
    ensures Step(s, StartRun) == s <==> exists i :: 0 <= i < |s.tasks| && Live(s.tasks[i])
    ensures forall job, key ::
              Step(s, BeginCleanup(job, key)) == s <==> exists i :: 0 <= i < |s.tasks| && Live(s.tasks[i])
  {
    HappensKeeps(INITIAL(files), events, s);
  }

  /** A live worker owns the job. */
  predicate Owned(s: State, id: string) {
    exists i :: 0 <= i < |s.tasks| && Live(s.tasks[i]) && s.tasks[i].work.Cleanup? && s.tasks[i].work.job == id
  }

  /** In every interleaving: what the status query has read is still what is saved, and it changes
      that exactly from running to interrupted, exactly when no live worker owns the job. */
  lemma OnlyOrphansAreInterrupted(files: map<string, Job>, events: seq<Event>, s: State)
    requires Happens(INITIAL(files), events, s) && s.reading.Some?
    ensures
      var (key, j) := s.reading.value;
      var t := Step(s, StatusDecide(true));
      && key in s.files && s.files[key] == j
      && (t.files == if j.status == Running && s.cleaning != j.id then s.files[key := Job(j.id, Interrupted)]
           else s.files)
      && (j.id != "" ==> (s.cleaning != j.id <==> !Owned(s, j.id)))
  {
    HappensKeeps(INITIAL(files), events, s);
    var id := s.reading.value.1.id;
    if s.cleaning == id && id != "" {
      var i :| 0 <= i < |s.tasks| && Live(s.tasks[i]) && !s.tasks[i].work.Run?;
      assert Owned(s, id);
    }
  }

  /** A cleanup at work is never called interrupted. */
  lemma WorkingCleanupsStayRunning(files: map<string, Job>, events: seq<Event>, s: State, i: nat)
    requires Happens(INITIAL(files), events, s) && IsCleanup(s, i, Working)
    ensures s.tasks[i].work.key in s.files && s.files[s.tasks[i].work.key] == Job(s.tasks[i].work.job, Running)
    ensures s.active == CLEANING && s.cleaning == s.tasks[i].work.job
  {
    HappensKeeps(INITIAL(files), events, s);
  }

  /** A cleanup at work can always come to its end, and frees the service. Its saved job is then final, or still
      says running if the last save failed. */
  lemma EndedCleanupsAreFinal(s: State, i: nat, ok: bool)
    requires Coherent(s) && IsCleanup(s, i, Working) && s.reading.None?
    ensures
      var key, job := s.tasks[i].work.key, s.tasks[i].work.job;
      && Enabled(s, SaveLast(i, ok))
      && var t := Step(s, SaveLast(i, ok));
         && Enabled(t, EndCleanup(i))
         && var u := Step(t, EndCleanup(i));
            && u.active == "" && u.cleaning == "" && u.reading.None?
            && u.tasks == s.tasks[i := Task(s.tasks[i].work, Ended)]
            && u.files == s.files[key := Job(job, if ok then Final else Running)]
  {
    hide OneWorker;
    if !ok { assert s.files == s.files[s.tasks[i].work.key := Job(s.tasks[i].work.job, Running)]; }
  }

  /** Such a job without a worker is called interrupted by the next status query, any other stays as it is. */
  lemma NextQueryFindsIt(s: State, key: string)
    requires s.reading.None? && key in s.files && s.cleaning == "" && s.files[key].id != ""
    ensures
      && Enabled(s, StatusRead(key))
      && var t := Step(s, StatusRead(key));
         && Enabled(t, StatusDecide(true))
         && Step(t, StatusDecide(true)).files
            == s.files[key := Job(s.files[key].id, if s.files[key].status == Running then Interrupted
                                                   else s.files[key].status)]
  {
    assert s.files == s.files[key := s.files[key]];
  }

  // ---------------------------------------------------------------- the program's object

  class Service {
    var active: string
    var cleaning: string
    var tasks: seq<Task>
    var files: map<string, Job>
    var reading: Option<(string, Job)>

    constructor (files: map<string, Job>)
      ensures Snapshot() == INITIAL(files)
    {
      active, cleaning, tasks, this.files, reading := "", "", [], files, None;
    }

    function Snapshot(): State
      reads this
    {
      State(active, cleaning, tasks, files, reading)
    }

    method Start() returns (ok: bool)
      modifies this
      ensures Snapshot() == Step(old(Snapshot()), StartRun) && ok == (old(active) == "")
    {
      if active != "" {
        return false;
      }
      active := STARTING;
      tasks := tasks + [Task(Run, Begun)];
      return true;
    }

    method OnStart(i: nat, id: string)
      requires Enabled(Snapshot(), Event.OnStart(i, id))
      modifies this
      ensures Snapshot() == Step(old(Snapshot()), Event.OnStart(i, id))
    {
      active := id;
      tasks := tasks[i := tasks[i].(stage := Working)];
    }

    method Finish(i: nat)
      requires Enabled(Snapshot(), FinishRun(i))
      modifies this
      ensures Snapshot() == Step(old(Snapshot()), FinishRun(i))
    {
      active := "";
      tasks := tasks[i := tasks[i].(stage := Ended)];
    }

    method BeginCleanup(job: string, key: string) returns (ok: bool)
      modifies this
      ensures Snapshot() == Step(old(Snapshot()), Event.BeginCleanup(job, key)) && ok == (old(active) == "")
    {
      if active != "" {
        return false;
      }
      active, cleaning := CLEANING, job;
      tasks := tasks + [Task(Cleanup(job, key), Begun)];
      return true;
    }

    /** The last section of a cleanup, or of one whose first save failed. */
    method EndCleanup(i: nat)
      requires Enabled(Snapshot(), Event.EndCleanup(i))
      modifies this
      ensures Snapshot() == Step(old(Snapshot()), Event.EndCleanup(i))
    {
      active, cleaning := "", "";
      tasks := tasks[i := tasks[i].(stage := Ended)];
    }

    /** The second half of the status query, under the job lock: the job as it stands, unless its
        change cannot be saved. */
    method DecideStatus(ok: bool) returns (job: Option<Job>)
      requires reading.Some?
      modifies this
      ensures Snapshot() == Step(old(Snapshot()), StatusDecide(ok))
      ensures
        var j := old(reading).value.1;
        job == if !Orphaned(old(Snapshot()), j) then Some(j) else if ok then Some(Job(j.id, Interrupted)) else None
    {
      var (key, read) := reading.value;
      reading := None;
      var live := cleaning == read.id;
      if read.status == Running && !live {
        read := read.(status := Interrupted);
        if !ok {
          return None;
        }
        files := files[key := read];
      }
      return Some(read);
    }
  }
}
