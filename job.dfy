/**
 * Jobs of the scheduling service: their classification, the validation of
 * their schedule, their defaults and builders, and the choice of endpoint
 * when they are submitted.
 */
module Jobs {
  import opened Wrappers
  import opened Slices
  import Strings
  import Iso8601
  import Containers

  /** A job runs after its parents, on its own schedule, or is neither. */
  datatype JobType = DependencyBased | ScheduleBased | Unknown

  datatype JobError =
    | TypeUnknown
    | ScheduleFieldCount
    | RepeatSyntax
    | StartTimeSyntax
    | IntervalSyntax
    | MissingParentsOrSchedule
    | JobNotFound
  {
    function Message(): string {
      match this
      case TypeUnknown => "chronos: job type unknown"
      case ScheduleFieldCount => "chronos: schedule should contain 3 elements"
      case RepeatSyntax => "chronos: schedule: repeat field syntax error"
      case StartTimeSyntax => "chronos: schedule: startTime field syntax error"
      case IntervalSyntax => "chronos: schedule: interval field syntax error"
      case MissingParentsOrSchedule => "job must include one of parents and schedule"
      case JobNotFound => "job does not exist"
    }
  }

  /** Different errors read differently, so a caller can tell them apart by their text. */
  lemma JobErrorMessagesDistinct(e1: JobError, e2: JobError)
    ensures e1.Message() == e2.Message() ==> e1 == e2
  {
  }

  datatype EnvVar = EnvVar(Name: string, Value: string)

  /**
   * Checks a schedule "R[n]/start/duration": it must split on "/" into three
   * fields, checked in order repeat, start, interval; the first field that
   * fails decides the error.
   */
  function CheckSchedule(schedule: string): (r: Outcome<JobError>)
    ensures Strings.Count(schedule, '/') != 2 ==> r == Fail(ScheduleFieldCount)
  {
    var fields := Strings.Split(schedule, '/');
    if |fields| != 3 then Fail(ScheduleFieldCount)
    else if !Iso8601.IsRepeat(fields[0]) then Fail(RepeatSyntax)
    else if !Iso8601.IsStartTime(fields[1]) then Fail(StartTimeSyntax)
    else if !Iso8601.IsDuration(fields[2]) then Fail(IntervalSyntax)
    else Pass
  }

  /** A schedule with fields a, b, c is checked field by field, first failure first. */
  lemma CheckScheduleFields(a: string, b: string, c: string)
    requires '/' !in a && '/' !in b && '/' !in c
    ensures CheckSchedule(a + "/" + b + "/" + c) ==
      if !Iso8601.IsRepeat(a) then Fail(RepeatSyntax)
      else if !Iso8601.IsStartTime(b) then Fail(StartTimeSyntax)
      else if !Iso8601.IsDuration(c) then Fail(IntervalSyntax)
      else Pass
  {
    var parts := [a, b, c];
    assert Strings.Join(parts[2..], '/') == c;
    assert Strings.Join(parts[1..], '/') == b + "/" + c;
    assert Strings.Join(parts, '/') == a + "/" + b + "/" + c;
    Strings.SplitJoin(parts, '/');
  }

  /** Every well-formed schedule passes the check. */
  lemma CheckScheduleAccepts(x: Iso8601.Schedule)
    requires Iso8601.ValidSchedule(x)
    ensures CheckSchedule(Iso8601.FormatSchedule(x)) == Pass
  {
    Iso8601.FieldsHaveNoSlash(x);
    CheckScheduleFields(Iso8601.FormatRepeat(x.repeat), Iso8601.FormatStartTime(x.start),
                        Iso8601.FormatDuration(x.interval));
    Iso8601.ParseFormatRepeat(x.repeat);
    Iso8601.ParseFormatStartTime(x.start);
    Iso8601.ParseFormatDuration(x.interval);
  }

  /** Every schedule that passes the check is a well-formed schedule, written out. */
  lemma CheckScheduleSound(schedule: string) returns (x: Iso8601.Schedule)
    requires CheckSchedule(schedule) == Pass
    ensures Iso8601.ValidSchedule(x) && Iso8601.FormatSchedule(x) == schedule
  {
    var fields := Strings.Split(schedule, '/');
    var repeat := Iso8601.ParseRepeat(fields[0]).value;
    var start := Iso8601.ParseStartTime(fields[1]).value;
    var interval := Iso8601.ParseDuration(fields[2]).value;
    x := Iso8601.Schedule(repeat, start, interval);
    assert Iso8601.FormatRepeat(repeat) == fields[0];
    assert Iso8601.FormatStartTime(start) == fields[1];
    assert Iso8601.FormatDuration(interval) == fields[2];
    Strings.JoinSplit(schedule, '/');
    JoinThree(fields, '/');
  }

  /** Three pieces joined with a separator. */
  lemma JoinThree(parts: seq<string>, sep: char)
    requires |parts| == 3
    ensures Strings.Join(parts, sep) == parts[0] + [sep] + parts[1] + [sep] + parts[2]
  {
    assert parts[1..][1..] == [parts[2]];
    assert Strings.Join(parts[1..], sep) == parts[1] + [sep] + parts[2];
  }

  /** The schedule check accepts exactly the written-out well-formed schedules. */
  lemma CheckScheduleLanguage(schedule: string)
    ensures CheckSchedule(schedule) == Pass <==>
            exists x :: Iso8601.ValidSchedule(x) && Iso8601.FormatSchedule(x) == schedule
  {
    if CheckSchedule(schedule) == Pass {
      var x := CheckScheduleSound(schedule);
    }
    if exists x :: Iso8601.ValidSchedule(x) && Iso8601.FormatSchedule(x) == schedule {
      var x :| Iso8601.ValidSchedule(x) && Iso8601.FormatSchedule(x) == schedule;
      CheckScheduleAccepts(x);
    }
  }

  /** An empty schedule and one with two fields are refused for their field count. */
  lemma CheckScheduleFieldCountExamples()
    ensures CheckSchedule("") == Fail(ScheduleFieldCount)
    ensures CheckSchedule("a/b") == Fail(ScheduleFieldCount)
  {
    assert Strings.Count("a/b", '/') == 1;
  }

  class Job {
    var Name: string
    var Description: string
    var Command: string
    var Shell: bool
    var Arguments: Slice<string>
    var RunAsUser: string
    var EnvironmentVariables: Slice<EnvVar>
    var Async: bool
    var Disabled: bool
    var HighPriority: bool
    var SoftError: bool
    var DataProcessingJobType: bool
    var Container: Containers.Container?
    var Uris: Slice<string>
    var Epsilon: string
    var SuccessCount: int
    var ErrorCount: int
    var LastSuccess: string
    var LastError: string
    var ErrorsSinceLastSuccess: int
    var Executor: string
    var ExecutorFlags: string
    var Retries: int
    var Owner: string
    var OwnerName: string
    var Constraints: Slice<seq<string>>
    /** Only schedule-based jobs carry these two. */
    var Schedule: string
    var ScheduleTimeZone: string
    /** Only dependency-based jobs carry this one. */
    var Parents: Slice<string>

    /** The fields Init sets, with the values it gives them. */
    ghost predicate HasDefaults()
      reads this
    {
      Shell && Epsilon == "PT60S" && Retries == 2 &&
      !Async && !DataProcessingJobType && !Disabled &&
      Arguments == Made([]) && EnvironmentVariables == Made([]) &&
      Uris == Made([]) && Constraints == Made([])
    }

    /** The fields neither Init nor a container touches hold their zero values. */
    ghost predicate OtherFieldsZero()
      reads this
    {
      Name == "" && Description == "" && Command == "" && RunAsUser == "" &&
      !HighPriority && !SoftError &&
      SuccessCount == 0 && ErrorCount == 0 && LastSuccess == "" && LastError == "" &&
      ErrorsSinceLastSuccess == 0 && Executor == "" && ExecutorFlags == "" &&
      Owner == "" && OwnerName == "" &&
      Schedule == "" && ScheduleTimeZone == "" && Parents == Nil
    }

    /** Every field holds its zero value: empty strings, false, 0 and nil. */
    ghost predicate IsZeroValue()
      reads this
    {
      OtherFieldsZero() && Container == null &&
      !Shell && Epsilon == "" && Retries == 0 &&
      !Async && !DataProcessingJobType && !Disabled &&
      Arguments == Nil && EnvironmentVariables == Nil && Uris == Nil && Constraints == Nil
    }

    /** The zero value of a job: empty strings, false, 0 and nil everywhere. */
    constructor ()
      ensures IsZeroValue()
      ensures Type() == Unknown
    {
      Name, Description, Command, Shell, Arguments, RunAsUser := "", "", "", false, Nil, "";
      EnvironmentVariables := Nil;
      Async, Disabled, HighPriority, SoftError, DataProcessingJobType := false, false, false, false, false;
      Container := null;
      Uris, Epsilon := Nil, "";
      SuccessCount, ErrorCount, LastSuccess, LastError, ErrorsSinceLastSuccess := 0, 0, "", "", 0;
      Executor, ExecutorFlags, Retries, Owner, OwnerName := "", "", 0, "", "";
      Constraints, Schedule, ScheduleTimeZone, Parents := Nil, "", "", Nil;
    }

    /** Gives the defaulted fields their defaults and allocates the empty lists; nothing else changes. */
    method Init()
      modifies this`Shell, this`Epsilon, this`Retries, this`Async, this`DataProcessingJobType,
               this`Disabled, this`Arguments, this`EnvironmentVariables, this`Uris, this`Constraints
      ensures HasDefaults()
    {
      Shell := true;
      Epsilon := "PT60S";
      Retries := 2;
      Async := false;
      DataProcessingJobType := false;
      Disabled := false;
      Arguments := Made([]);
      EnvironmentVariables := Made([]);
      Uris := Made([]);
      Constraints := Made([]);
    }

    /** Appends one environment variable at the end; returns the receiver for chaining. */
    method AddEnvVar(name: string, value: string) returns (r: Job)
      modifies this`EnvironmentVariables
      ensures r == this && EnvironmentVariables.Made?
      ensures EnvironmentVariables.Elements() == old(EnvironmentVariables.Elements()) + [EnvVar(name, value)]
    {
      EnvironmentVariables := EnvironmentVariables.Append(EnvVar(name, value));
      r := this;
    }

    /** Appends one URI at the end; returns the receiver for chaining. */
    method AddUri(uri: string) returns (r: Job)
      modifies this`Uris
      ensures r == this && Uris.Made?
      ensures Uris.Elements() == old(Uris.Elements()) + [uri]
    {
      Uris := Uris.Append(uri);
      r := this;
    }

    /**
     * Dependency-based when the job has parents and no schedule,
     * schedule-based when it has a schedule and no parents, otherwise unknown.
     * A nil parent list counts as no parents.
     */
    function Type(): (t: JobType)
      reads this
      ensures t == DependencyBased <==> |Parents.Elements()| != 0 && Schedule == ""
      ensures t == ScheduleBased <==> |Parents.Elements()| == 0 && Schedule != ""
      ensures t == Unknown <==> (|Parents.Elements()| != 0) == (Schedule != "")
    {
      var hasParents := Parents.Made? && |Parents.items| != 0;
      var hasSchedule := Schedule != "";
      if hasParents && !hasSchedule then DependencyBased
      else if !hasParents && hasSchedule then ScheduleBased
      else Unknown
    }

    /**
     * Unknown jobs fail, dependency-based jobs pass, schedule-based jobs pass
     * exactly when their schedule passes CheckSchedule, with its error.
     */
    function SanityCheck(): (r: Outcome<JobError>)
      reads this
      ensures Type() == Unknown ==> r == Fail(TypeUnknown)
      ensures Type() == DependencyBased ==> r == Pass
      ensures Type() == ScheduleBased ==> r == CheckSchedule(Schedule)
    {
      match Type()
      case Unknown => Fail(TypeUnknown)
      case ScheduleBased => CheckSchedule(Schedule)
      case DependencyBased => Pass
    }
  }

  /** A job passes the sanity check exactly when it depends on parents or has a well-formed schedule. */
  lemma SanityCheckLanguage(job: Job)
    ensures job.SanityCheck() == Pass <==>
            job.Type() == DependencyBased ||
            (job.Type() == ScheduleBased &&
             exists x :: Iso8601.ValidSchedule(x) && Iso8601.FormatSchedule(x) == job.Schedule)
  {
    CheckScheduleLanguage(job.Schedule);
  }

  /** A new job: zero values, then Init. */
  method NewJob() returns (j: Job)
    ensures fresh(j) && j.HasDefaults()
    ensures j.OtherFieldsZero() && j.Container == null
    ensures j.Name == "" && j.Schedule == "" && j.Parents == Nil
    ensures j.Type() == Unknown
  {
    j := new Job();
    j.Init();
  }

  /** A new job carrying a new Docker container. */
  method NewContainerJob() returns (j: Job)
    ensures fresh(j) && j.HasDefaults()
    ensures j.Container != null && fresh(j.Container)
    ensures j.OtherFieldsZero()
    ensures j.Name == "" && j.Schedule == "" && j.Parents == Nil
    ensures j.Type() == Unknown
    ensures j.Container.Type == "DOCKER" && j.Container.Network == "BRIDGE"
    ensures j.Container.Image == "" && !j.Container.ForcePullImage
    ensures j.Container.Volumes == Nil && j.Container.Parameters == Nil
  {
    j := NewJob();
    var c := Containers.NewDockerContainer();
    j.Container := c;
  }

  /** One HTTP request to the service: its method and path. */
  datatype Request = Request(verb: string, path: string)

  /** The submission path for a job type; unknown jobs have none. */
  function JobEndpoint(t: JobType): (r: Result<string, JobError>)
    ensures r.Failure? <==> t == Unknown
    ensures r.Failure? ==> r.error == MissingParentsOrSchedule
    ensures r.Success? ==> (r.value == "/scheduler/dependency" <==> t == DependencyBased)
    ensures r.Success? ==> (r.value == "/scheduler/iso8601" <==> t == ScheduleBased)
  {
    match t
    case DependencyBased => Success("/scheduler/dependency")
    case ScheduleBased => Success("/scheduler/iso8601")
    case Unknown => Failure(MissingParentsOrSchedule)
  }

  /** Creating a job posts it to its type's endpoint; an unknown job is refused before any request. */
  function CreateJob(job: Job): (r: Result<Request, JobError>)
    reads job
    ensures r.Failure? <==> job.Type() == Unknown
    ensures r.Failure? ==> r.error == MissingParentsOrSchedule
    ensures r.Success? ==> r.value.verb == "POST" && r.value.path == JobEndpoint(job.Type()).value
  {
    match JobEndpoint(job.Type())
    case Failure(e) => Failure(e)
    case Success(path) => Success(Request("POST", path))
  }

  /** Updating a job puts it to its type's endpoint; an unknown job is refused before any request. */
  function UpdateJob(job: Job): (r: Result<Request, JobError>)
    reads job
    ensures r.Failure? <==> job.Type() == Unknown
    ensures r.Failure? ==> r.error == MissingParentsOrSchedule
    ensures r.Success? ==> r.value.verb == "PUT" && r.value.path == JobEndpoint(job.Type()).value
  {
    match JobEndpoint(job.Type())
    case Failure(e) => Failure(e)
    case Success(path) => Success(Request("PUT", path))
  }

  /** A job that passes the sanity check can be created and updated, at the same path. */
  lemma CheckedJobsAreSubmittable(job: Job)
    requires job.SanityCheck() == Pass
    ensures CreateJob(job).Success? && UpdateJob(job).Success?
    ensures CreateJob(job).value.path == UpdateJob(job).value.path
  {
  }

  /** The first job in the list with the given name, or JobNotFound. */
  method FindJob(jobs: seq<Job>, name: string) returns (r: Result<Job, JobError>)
    ensures r.Failure? <==> forall k :: 0 <= k < |jobs| ==> jobs[k].Name != name
    ensures r.Failure? ==> r.error == JobNotFound
    ensures r.Success? ==> exists k :: 0 <= k < |jobs| && jobs[k] == r.value && r.value.Name == name &&
                                       forall m :: 0 <= m < k ==> jobs[m].Name != name
  {
    var i := 0;
    while i < |jobs|
      invariant 0 <= i <= |jobs|
      invariant forall m :: 0 <= m < i ==> jobs[m].Name != name
    {
      if jobs[i].Name == name {
        return Success(jobs[i]);
      }
      i := i + 1;
    }
    return Failure(JobNotFound);
  }
}
