# go-chronos core, modelled in Dafny

This project models the core of a Go client library for the Chronos job
scheduler. It covers four parts:

- **Cluster membership and failover** (`cluster.go`). The client knows a fixed
  list of equivalent Chronos hosts, keeps one availability flag per host,
  and points at a *current* member. `GetMember` hands out `scheme://host`
  for the current member. `MarkInactive` demotes the current member after a
  transport failure and rescans the list; the last active member in
  configuration order wins. A background probe later reinstates a demoted
  member.
- **Jobs** (`job.go`). A job is classified as dependency-based,
  schedule-based or unknown. Its ISO 8601 repeating-interval schedule
  `R[n]/start/duration` is validated. The module also has the job defaults,
  the append builders, the choice of submission endpoint and the search of
  a job list by name.
- **Containers** (`container.go`). A Docker container description and its
  chained append builders.
- **Configuration** (`config.go`). The default configuration, and the
  one-member cluster it yields.

Files:

- `cluster.dfy`, module `Clusters`. The state is a class: `Hosts: seq<string>`
  and `Active: array<bool>` are fixed at construction, and
  `Current: Option<nat>` is an index into them. `Valid()` is the invariant
  "Current is None or an active member". The rescan is proved against
  `LastActive`, a specification function. `SendWithFailover` models the
  client's retry-on-transport-failure loop. `RetriesUntilExhausted` counts
  how many demotions that loop makes when every request fails.
  `ReinstateAndRescan` is the corrected reinstatement described under
  "## Findings".
- `job.dfy`, module `Jobs`: `Job` is a class whose builders update its
  fields in place. Type, sanity check, schedule check and endpoint choice
  are functions.
- `iso8601.dfy`, module `Iso8601`: the three schedule fields. Each field has
  a datatype, a formatter and a hand-written parser that stands in for the
  source's regular expression. A field is accepted exactly when the parser
  returns `Some`. Each parser's contract says that its result formats back
  to the input. The `ParseFormat*` lemmas prove the converse: every
  well-formed value is accepted and read back unchanged.
- `container.dfy`, module `Containers`; `config.dfy`, module `Config`.
- `strings.dfy`, module `Strings`: Go's `strings.Split` on a one-character
  separator. k separators give k + 1 pieces, and empty pieces are kept.
  `Join` is its proved inverse.
- `slices.dfy`, module `Slices`: a Go slice field is either nil or an
  allocated list. The model keeps the two apart because the source does
  (`Init` allocates, `AddVolume` tests for nil).
- `wrappers.dfy`, module `Wrappers`: `Option`, `Result` (Go's value/error
  pair) and `Outcome` (Go's bool/error pair).

The Go source and this model differ in these places:

- The integers of the model are unbounded. None of the modelled operations
  does arithmetic that could overflow in Go.
- The scheme and host come in already parsed (see "Left out").
- Go's `regexp` matches `\d` against ASCII digits only, so the recognisers
  do the same.
- Go's `$` without the multi-line flag matches only at the end of the text,
  so every recogniser must consume its whole field.

## Model

| member | source | states |
|---|---|---|
| `Strings.Split` | cluster.go:42 | `strings.Split` on one character: the piece count is the separator count + 1 (never empty), and no piece contains the separator |
| `Strings.JoinSplit` | job.go:116 | joining the pieces of a split with the separator gives back the original string, so splitting loses nothing |
| `Strings.SplitJoin` | cluster.go:42 | splitting separator-free pieces glued with the separator gives back exactly those pieces, in order |
| `Clusters.NewCluster` | cluster.go:29-52 | fails with the unsupported-scheme error, and creates no cluster, iff the scheme is neither "http" nor "https"; otherwise returns a fresh valid cluster that keeps the URL, whose hosts are the ","-split of the host, whose flags are all true, and whose first member is current |
| `Clusters.Cluster.constructor` | cluster.go:38-49 | one member per ","-separated token of host, in order, with the token as host and every flag true; the member count is the comma count + 1; the first member is current, so `GetMember` yields `scheme://first token` |
| `Clusters.GenerateChronosUrl` | cluster.go:64-66 | the base URL is the protocol, then "://", then the host, and both parts can be read back from it |
| `Clusters.Cluster.GetMember` | cluster.go:54-62 | fails with "no available cluster member" iff Current is nil or Current's flag is false; otherwise returns `Protocol://host` of the current member |
| `Clusters.LastActive` | cluster.go:88-92 | the last-wins rescan: the result is an active member with no active member after it, and None iff no member is active |
| `Clusters.Cluster.MarkInactive` | cluster.go:68-93 | needs a current member; clears exactly that member's flag and leaves hosts and every other flag unchanged; Current becomes `LastActive` of the new flags, never the demoted member; restores the invariant; lowers the active count by one; afterwards `GetMember` succeeds iff some member is active |
| `Clusters.ClusterErrorMessagesDistinct` | cluster.go:35-59 | the two error texts, "chronos: cluster url scheme <scheme> is not supported" and "chronos: no available cluster member", identify the error and the refused scheme |
| `Clusters.CountActiveDemote` | cluster.go:73 | clearing one set flag lowers the number of active members by exactly one |
| `Clusters.CountActiveZero` | cluster.go:88-92 | the active count is zero iff no flag is set, i.e. iff the rescan finds nothing |
| `Clusters.Cluster.Rescan` | cluster.go:88-92 | the scan over the member list leaves as current the last active member, or none when no member is active, and restores the invariant |
| `Clusters.OutageOutlastsReinstate` | cluster.go:72-92 | after a total outage, reinstating a member does not restore service: the next request fails with "no available member", whatever the transport reaches |
| `Clusters.Cluster.ReinstateAndRescan` | cluster.go:76-92 | the corrected reinstatement: sets the member's flag and, when no member is current, rescans; from a valid state, a member is available afterwards |
| `Clusters.RecoveryAfterReinstate` | client.go:130-159 | after the corrected reinstatement of a member the transport reaches, the next request succeeds at a reachable member, from any valid state |
| `Clusters.Cluster.Reinstate` | cluster.go:76-86 | the probe's success sets that one flag and nothing else; Current is not rescanned; the invariant is preserved |
| `Clusters.CountActiveReinstate` | cluster.go:80 | setting a flag raises the active count by one if it was clear and leaves it unchanged otherwise |
| `Clusters.RetriesUntilExhausted` | client.go:154-158 | with every transport failing and no reinstatement, the retry loop calls `MarkInactive` exactly as many times as there are active members (at most the member count) before `GetMember` fails; `SendWithFailover` with nothing reachable demotes exactly this many |
| `Clusters.Cluster.SendWithFailover` | client.go:130-159 | the request retry: gets a member, and while the transport cannot reach it demotes it and retries; with no current member it fails at once with "no available member" and changes nothing; otherwise ends with a reachable current member's URL or with "no available member" and no current member; the number of demotions is the drop in the active count, at most the number of active members; after a demotion the current member is the last active one, and the active members are exactly those that were active, are not the first one tried, and are at or before the new current member (so every member tried and failed is cleared); with no demotion the state is unchanged; flags only go down, and a member that was active and is reachable stays active; when it started from a current member and fails, no member that was active is reachable; with no reachable member, demotes every active one and fails |
| `Containers.NewDockerContainer` | container.go:26-31 | Type "DOCKER", Network "BRIDGE", empty Image, ForcePullImage false, nil volume and parameter lists |
| `Containers.Container.constructor` | container.go:27-30 | a composite literal sets each field to the given value |
| `Containers.Container.AddVolume` | container.go:33-45 | returns the receiver; Volumes becomes allocated (a one-element list when it was nil), gains exactly one volume with the given host path, container path and mode at the end, earlier volumes unchanged; the frame leaves every other field unchanged |
| `Containers.Container.AddParameter` | container.go:47-59 | returns the receiver; Parameters becomes allocated, gains exactly one key/value parameter at the end, earlier parameters unchanged; every other field unchanged |
| `Containers.Container.AddVolumes` | container.go:44 | n chained `AddVolume` calls on the returned receiver grow Volumes by exactly those n volumes, in order |
| `Containers.Container.AddParameters` | container.go:58 | n chained `AddParameter` calls grow Parameters by exactly those n parameters, in order |
| `Config.NewDefaultConfig` | config.go:15-22 | URL "http://127.0.0.1:8080", request timeout 5, empty basic-auth user and password |
| `Config.BasicAuth` | client.go:148-150 | a request carries basic-auth credentials iff the configured user is non-empty, and then they are the configured user and password |
| `Config.DefaultHasNoBasicAuth` | config.go:18-19 | requests made with the default configuration carry no basic-auth header |
| `Config.DefaultUrlParts` | config.go:17 | the default URL is `http` + "://" + `127.0.0.1:8080`, a host without commas |
| `Config.DefaultCluster` | client.go:34 | the default URL passes the scheme check and gives a single member `127.0.0.1:8080`, and `GetMember` returns the configured URL itself |
| `Iso8601.ParseRepeat` | job.go:125 | the repeat field `^R(\d+)?$`: whatever is accepted is "R" followed by a digit run or nothing, and writes back to the input |
| `Iso8601.ParseFormatRepeat` | job.go:129-131 | every "R" followed by zero or more digits is accepted and read back unchanged |
| `Iso8601.ParseZone` | job.go:126 | the zone `Z` or `+dd:dd` / `-dd:dd`: an accepted zone writes back to the input |
| `Iso8601.ParseStartTime` | job.go:126 | the start field: an accepted value is `dddd-dd-ddTdd:dd:dd` plus a zone, digit counts only, and writes back to the input |
| `Iso8601.ParseFormatStartTime` | job.go:133-135 | every start time of that shape, any digits, is accepted and read back unchanged |
| `Iso8601.DigitRun` | job.go:127 | the longest digit run at the front: all digits, followed by a non-digit or the end |
| `Iso8601.ParseAmount` | job.go:127 | one optional `(\d+)X` group: what is read plus what is left is the input, and the group is read only when a whole digit run is followed by the designator |
| `Iso8601.ParseGroups` | job.go:127 | three optional groups in a fixed designator order: the groups read plus the rest is the input |
| `Iso8601.ParseFormatGroups` | job.go:127 | three formatted groups with distinct designators, followed by text that starts no group, are read back exactly |
| `Iso8601.ParseTimePart` | job.go:127 | the optional time part: nothing, or "T" then optional hours, minutes, seconds in order; an accepted part writes back to the input |
| `Iso8601.ParseFormatTimePart` | job.go:127 | every well-formed time part, or none, is read back unchanged |
| `Iso8601.ParseDuration` | job.go:127 | the interval field: "P", optional years, months, days in order, then an optional "T" with optional hours, minutes, seconds in order; an accepted value writes back to the input |
| `Iso8601.ParseFormatDuration` | job.go:137-139 | every well-formed interval is accepted and read back unchanged |
| `Iso8601.EmptyIntervals` | job.go:127 | "P" and "PT" are accepted, as intervals with no groups |
| `Iso8601.MonthsAndMinutes` | job.go:127 | "M" before "T" is read as months and after "T" as minutes |
| `Iso8601.FieldsHaveNoSlash` | job.go:116 | no well-formed field contains "/", so a written-out schedule splits back into its three fields |
| `Jobs.JobErrorMessagesDistinct` | job.go:100-216 | the seven job error texts are pairwise different, so each text identifies its error |
| `Jobs.CheckSchedule` | job.go:115-119 | a schedule whose "/"-count is not 2 fails with "schedule should contain 3 elements" |
| `Jobs.CheckScheduleFields` | job.go:121-141 | a schedule with three fields is checked repeat, then start, then interval; the first failing field's error is returned, and it passes iff all three pass |
| `Jobs.CheckScheduleFieldCountExamples` | job.go:116-119 | "" and "a/b" are refused for their field count |
| `Jobs.CheckScheduleAccepts` | job.go:115-142 | every well-formed repeating-interval schedule passes |
| `Jobs.CheckScheduleSound` | job.go:115-142 | every schedule that passes is a well-formed schedule written out |
| `Jobs.CheckScheduleLanguage` | job.go:115-142 | the check passes iff the string is the written form of some well-formed schedule |
| `Jobs.Job.constructor` | job.go:73 | the zero value of a job: every one of the modelled fields is an empty string, false, zero, a nil container or a nil list, so the job is of unknown type |
| `Jobs.Job.Init` | job.go:84-96 | Shell true, Epsilon "PT60S", Retries 2, Async, Disabled and DataProcessingJobType false, the four lists allocated and empty; its frame leaves every other field unchanged |
| `Jobs.NewJob` | job.go:72-76 | a fresh job with the defaults, every field Init does not set still zero, no container, no schedule and no parents, hence of unknown type |
| `Jobs.NewContainerJob` | job.go:78-82 | a fresh defaulted job, every other field zero (no name, schedule or parents, hence of unknown type), that carries a fresh Docker container on the bridge network with no image, no forced pull and nil volume and parameter lists |
| `Jobs.Job.AddEnvVar` | job.go:144-150 | returns the receiver; exactly one name/value pair is appended at the end, earlier ones unchanged; only that list changes |
| `Jobs.Job.AddUri` | job.go:152-155 | returns the receiver; exactly one URI is appended at the end, earlier ones unchanged; only that list changes |
| `Jobs.Job.Type` | job.go:157-168 | dependency-based iff parents are non-empty and the schedule is empty; schedule-based iff parents are empty and the schedule is not; unknown iff both or neither are present; a nil parent list counts as empty |
| `Jobs.Job.SanityCheck` | job.go:98-113 | unknown jobs fail with "job type unknown", dependency jobs pass, schedule jobs get the schedule check's verdict and error |
| `Jobs.SanityCheckLanguage` | job.go:98-142 | a job passes the sanity check iff it depends on parents, or is schedule-based with a well-formed schedule |
| `Jobs.JobEndpoint` | job.go:210-219 | "/scheduler/dependency" iff dependency-based, "/scheduler/iso8601" iff schedule-based, and for unknown jobs the error "job must include one of parents and schedule" |
| `Jobs.CreateJob` | job.go:207-222 | a POST to the job type's endpoint, or for an unknown job the error before any request |
| `Jobs.UpdateJob` | job.go:224-239 | a PUT to the job type's endpoint, or for an unknown job the error before any request |
| `Jobs.CheckedJobsAreSubmittable` | job.go:98-113 | a job that passes the sanity check can be created and updated, at the same path |
| `Jobs.FindJob` | job.go:180-193 | returns the first job in list order with the given name, or "job does not exist" iff no job has that name |

## Findings

| source | as written | input that shows it | evidently intended | confidence | as-written member | corrected member |
|---|---|---|---|---|---|---|
| cluster.go:72-92, client.go:134-137 | once the last active member is demoted, `Current` is nil; the probe's success only sets the member's flag, and `httpRequest` returns "no available cluster member" before it could call `MarkInactive` again, so nothing ever makes a member current again | a one-member cluster whose member times out once and then answers its `/ping`: every later request fails | a member whose probe succeeds becomes usable again without caller intervention | not executed | `Clusters.OutageOutlastsReinstate` | `Clusters.Cluster.ReinstateAndRescan` |

`Clusters.RecoveryAfterReinstate` proves the intended property of the
corrected member: after it reinstates a reachable member, the next request
succeeds. The model keeps `Reinstate` as written, beside the correction.

## Left out

- URL parsing (`url.Parse`, cluster.go:30): it is a library call. The model
  takes the parsed scheme and host as inputs, and `NewCluster` has no
  "malformed URL" error path. `Config.DefaultScheme` and
  `Config.DefaultHost` state what parsing the default URL yields.
- The regular-expression engine (job.go:125-127): each expression is
  replaced by a hand-written parser for the same language. Named capture
  groups are not modelled; the parsed datatypes carry the same parts.
- Locking (`sync.RWMutex`, cluster.go:14, 55-56, 69-70): every operation is
  one atomic sequential step. Interleavings between concurrent requests
  are not modelled, for example two requests failing against the same
  member and both calling `MarkInactive`.
- Clusters.Cluster.Reinstate: it does not model the background goroutine
  itself (cluster.go:76-86), that is, the HTTP `/ping` probe, the 5-second
  wait and the unbounded polling. Only the probe's eventual success is
  modelled, and `MarkInactive` does not spawn anything.
- Clusters.Cluster.SendWithFailover: the transport is a set of reachable
  base URLs, fixed for the whole call. The HTTP client timeout
  (client.go:42-44) is folded into that set: a member whose exchange times
  out counts as unreachable, and is demoted even though it is live. The Go
  recursion in `httpRequest` is written as a loop. Building the request,
  the content-type headers and the response body (client.go:139-169) are
  not modelled; the basic-auth header is, by `Config.BasicAuth`.
- The rest of client.go: the JSON encoding and decoding, the status-code
  handling and logging. None of it affects membership.
- stat.go: job-statistics records (a float32 histogram and task-history
  entries) and `GetJobStat`, a GET wrapper. None of it touches membership.
- The `CPUs`, `Disk` and `Memory` fields of a job: they are float64. No
  modelled operation reads them.
- `Jobs`, `RunJob`, `DeleteJob` and `KillJob` (job.go:170-205): they are
  network calls. `FindJob` models the name search of `Job(name)` over a job
  list passed in, in place of the one fetched over the network.
- The `Url` field of a cluster is stored and never read, as in the source.
- Go's nil and allocated-empty slices are kept apart. The only observable
  difference is in the JSON encoding (`null` versus `[]`), which is not
  modelled.
