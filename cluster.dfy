/**
 * Cluster membership and failover: a fixed list of equivalent service hosts,
 * one availability flag per host, and the member the next request goes to.
 */
module Clusters {
  import opened Wrappers
  import Strings

  datatype ClusterError = UnsupportedScheme(scheme: string) | NoAvailableMember {
    function Message(): string {
      match this
      case UnsupportedScheme(scheme) => "chronos: cluster url scheme " + scheme + " is not supported"
      case NoAvailableMember => "chronos: no available cluster member"
    }
  }

  /** Different errors read differently, so a caller can tell them apart by their text. */
  lemma ClusterErrorMessagesDistinct(e1: ClusterError, e2: ClusterError)
    ensures e1.Message() == e2.Message() ==> e1 == e2
  {
    var prefix, suffix := "chronos: cluster url scheme ", " is not supported";
    if e1.UnsupportedScheme? && e2.UnsupportedScheme? && e1.Message() == e2.Message() {
      var m := e1.Message();
      assert |e1.scheme| == |e2.scheme|;
      assert m[|prefix|..|m| - |suffix|] == e1.scheme;
      assert e2.Message()[|prefix|..|m| - |suffix|] == e2.scheme;
    }
  }

  predicate SupportedScheme(scheme: string) {
    scheme == "http" || scheme == "https"
  }

  /** The base URL of one member: protocol and host can be read back from it. */
  function GenerateChronosUrl(protocol: string, host: string): (url: string)
    ensures |url| == |protocol| + 3 + |host|
    ensures url[..|protocol|] == protocol && url[|protocol|..|protocol| + 3] == "://"
    ensures url[|protocol| + 3..] == host
  {
    protocol + "://" + host
  }

  // ---------------------------------------------------------------------
  // Specification of the flags and of the rescan

  /** Number of members whose flag is set. */
  function CountActive(flags: seq<bool>): (n: nat)
    ensures n <= |flags|
  {
    if flags == [] then 0
    else (if flags[0] then 1 else 0) + CountActive(flags[1..])
  }

  /** The index of the last member whose flag is set, if any: the outcome of a last-wins scan. */
  function LastActive(flags: seq<bool>): (r: Option<nat>)
    ensures r.Some? ==> r.value < |flags| && flags[r.value]
    ensures r.Some? ==> forall j :: r.value < j < |flags| ==> !flags[j]
    ensures r.None? <==> forall j :: 0 <= j < |flags| ==> !flags[j]
  {
    if flags == [] then None
    else if flags[|flags| - 1] then Some(|flags| - 1)
    else LastActive(flags[..|flags| - 1])
  }

  /** The current member, when there is one, is an existing member whose flag is set. */
  predicate Consistent(flags: seq<bool>, current: Option<nat>) {
    current.Some? ==> current.value < |flags| && flags[current.value]
  }

  /** No member is active exactly when the count is zero. */
  lemma {:induction false} CountActiveZero(flags: seq<bool>)
    ensures CountActive(flags) == 0 <==> forall j :: 0 <= j < |flags| ==> !flags[j]
  {
    if flags != [] {
      CountActiveZero(flags[1..]);
      assert forall j :: 1 <= j < |flags| ==> flags[1..][j - 1] == flags[j];
    }
  }

  /** Clearing one set flag lowers the count by exactly one. */
  lemma {:induction false} CountActiveDemote(flags: seq<bool>, i: nat)
    requires i < |flags| && flags[i]
    ensures CountActive(flags[i := false]) == CountActive(flags) - 1
  {
    if i == 0 {
      assert flags[i := false][1..] == flags[1..];
    } else {
      assert flags[i := false][1..] == flags[1..][i - 1 := false];
      CountActiveDemote(flags[1..], i - 1);
    }
  }

  /** Setting one flag raises the count by at most one and never lowers it. */
  lemma {:induction false} CountActiveReinstate(flags: seq<bool>, i: nat)
    requires i < |flags|
    ensures CountActive(flags[i := true]) == CountActive(flags) + (if flags[i] then 0 else 1)
  {
    if i == 0 {
      assert flags[i := true][1..] == flags[1..];
    } else {
      assert flags[i := true][1..] == flags[1..][i - 1 := true];
      CountActiveReinstate(flags[1..], i - 1);
    }
  }

  /**
   * How many times a caller whose every request fails at the transport calls
   * MarkInactive before GetMember reports that no member is available, when
   * no member is reinstated meanwhile: exactly the number of active members.
   */
  function RetriesUntilExhausted(flags: seq<bool>, current: Option<nat>): (n: nat)
    requires Consistent(flags, current)
    ensures n == if current.None? then 0 else CountActive(flags)
    ensures n <= |flags|
    decreases CountActive(flags)
  {
    if current.None? then 0
    else
      var demoted := flags[current.value := false];
      CountActiveDemote(flags, current.value);
      CountActiveZero(demoted);
      1 + RetriesUntilExhausted(demoted, LastActive(demoted))
  }

  // ---------------------------------------------------------------------
  // The cluster

  class Cluster {
    /** The configured URL, kept as given. */
    const Url: string
    /** Scheme shared by every member. */
    const Protocol: string
    /** Member hosts in configuration order; the list never changes. */
    const Hosts: seq<string>
    /** Availability flag of each member, by position in Hosts. */
    const Active: array<bool>
    /** Index of the member requests go to, or None when there is none. */
    var Current: Option<nat>

    /** The shape of the state: one flag per host, at least one host, Current in range. */
    ghost predicate WellFormed()
      reads this
    {
      Active.Length == |Hosts| && |Hosts| > 0 &&
      (Current.Some? ==> Current.value < |Hosts|)
    }

    /** The cluster invariant: Current is None or an active member. */
    ghost predicate Valid()
      reads this, Active
    {
      WellFormed() && Consistent(Active[..], Current)
    }

    /**
     * The cluster for scheme and host as read from the configured URL: one
     * member per ","-separated token of host, in order, all active, with
     * the first one current.
     */
    constructor (url: string, scheme: string, host: string)
      requires SupportedScheme(scheme)
      ensures Valid() && fresh(Active)
      ensures Url == url && Protocol == scheme
      ensures Hosts == Strings.Split(host, ',')
      ensures |Hosts| == Strings.Count(host, ',') + 1
      ensures forall i :: 0 <= i < |Hosts| ==> Active[i]
      ensures Current == Some(0)
      ensures GetMember() == Success(GenerateChronosUrl(scheme, Hosts[0]))
    {
      var tokens := Strings.Split(host, ',');
      var flags := new bool[|tokens|];
      var i := 0;
      while i < |tokens|
        invariant 0 <= i <= |tokens|
        invariant forall j :: 0 <= j < i ==> flags[j]
      {
        flags[i] := true;
        i := i + 1;
      }
      Url := url;
      Protocol := scheme;
      Hosts := tokens;
      Active := flags;
      Current := Some(0);
    }

    /** The base URL of the current member, or NoAvailableMember when there is no usable one. */
    function GetMember(): (r: Result<string, ClusterError>)
      reads this, Active
      requires WellFormed()
      ensures r.Success? <==> Current.Some? && Active[Current.value]
      ensures r.Failure? ==> r.error == NoAvailableMember
      ensures r.Success? ==> r.value == GenerateChronosUrl(Protocol, Hosts[Current.value])
    {
      if Current.None? || !Active[Current.value] then Failure(NoAvailableMember)
      else Success(GenerateChronosUrl(Protocol, Hosts[Current.value]))
    }

    /**
     * Demotes the current member and rescans the fixed member list, keeping
     * the last active member as the new current one (None if none is active).
     */
    method MarkInactive()
      requires WellFormed() && Current.Some?
      modifies this`Current, Active
      ensures WellFormed() && Valid()
      ensures Active[..] == old(Active[..])[old(Current).value := false]
      ensures Current == LastActive(Active[..])
      ensures Current != old(Current)
      ensures old(Valid()) ==> CountActive(Active[..]) == old(CountActive(Active[..])) - 1
      ensures GetMember().Success? <==> exists j :: 0 <= j < |Hosts| && Active[j]
    {
      var member := Current.value;
      Active[member] := false;
      if old(Valid()) {
        CountActiveDemote(old(Active[..]), member);
      }
      Rescan();
    }

    /** The scan over the fixed member list: the last active member becomes current, None if none is. */
    method Rescan()
      requires WellFormed()
      modifies this`Current
      ensures WellFormed() && Valid()
      ensures Current == LastActive(Active[..])
    {
      Current := None;
      var i := 0;
      while i < Active.Length
        invariant 0 <= i <= Active.Length
        invariant Current == LastActive(Active[..i])
      {
        assert Active[..i + 1][..i] == Active[..i];
        if Active[i] {
          Current := Some(i);
        }
        i := i + 1;
      }
      assert Active[..i] == Active[..];
    }

    /**
     * The background health probe of a demoted member succeeding: its flag
     * is set again. Current is not rescanned.
     */
    method Reinstate(i: nat)
      requires WellFormed() && i < |Hosts|
      modifies Active
      ensures Active[..] == old(Active[..])[i := true]
      ensures old(Valid()) ==> Valid()
      ensures CountActive(Active[..]) >= old(CountActive(Active[..]))
    {
      CountActiveReinstate(Active[..], i);
      Active[i] := true;
    }

    /**
     * A reinstatement that also restores service: when no member is current,
     * the member list is rescanned, so the reinstated member (or a later
     * active one) becomes current again.
     */
    method ReinstateAndRescan(i: nat)
      requires WellFormed() && i < |Hosts|
      modifies this`Current, Active
      ensures Active[..] == old(Active[..])[i := true]
      ensures Current == if old(Current).None? then LastActive(Active[..]) else old(Current)
      ensures old(Valid()) ==> Valid() && GetMember().Success?
    {
      Reinstate(i);
      if Current.None? {
        Rescan();
        assert Active[..][i];
      }
    }

    /**
     * A request issued with failover: get the current member, and while the
     * transport cannot reach it, mark it inactive and try again. reachable
     * stands for the transport: the base URLs an exchange succeeds with.
     */
    method SendWithFailover(reachable: set<string>) returns (r: Result<string, ClusterError>, demoted: nat)
      requires Valid()
      modifies this`Current, Active
      ensures Valid()
      ensures demoted <= old(CountActive(Active[..])) <= |Hosts|
      ensures demoted == old(CountActive(Active[..])) - CountActive(Active[..])
      ensures demoted == 0 ==> Current == old(Current) && Active[..] == old(Active[..])
      ensures demoted > 0 ==> Current == LastActive(Active[..])
      ensures old(Current).None? ==> r == Failure(NoAvailableMember) && demoted == 0
      ensures r.Success? ==> r.value in reachable && r == GetMember()
      ensures r.Failure? ==> r.error == NoAvailableMember && Current.None?
      ensures reachable == {} ==> r.Failure? && demoted == RetriesUntilExhausted(old(Active[..]), old(Current))
      ensures demoted > 0 ==>
                (old(Current).Some? &&
                 forall j :: 0 <= j < Active.Length ==>
                               (Active[j] <==> old(Active[j]) && j != old(Current).value && Current.Some? && j <= Current.value))
      ensures forall j :: 0 <= j < Active.Length && Active[j] ==> old(Active[j])
      ensures forall j :: 0 <= j < Active.Length && old(Active[j]) ==>
                            (GenerateChronosUrl(Protocol, Hosts[j]) in reachable ==> Active[j])
      ensures old(Current).Some? && r.Failure? ==>
                forall j :: 0 <= j < Active.Length && old(Active[j]) ==>
                              GenerateChronosUrl(Protocol, Hosts[j]) !in reachable
    {
      ghost var before := CountActive(Active[..]);
      ghost var start := Active[..];
      demoted := 0;
      r := GetMember();
      while r.Success? && r.value !in reachable
        invariant Valid()
        invariant r == GetMember()
        invariant demoted + CountActive(Active[..]) == before
        invariant demoted > 0 ==> Current == LastActive(Active[..])
        invariant demoted == 0 ==> Current == old(Current) && Active[..] == start
        invariant old(Current).None? ==> demoted == 0
        invariant demoted > 0 ==>
                    (old(Current).Some? &&
                     forall j :: 0 <= j < Active.Length ==>
                                   (Active[j] <==> start[j] && j != old(Current).value && Current.Some? && j <= Current.value))
        invariant forall j :: 0 <= j < Active.Length && Active[j] ==> start[j]
        invariant forall j :: 0 <= j < Active.Length && start[j] ==>
                                (!Active[j] ==> GenerateChronosUrl(Protocol, Hosts[j]) !in reachable)
        decreases CountActive(Active[..])
      {
        MarkInactive();
        demoted := demoted + 1;
        r := GetMember();
      }
      if r.Failure? && old(Current).Some? {
        assert demoted > 0;
        CountActiveZero(Active[..]);
      }
    }
  }

  /**
   * After a total outage no member is current, and a reinstatement alone
   * does not bring one back: the next request fails at once, whatever the
   * transport reaches, the reinstated member included.
   */
  method OutageOutlastsReinstate(c: Cluster, i: nat, reachable: set<string>) returns (r: Result<string, ClusterError>)
    requires c.Valid() && c.Current.None? && i < |c.Hosts|
    modifies c, c.Active
    ensures c.Active[i] && c.Current.None?
    ensures r == Failure(NoAvailableMember)
  {
    c.Reinstate(i);
    var demoted;
    r, demoted := c.SendWithFailover(reachable);
  }

  /**
   * With the rescanning reinstatement, a request after reinstating a member
   * the transport reaches succeeds, from any valid state, total outage included.
   */
  method RecoveryAfterReinstate(c: Cluster, i: nat, reachable: set<string>) returns (r: Result<string, ClusterError>)
    requires c.Valid() && i < |c.Hosts|
    requires GenerateChronosUrl(c.Protocol, c.Hosts[i]) in reachable
    modifies c, c.Active
    ensures r.Success? && r.value in reachable
  {
    c.ReinstateAndRescan(i);
    var demoted;
    r, demoted := c.SendWithFailover(reachable);
  }

  /**
   * The constructor's guard on the scheme: any scheme other than http or
   * https is refused before a cluster exists.
   */
  method NewCluster(url: string, scheme: string, host: string) returns (r: Result<Cluster, ClusterError>)
    ensures r.Failure? <==> !SupportedScheme(scheme)
    ensures r.Failure? ==> r.error == UnsupportedScheme(scheme)
    ensures r.Success? ==> fresh(r.value) && fresh(r.value.Active) && r.value.Valid()
    ensures r.Success? ==> r.value.Protocol == scheme && r.value.Hosts == Strings.Split(host, ',')
    ensures r.Success? ==> r.value.Current == Some(0) && r.value.Url == url
    ensures r.Success? ==> forall i :: 0 <= i < r.value.Active.Length ==> r.value.Active[i]
  {
    if !SupportedScheme(scheme) {
      return Failure(UnsupportedScheme(scheme));
    }
    var c := new Cluster(url, scheme, host);
    r := Success(c);
  }
}
