/** Merging one Agent's activity over the gateway's replicas
    (internal/controller/agent_activity.go:232-262). */
module GatewayActivity {
  import opened Prelude

  type Time = nat
  type Name = string

  datatype Source = GatewayTraffic | AgentHeartbeat | Both

  datatype Record = Record(traffic: Option<Time>, heartbeat: Option<Time>)

  datatype Replica = Replica(agents: map<Name, Record>, startedAt: Time)

  function Times(t: Option<Time>): set<Time> {
    if t.Some? then {t.value} else {}
  }

  /** The times one replica holds for the Agent under its activity source. */
  function TimesOf(r: Replica, name: Name, source: Source): set<Time> {
    if name !in r.agents then {}
    else
      (if source.AgentHeartbeat? then {} else Times(r.agents[name].traffic))
      + (if source.GatewayTraffic? then {} else Times(r.agents[name].heartbeat))
  }

  function Recorded(replicas: seq<Replica>, name: Name, source: Source): set<Time> {
    set k, t | 0 <= k < |replicas| && t in TimesOf(replicas[k], name, source) :: t
  }

  /** What counts as activity: what the gateway saw pass, what the Agent reported of
      itself, or either, as the Agent's source says. */
  lemma RecordedIff(replicas: seq<Replica>, name: Name, source: Source, t: Time)
    ensures t in Recorded(replicas, name, source) <==>
            exists r :: r in replicas && name in r.agents &&
              match source
              case GatewayTraffic => r.agents[name].traffic == Some(t)
              case AgentHeartbeat => r.agents[name].heartbeat == Some(t)
              case Both => r.agents[name].traffic == Some(t) || r.agents[name].heartbeat == Some(t)
  {
    if t in Recorded(replicas, name, source) {
      var k :| 0 <= k < |replicas| && t in TimesOf(replicas[k], name, source);
      assert replicas[k] in replicas;
    }
    if r :| r in replicas && t in TimesOf(r, name, source) {
      var k :| 0 <= k < |replicas| && replicas[k] == r;
    }
  }

  ghost predicate IsNewest(times: set<Time>, t: Option<Time>) {
    match t
    case None => times == {}
    case Some(v) => v in times && forall u | u in times :: u <= v
  }

  function Newer(current: Option<Time>, candidate: Option<Time>): (r: Option<Time>)
    ensures forall s, t | IsNewest(s, current) && IsNewest(t, candidate) :: IsNewest(s + t, r)
  {
    if candidate.None? then current
    else if current.None? || candidate.value > current.value then candidate
    else current
  }

  lemma RecordedSnoc(replicas: seq<Replica>, k: nat, name: Name, source: Source)
    requires k < |replicas|
    ensures Recorded(replicas[..k + 1], name, source)
            == Recorded(replicas[..k], name, source) + TimesOf(replicas[k], name, source)
  {
    var a, b := Recorded(replicas[..k + 1], name, source), Recorded(replicas[..k], name, source);
    forall t | t in a ensures t in b + TimesOf(replicas[k], name, source) {
      var j :| 0 <= j < k + 1 && t in TimesOf(replicas[..k + 1][j], name, source);
      if j < k { assert replicas[..k][j] == replicas[j]; }
    }
    forall t | t in b ensures t in a {
      var j :| 0 <= j < k && t in TimesOf(replicas[..k][j], name, source);
      assert replicas[..k + 1][j] == replicas[..k][j];
    }
    forall t | t in TimesOf(replicas[k], name, source) ensures t in a {
      assert replicas[..k + 1][k] == replicas[k];
    }
  }

  lemma BothIsUnion(replicas: seq<Replica>, name: Name)
    ensures Recorded(replicas, name, Both) == Recorded(replicas, name, GatewayTraffic)
            + Recorded(replicas, name, AgentHeartbeat)
  {
    forall t | t in Recorded(replicas, name, Both)
      ensures t in Recorded(replicas, name, GatewayTraffic) + Recorded(replicas, name, AgentHeartbeat)
    {
      var k :| 0 <= k < |replicas| && t in TimesOf(replicas[k], name, Both);
      assert t in TimesOf(replicas[k], name, GatewayTraffic) || t in TimesOf(replicas[k], name, AgentHeartbeat);
    }
    forall t | t in Recorded(replicas, name, GatewayTraffic) ensures t in Recorded(replicas, name, Both) {
      var k :| 0 <= k < |replicas| && t in TimesOf(replicas[k], name, GatewayTraffic);
      assert t in TimesOf(replicas[k], name, Both);
    }
    forall t | t in Recorded(replicas, name, AgentHeartbeat) ensures t in Recorded(replicas, name, Both) {
      var k :| 0 <= k < |replicas| && t in TimesOf(replicas[k], name, AgentHeartbeat);
      assert t in TimesOf(replicas[k], name, Both);
    }
  }

  /** The times that are not older than the Agent. */
  function Since(times: set<Time>, created: Time): set<Time> {
    set t | t in times && t >= created
  }

  /** The newest time any replica holds under the Agent's source, among those not
      older than the Agent: cutting the newest cuts what cutting each would. */
  method MergedActivity(replicas: seq<Replica>, name: Name, source: Source, created: Time) returns (r: Option<Time>)
    ensures IsNewest(Since(Recorded(replicas, name, source), created), r)
  {
    var traffic: Option<Time>, heartbeat: Option<Time> := None, None;
    for k := 0 to |replicas|
      invariant IsNewest(Recorded(replicas[..k], name, GatewayTraffic), traffic)
      invariant IsNewest(Recorded(replicas[..k], name, AgentHeartbeat), heartbeat)
    {
      RecordedSnoc(replicas, k, name, GatewayTraffic);
      RecordedSnoc(replicas, k, name, AgentHeartbeat);
      if name in replicas[k].agents {
        var a := replicas[k].agents[name];
        assert IsNewest(TimesOf(replicas[k], name, GatewayTraffic), a.traffic);
        assert IsNewest(TimesOf(replicas[k], name, AgentHeartbeat), a.heartbeat);
        traffic := Newer(traffic, a.traffic);
        heartbeat := Newer(heartbeat, a.heartbeat);
      }
    }
    assert replicas[..|replicas|] == replicas;
    var picked;
    match source {
      case AgentHeartbeat => picked := heartbeat;
      case Both =>
        BothIsUnion(replicas, name);
        picked := Newer(traffic, heartbeat);
      case GatewayTraffic => picked := traffic;
    }
    assert IsNewest(Recorded(replicas, name, source), picked);
    r := if picked.Some? && picked.value < created then None else picked;
  }

  /** The merge depends only on which replicas answered, not on their order or on
      answers that repeat. */
  lemma MergeIgnoresOrder(a: seq<Replica>, b: seq<Replica>, name: Name, source: Source, created: Time,
      r: Option<Time>, s: Option<Time>)
    requires Elems(a) == Elems(b)
    requires IsNewest(Since(Recorded(a, name, source), created), r)
    requires IsNewest(Since(Recorded(b, name, source), created), s)
    ensures r == s
  {
    RecordedSubset(a, b, name, source);
    RecordedSubset(b, a, name, source);
    assert Recorded(a, name, source) == Recorded(b, name, source);
  }

  lemma RecordedSubset(a: seq<Replica>, b: seq<Replica>, name: Name, source: Source)
    requires Elems(a) == Elems(b)
    ensures Recorded(a, name, source) <= Recorded(b, name, source)
  {
    forall t | t in Recorded(a, name, source) ensures t in Recorded(b, name, source) {
      var k :| 0 <= k < |a| && t in TimesOf(a[k], name, source);
      assert a[k] in Elems(b);
      var j :| 0 <= j < |b| && b[j] == a[k];
    }
  }

  /** Whether some replica has been up for the idle timeout, so that its silence counts. */
  method Qualified(replicas: seq<Replica>, now: Time, idleTimeout: nat) returns (q: bool)
    ensures q <==> exists r :: r in replicas && now - r.startedAt >= idleTimeout
  {
    q := false;
    for k := 0 to |replicas|
      invariant !q
      invariant forall j | 0 <= j < k :: now - replicas[j].startedAt < idleTimeout
    {
      if now - replicas[k].startedAt >= idleTimeout { return true; }
    }
  }
}
