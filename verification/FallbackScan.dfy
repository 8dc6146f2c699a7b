/** The fallback eligibility scan
    (internal/controller/modelprovider_fallback_eligibility.go:112-166): a
    depth-first walk over a fallback graph that may have cycles, carrying a
    model name that the edges rewrite. */
module FallbackScan {
  import opened Prelude

  datatype Ref = Ref(name: string, modelMap: map<string, string>)

  /** A provider, with the caller namespaces it admits. */
  datatype Provider = Provider(name: string, fallback: seq<Ref>, models: seq<string>, admits: set<string>)

  type Providers = map<string, Provider>

  predicate Wf(ps: Providers) {
    forall n | n in ps :: ps[n].name == n
  }

  datatype Finding =
    | NamespaceFinding(child: string, ns: string)
    | ModelFinding(child: string, model: string, primaryModel: string)

  function Rewrite(r: Ref, model: string): string {
    if model in r.modelMap && r.modelMap[model] != "" then r.modelMap[model] else model
  }

  predicate Admitted(p: Provider, ns: string) {
    ns == "" || ns in p.admits
  }

  predicate Eligible(p: Provider, ns: string, model: string) {
    Admitted(p, ns) && model in p.models
  }

  // ---- routes ------------------------------------------------------------------

  /** Where the fallback references at the given indices lead from the primary,
      and the model they carry there, when every provider on the way exists and
      every one passed through, the primary aside, is eligible. */
  function Follow(ps: Providers, ns: string, primary: Provider, m: string, route: seq<nat>)
    : Option<(Provider, string)>
  {
    if route == [] then Some((primary, m))
    else
      var front, k := route[..|route| - 1], route[|route| - 1];
      match Follow(ps, ns, primary, m, front)
      case None => None
      case Some((p, model)) =>
        if (front != [] && !Eligible(p, ns, model)) || k >= |p.fallback| || p.fallback[k].name !in ps then None
        else Some((ps[p.fallback[k].name], Rewrite(p.fallback[k], model)))
  }

  /** The references at the given indices lead from the primary through these
      providers, all of which exist. */
  ghost predicate Leads(ps: Providers, primary: Provider, route: seq<nat>, stops: seq<Provider>) {
    && |stops| == |route| + 1 && stops[0] == primary
    && forall k | 0 <= k < |route| ::
         && route[k] < |stops[k].fallback| && stops[k].fallback[route[k]].name in ps
         && stops[k + 1] == ps[stops[k].fallback[route[k]].name]
  }

  /** On the way the model is what each reference's map says it becomes, and stays what
      it is where the map has no entry for it or an empty one; and every provider passed
      through admits the caller and offers the model it is carried as. */
  ghost predicate Carries(ps: Providers, ns: string, primary: Provider, m: string, route: seq<nat>,
                          stops: seq<Provider>, models: seq<string>)
  {
    && Leads(ps, primary, route, stops) && |models| == |stops| && models[0] == m
    && (forall k | 0 <= k < |route| ::
          var renames := stops[k].fallback[route[k]].modelMap;
          && (models[k] in renames && renames[models[k]] != "" ==> models[k + 1] == renames[models[k]])
          && (models[k] !in renames || renames[models[k]] == "" ==> models[k + 1] == models[k]))
    && (forall k | 0 < k < |route| :: (ns == "" || ns in stops[k].admits) && models[k] in stops[k].models)
  }

  /** Some such way leads to the provider with the model. */
  ghost predicate Arrives(ps: Providers, ns: string, primary: Provider, m: string, p: Provider, model: string) {
    exists route, stops, models :: Carries(ps, ns, primary, m, route, stops, models) && route != []
                                   && stops[|route|] == p && models[|route|] == model
  }

  lemma CarriesSnoc(ps: Providers, ns: string, primary: Provider, m: string, route: seq<nat>,
                    stops: seq<Provider>, models: seq<string>, k: nat)
    requires Carries(ps, ns, primary, m, route, stops, models)
    requires k < |stops[|route|].fallback| && stops[|route|].fallback[k].name in ps
    requires route != [] ==> Eligible(stops[|route|], ns, models[|route|])
    ensures var r := stops[|route|].fallback[k];
            Carries(ps, ns, primary, m, route + [k], stops + [ps[r.name]], models + [Rewrite(r, models[|route|])])
  {
    var r := stops[|route|].fallback[k];
    var route', stops', models' := route + [k], stops + [ps[r.name]], models + [Rewrite(r, models[|route|])];
    forall x | 0 <= x < |route'| ensures
      && route'[x] < |stops'[x].fallback| && stops'[x].fallback[route'[x]].name in ps
      && stops'[x + 1] == ps[stops'[x].fallback[route'[x]].name]
    {
      if x < |route| { assert stops'[x + 1] == stops[x + 1]; }
    }
    assert Leads(ps, primary, route', stops');
    forall x | 0 <= x < |route'| ensures
      var renames := stops'[x].fallback[route'[x]].modelMap;
      && (models'[x] in renames && renames[models'[x]] != "" ==> models'[x + 1] == renames[models'[x]])
      && (models'[x] !in renames || renames[models'[x]] == "" ==> models'[x + 1] == models'[x])
    {
      if x < |route| { assert models'[x + 1] == models[x + 1]; }
    }
  }

  /** What the walk follows is such a way. */
  lemma {:induction false} FollowCarries(ps: Providers, ns: string, primary: Provider, m: string, route: seq<nat>)
    returns (stops: seq<Provider>, models: seq<string>)
    requires Follow(ps, ns, primary, m, route).Some?
    ensures Carries(ps, ns, primary, m, route, stops, models)
    ensures Follow(ps, ns, primary, m, route) == Some((stops[|route|], models[|route|]))
  {
    if route == [] {
      stops, models := [primary], [m];
    } else {
      hide Carries, Eligible, Rewrite;
      var front, k := route[..|route| - 1], route[|route| - 1];
      var stops0, models0 := FollowCarries(ps, ns, primary, m, front);
      assert |stops0| == |models0| == |front| + 1 by { CarriesLengths(ps, ns, primary, m, front, stops0, models0); }
      CarriesSnoc(ps, ns, primary, m, front, stops0, models0, k);
      assert route == front + [k];
      var r := stops0[|front|].fallback[k];
      stops, models := stops0 + [ps[r.name]], models0 + [Rewrite(r, models0[|front|])];
    }
  }

  lemma CarriesLengths(ps: Providers, ns: string, primary: Provider, m: string, route: seq<nat>,
                       stops: seq<Provider>, models: seq<string>)
    requires Carries(ps, ns, primary, m, route, stops, models)
    ensures |stops| == |models| == |route| + 1
  {}

  lemma FollowArrives(ps: Providers, ns: string, primary: Provider, m: string, route: seq<nat>, p: Provider,
                      model: string)
    requires route != [] && Follow(ps, ns, primary, m, route) == Some((p, model))
    ensures Arrives(ps, ns, primary, m, p, model)
  {
    hide Follow, Carries;
    var stops, models := FollowCarries(ps, ns, primary, m, route);
    CarriesLengths(ps, ns, primary, m, route, stops, models);
  }

  // ---- what a walk leaves behind --------------------------------------------------

  /** The providers a walk visited, each with the model carried to it and how it got there. */
  datatype Tour = Tour(carried: map<string, string>, route: map<string, seq<nat>>)

  ghost predicate Routed(ps: Providers, ns: string, primary: Provider, m: string, t: Tour) {
    forall v | v in t.carried ::
      v in ps && v in t.route && t.route[v] != []
          && Follow(ps, ns, primary, m, t.route[v]) == Some((ps[v], t.carried[v]))
  }

  /** Every existing fallback of the provider has been visited. */
  ghost predicate Covers(ps: Providers, visited: set<string>, p: Provider) {
    forall r | r in p.fallback && r.name in ps :: r.name in visited
  }

  ghost predicate Done(ps: Providers, ns: string, visited: set<string>, carried: map<string, string>, v: string) {
    v in ps && v in carried && (Eligible(ps[v], ns, carried[v]) ==> Covers(ps, visited, ps[v]))
  }

  /** A finished walk: all of the primary's fallbacks and all those of eligible providers were visited. */
  ghost predicate IsTour(ps: Providers, ns: string, primary: Provider, m: string, t: Tour) {
    var visited := t.carried.Keys + {primary.name};
    && Routed(ps, ns, primary, m, t) && Covers(ps, visited, primary)
    && forall v | v in t.carried :: Done(ps, ns, visited, t.carried, v)
  }

  ghost function FindingsAt(p: Provider, ns: string, model: string, m: string): set<Finding> {
    (if Admitted(p, ns) then {} else {NamespaceFinding(p.name, ns)})
    + (if model in p.models then {} else {ModelFinding(p.name, model, m)})
  }

  ghost function Findings(ps: Providers, ns: string, m: string, carried: map<string, string>): set<Finding> {
    set v, f | v in carried && v in ps && f in FindingsAt(ps[v], ns, carried[v], m) :: f
  }

  lemma FindingsAdd(ps: Providers, ns: string, m: string, carried: map<string, string>, v: string, model: string)
    requires v in ps && v !in carried
    ensures Findings(ps, ns, m, carried[v := model]) == Findings(ps, ns, m, carried) + FindingsAt(ps[v], ns, model, m)
  {
    var c' := carried[v := model];
    forall f | f in Findings(ps, ns, m, c')
      ensures f in Findings(ps, ns, m, carried) + FindingsAt(ps[v], ns, model, m)
    {
      var u :| u in c' && u in ps && f in FindingsAt(ps[u], ns, c'[u], m);
      if u != v { assert u in carried && carried[u] == c'[u]; }
    }
    forall f | f in Findings(ps, ns, m, carried) ensures f in Findings(ps, ns, m, c') {
      var u :| u in carried && u in ps && f in FindingsAt(ps[u], ns, carried[u], m);
      assert u in c' && c'[u] == carried[u];
    }
    forall f | f in FindingsAt(ps[v], ns, model, m) ensures f in Findings(ps, ns, m, c') {
      assert v in c' && c'[v] == model;
    }
  }

  // ---- the walk -----------------------------------------------------------------------

  class Walker {
    const ps: Providers
    const primary: Provider
    const ns: string
    const m: string

    var visited: set<string>
    var found: set<Finding>

    ghost const before: set<Finding>
    ghost var tour: Tour

    ghost predicate Valid()
      reads this
    {
      && Wf(ps) && visited == tour.carried.Keys + {primary.name} && primary.name !in tour.carried
      && Routed(ps, ns, primary, m, tour)
      && found == before + Findings(ps, ns, m, tour.carried)
    }

    constructor (ps: Providers, primary: Provider, ns: string, m: string, found: set<Finding>)
      requires Wf(ps)
      ensures Valid() && tour == Tour(map[], map[]) && before == found
      ensures this.ps == ps && this.primary == primary && this.ns == ns && this.m == m
    {
      this.ps, this.primary, this.ns, this.m := ps, primary, ns, m;
      visited, this.found := {primary.name}, found;
      before, tour := found, Tour(map[], map[]);
    }

    /** Mark the child visited and report what is wrong with it. */
    method Visit(child: Provider, model: string, ghost route: seq<nat>) returns (eligible: bool)
      requires Valid() && child.name in ps && ps[child.name] == child && child.name !in visited
      requires route != [] && Follow(ps, ns, primary, m, route) == Some((child, model))
      modifies this
      ensures Valid() && eligible == Eligible(child, ns, model)
      ensures visited == old(visited) + {child.name}
      ensures tour.carried == old(tour.carried)[child.name := model]
    {
      hide Follow, Findings, FindingsAt, Routed;
      visited := visited + {child.name};
      FindingsAdd(ps, ns, m, tour.carried, child.name, model);
      RoutedAdd(ps, ns, primary, m, tour, child.name, model, route);
      var bad;
      eligible, bad := Judge(child, ns, model, m);
      found := found + bad;
      tour := Tour(tour.carried[child.name := model], tour.route[child.name := route]);
    }

    /** Walk the fallbacks of a provider the walk has reached: whatever exists among
        them ends up visited, and so do the fallbacks of every eligible provider met. */
    method Walk(parent: Provider, parentModel: string, ghost at: seq<nat>)
      requires Valid() && Follow(ps, ns, primary, m, at) == Some((parent, parentModel))
      requires at != [] ==> Eligible(parent, ns, parentModel)
      modifies this
      ensures Valid() && old(visited) <= visited && Covers(ps, visited, parent)
      ensures forall v | v in old(tour.carried) :: v in tour.carried && tour.carried[v] == old(tour.carried)[v]
      ensures forall v | v in visited - old(visited) :: Done(ps, ns, visited, tour.carried, v)
      decreases ps.Keys - visited
    {
      hide Follow, Findings, Routed, Eligible;
      for k := 0 to |parent.fallback|
        invariant Valid() && old(visited) <= visited
        invariant forall j | 0 <= j < k && parent.fallback[j].name in ps :: parent.fallback[j].name in visited
        invariant forall v | v in old(tour.carried) :: v in tour.carried && tour.carried[v] == old(tour.carried)[v]
        invariant forall v | v in visited - old(visited) :: Done(ps, ns, visited, tour.carried, v)
      {
        var ref := parent.fallback[k];
        if ref.name in ps && ref.name !in visited {
          var child := ps[ref.name];
          var model := Rewrite(ref, parentModel);
          FollowSnoc(ps, ns, primary, m, at, parent, parentModel, k);
          ghost var visited0, carried0 := visited, tour.carried;
          var eligible := Visit(child, model, at + [k]);
          if eligible { Walk(child, model, at + [k]); }
          forall v | v in visited0 - old(visited) ensures Done(ps, ns, visited, tour.carried, v) {
            DoneStays(ps, ns, visited0, carried0, visited, tour.carried, v);
          }
          assert Done(ps, ns, visited, tour.carried, child.name);
        }
      }
    }
  }

  method Judge(child: Provider, ns: string, model: string, m: string) returns (eligible: bool, bad: set<Finding>)
    ensures eligible == Eligible(child, ns, model) && bad == FindingsAt(child, ns, model, m)
  {
    eligible, bad := true, {};
    if ns != "" && ns !in child.admits {
      bad := bad + {NamespaceFinding(child.name, ns)};
      eligible := false;
    }
    if model !in child.models {
      bad := bad + {ModelFinding(child.name, model, m)};
      eligible := false;
    }
  }

  lemma DoneStays(ps: Providers, ns: string, visited: set<string>, carried: map<string, string>,
                  visited': set<string>, carried': map<string, string>, v: string)
    requires Done(ps, ns, visited, carried, v) && visited <= visited' && v in carried' && carried'[v] == carried[v]
    ensures Done(ps, ns, visited', carried', v)
  {}

  lemma RoutedAdd(ps: Providers, ns: string, primary: Provider, m: string, t: Tour, v: string, model: string,
      route: seq<nat>)
    requires Routed(ps, ns, primary, m, t) && v in ps && v !in t.carried
    requires route != [] && Follow(ps, ns, primary, m, route) == Some((ps[v], model))
    ensures Routed(ps, ns, primary, m, Tour(t.carried[v := model], t.route[v := route]))
  {
    hide Follow;
  }

  lemma FollowSnoc(ps: Providers, ns: string, primary: Provider, m: string, at: seq<nat>, p: Provider, model: string,
      k: nat)
    requires Follow(ps, ns, primary, m, at) == Some((p, model)) && (at != [] ==> Eligible(p, ns, model))
    requires k < |p.fallback| && p.fallback[k].name in ps
    ensures Follow(ps, ns, primary, m, at + [k]) == Some((ps[p.fallback[k].name], Rewrite(p.fallback[k], model)))
  {
    assert (at + [k])[..|at|] == at;
  }

  // ---- the scan ------------------------------------------------------------------------

  /** A caller to check for; with none, only the models are. */
  predicate Asks(callers: seq<string>, ns: string) {
    if callers == [] then ns == "" else ns in callers
  }

  /** The finding is true of a provider the gateway can come to with a model of the
      primary, over existing providers that are eligible up to it. */
  ghost predicate Justified(ps: Providers, primary: Provider, callers: seq<string>, f: Finding) {
    exists ns: string, m: string, p: Provider, model: string ::
      && Asks(callers, ns) && m in primary.models && Arrives(ps, ns, primary, m, p, model)
      && p.name == f.child
      && match f
         case NamespaceFinding(_, n) => n == ns && ns != "" && ns !in p.admits
         case ModelFinding(_, md, pm) => md == model && pm == m && model !in p.models
  }

  /** What one walk for a caller and a model came to: each provider on a way of eligible
      ones, with every existing fallback of the primary and of each eligible provider
      among them; and what is wrong with any of them is reported. */
  ghost predicate Surveyed(ps: Providers, primary: Provider, ns: string, m: string, found: set<Finding>,
                           carried: map<string, string>)
  {
    && (forall v | v in carried :: v in ps && Arrives(ps, ns, primary, m, ps[v], carried[v]))
    && (forall r | r in primary.fallback && r.name in ps :: r.name in carried || r.name == primary.name)
    && (forall v | v in carried && (ns == "" || ns in ps[v].admits) && carried[v] in ps[v].models ::
          forall r | r in ps[v].fallback && r.name in ps :: r.name in carried || r.name == primary.name)
    && (forall v | v in carried && ns != "" && ns !in ps[v].admits :: NamespaceFinding(v, ns) in found)
    && (forall v | v in carried && carried[v] !in ps[v].models :: ModelFinding(v, carried[v], m) in found)
  }

  ghost predicate Walked(ps: Providers, primary: Provider, ns: string, m: string, found: set<Finding>) {
    exists carried :: Surveyed(ps, primary, ns, m, found, carried)
  }

  lemma TourSurveys(ps: Providers, primary: Provider, ns: string, m: string, t: Tour, found: set<Finding>)
    requires Wf(ps) && IsTour(ps, ns, primary, m, t) && Findings(ps, ns, m, t.carried) <= found
    ensures Surveyed(ps, primary, ns, m, found, t.carried)
  {
    hide Follow, Arrives;
    forall v | v in t.carried ensures v in ps && Arrives(ps, ns, primary, m, ps[v], t.carried[v]) {
      FollowArrives(ps, ns, primary, m, t.route[v], ps[v], t.carried[v]);
    }
    forall v, f | v in t.carried && f in FindingsAt(ps[v], ns, t.carried[v], m) ensures f in found {
      assert f in Findings(ps, ns, m, t.carried);
    }
    assert forall v | v in t.carried :: Done(ps, ns, t.carried.Keys + {primary.name}, t.carried, v);
    forall v | v in t.carried && ns != "" && ns !in ps[v].admits ensures NamespaceFinding(v, ns) in found {
      assert NamespaceFinding(v, ns) in FindingsAt(ps[v], ns, t.carried[v], m);
    }
    forall v | v in t.carried && t.carried[v] !in ps[v].models ensures ModelFinding(v, t.carried[v], m) in found {
      assert ModelFinding(v, t.carried[v], m) in FindingsAt(ps[v], ns, t.carried[v], m);
    }
  }

  lemma SurveyGrows(ps: Providers, primary: Provider, ns: string, m: string, found: set<Finding>, more: set<Finding>)
    requires Walked(ps, primary, ns, m, found) && found <= more
    ensures Walked(ps, primary, ns, m, more)
  {
    hide Arrives;
    var carried :| Surveyed(ps, primary, ns, m, found, carried);
    assert Surveyed(ps, primary, ns, m, more, carried);
  }

  method OneWalk(ps: Providers, primary: Provider, ns: string, m: string, found: set<Finding>)
    returns (found': set<Finding>, ghost t: Tour)
    requires Wf(ps)
    ensures IsTour(ps, ns, primary, m, t) && found' == found + Findings(ps, ns, m, t.carried)
    ensures Walked(ps, primary, ns, m, found')
  {
    var w := new Walker(ps, primary, ns, m, found);
    w.Walk(primary, m, []);
    found', t := w.found, w.tour;
    TourSurveys(ps, primary, ns, m, t, found');
  }

  lemma TourJustifies(ps: Providers, primary: Provider, callers: seq<string>, ns: string, m: string, t: Tour,
      f: Finding)
    requires Wf(ps) && Routed(ps, ns, primary, m, t) && Asks(callers, ns) && m in primary.models
    requires f in Findings(ps, ns, m, t.carried)
    ensures Justified(ps, primary, callers, f)
  {
    hide Follow, Arrives, Asks;
    var v :| v in t.carried && v in ps && f in FindingsAt(ps[v], ns, t.carried[v], m);
    var p, model := ps[v], t.carried[v];
    FollowArrives(ps, ns, primary, m, t.route[v], p, model);
    assert p.name == f.child;
  }

  method FallbackIneligibility(primary: Provider, ps: Providers, callers: seq<string>) returns (found: set<Finding>)
    requires Wf(ps)
    ensures forall f | f in found :: Justified(ps, primary, callers, f)
    ensures forall ns, m | Asks(callers, ns) && m in primary.models :: Walked(ps, primary, ns, m, found)
  {
    hide Findings, Routed, IsTour, Justified, Walked;
    found := {};
    var namespaces := if callers == [] then [""] else callers;
    for i := 0 to |namespaces|
      invariant forall f | f in found :: Justified(ps, primary, callers, f)
      invariant forall a, m | 0 <= a < i && m in primary.models :: Walked(ps, primary, namespaces[a], m, found)
    {
      for j := 0 to |primary.models|
        invariant forall f | f in found :: Justified(ps, primary, callers, f)
        invariant forall a, m | 0 <= a < i && m in primary.models :: Walked(ps, primary, namespaces[a], m, found)
        invariant forall b | 0 <= b < j :: Walked(ps, primary, namespaces[i], primary.models[b], found)
      {
        ghost var t;
        var found';
        found', t := OneWalk(ps, primary, namespaces[i], primary.models[j], found);
        TourRouted(ps, namespaces[i], primary, primary.models[j], t);
        forall f | f in Findings(ps, namespaces[i], primary.models[j], t.carried)
          ensures Justified(ps, primary, callers, f)
        {
          TourJustifies(ps, primary, callers, namespaces[i], primary.models[j], t, f);
        }
        forall ns, m | Walked(ps, primary, ns, m, found) ensures Walked(ps, primary, ns, m, found') {
          SurveyGrows(ps, primary, ns, m, found, found');
        }
        found := found';
      }
    }
    assert forall ns | Asks(callers, ns) :: ns in namespaces;
  }

  lemma TourRouted(ps: Providers, ns: string, primary: Provider, m: string, t: Tour)
    requires IsTour(ps, ns, primary, m, t)
    ensures Routed(ps, ns, primary, m, t)
  {}

  // ---- an empty scan ------------------------------------------------------------------

  lemma {:induction false} SurveyReaches(ps: Providers, ns: string, primary: Provider, m: string,
      carried: map<string, string>, route: seq<nat>, stops: seq<Provider>)
    requires Wf(ps) && Surveyed(ps, primary, ns, m, {}, carried) && Leads(ps, primary, route, stops)
    requires primary.name in ps ==> ps[primary.name] == primary
    ensures var p := stops[|route|];
            p == primary || (p.name in carried && p.name in ps && ps[p.name] == p)
  {
    hide Arrives;
    if route != [] {
      var n := |route| - 1;
      SurveyReaches(ps, ns, primary, m, carried, route[..n], stops[..n + 1]);
      var p := stops[n];
      assert p == stops[..n + 1][n];
      assert p.fallback[route[n]] in p.fallback;
    }
  }

  /** When the scan of a provider with a model and a caller finds nothing, every
      provider that exists and can be reached over existing ones admits every caller,
      and it offers the model carried to it on a way of eligible providers. */
  lemma EmptyScanAdmitsAll(ps: Providers, primary: Provider, ns: string, m: string,
      route: seq<nat>, stops: seq<Provider>)
    requires Wf(ps) && Walked(ps, primary, ns, m, {})
    requires primary.name in ps ==> ps[primary.name] == primary
    requires Leads(ps, primary, route, stops) && stops[|route|] != primary
    ensures var p := stops[|route|];
            && (ns == "" || ns in p.admits)
            && exists model :: Arrives(ps, ns, primary, m, p, model) && model in p.models
  {
    hide Arrives;
    var carried :| Surveyed(ps, primary, ns, m, {}, carried);
    SurveyReaches(ps, ns, primary, m, carried, route, stops);
    var p := stops[|route|];
    assert Arrives(ps, ns, primary, m, p, carried[p.name]);
  }
}
