/** A whole generation: it is a closed reachability search, and it is refused
    exactly when two names collide or an rpc cannot be a Python method. */
module TypeGeneration {
  import opened TypeOutput
  import opened TypeEmitter

  ghost function Reach(g: Graph, services: seq<Service>): set<Name> {
    set n | n in g && Reachable(g, services, n)
  }

  lemma ReachClosed(g: Graph, services: seq<Service>)
    requires WellFormed(g)
    ensures Closed(g, Reach(g, services))
  {
    forall n, t | n in Reach(g, services) && Leads(g, n, t)
      ensures t in Reach(g, services)
    {
      LeadsInside(g, n, t);
      ReachableStep(g, services, n, t);
    }
  }

  /** What has been emitted once nothing is pending is everything reachable. */
  lemma SearchComplete(g: Graph, services: seq<Service>, emitted: set<Name>)
    requires emitted <= Reach(g, services) && LeadsOnly(g, emitted, emitted)
    requires forall n :: Root(services, n) ==> n in emitted
    ensures emitted == Reach(g, services)
    ensures forall n :: Reachable(g, services, n) ==> n in emitted
  {
    forall n | Reachable(g, services, n)
      ensures n in emitted
    {
      var path :| Path(g, path) && Root(services, path[0]) && path[|path| - 1] == n;
      assert Closed(g, emitted);
      ClosedHolds(g, services, emitted, path);
    }
  }

  /** Every needed name has one definition, so no two of them share a class. */
  lemma NoClash(g: Graph, services: seq<Service>, naming: Naming, lines: seq<Line>, emitted: set<Name>,
                claimed: map<string, Name>, served: set<Name>)
    requires Recorded(g, naming, lines, emitted, claimed, served)
    requires forall n :: Needed(g, services, n) ==> Known(g, emitted, served, n)
    ensures !NeededClash(g, services, naming)
  {
    forall a, b | Needed(g, services, a) && Needed(g, services, b)
      ensures !Collides(naming, a, b)
    {
      var i :| 0 <= i < |lines| && !lines[i].Constant? && lines[i].full == a;
      var j :| 0 <= j < |lines| && !lines[j].Constant? && lines[j].full == b;
      assert LineRecorded(g, lines[i], naming, emitted, claimed, served);
      assert LineRecorded(g, lines[j], naming, emitted, claimed, served);
    }
  }

  lemma AllMentionsDefined(g: Graph, naming: Naming, lines: seq<Line>, emitted: set<Name>, claimed: map<string, Name>,
                           served: set<Name>)
    requires Recorded(g, naming, lines, emitted, claimed, served)
    requires AllCovered(g, naming, lines, emitted)
    ensures MentionsDefined(lines)
  {
    forall i, c | 0 <= i < |lines| && LineMentions(lines[i], c)
      ensures exists j :: 0 <= j < |lines| && DefinesClass(lines[j], c)
    {
      assert Covered(g, naming, lines[i], emitted);
      var t :| t in emitted && Definable(g, t) && naming.ClassName(t) == c;
      var j :| 0 <= j < |lines| && !lines[j].Constant? && lines[j].full == t;
      assert LineRecorded(g, lines[j], naming, emitted, claimed, served);
      assert DefinesClass(lines[j], c);
    }
  }

  /** The constants of the services stay clear of each other and of every class. */
  ghost predicate ConstantsClear(g: Graph, services: seq<Service>, naming: Naming) {
    forall i, n :: 0 <= i < |services| && Needed(g, services, n) ==>
      var py := ConstantName(naming.ClassName(services[i].full));
      && py != naming.ClassName(n)
      && (IsService(services, n) && n != services[i].full ==> py != ConstantName(naming.ClassName(n)))
  }

  /** What a generation promises about the lines it returns. */
  ghost predicate Generated(g: Graph, services: seq<Service>, naming: Naming, lines: seq<Line>) {
    && (forall n :: Defined(lines, n) <==> Needed(g, services, n))
    && ClassesDistinct(lines)
    && MentionsDefined(lines)
    && (forall l :: l in lines && l.full in g ==> Faithful(g, naming, l))
    && (forall i :: 0 <= i < |services| ==>
          ConstantLine(services[i].full, naming) in lines && ProtocolLine(services[i], naming) in lines)
  }

  /** Where the generation stands when the first `k` services have been emitted. */
  ghost predicate Progress(g: Graph, services: seq<Service>, naming: Naming, k: nat, lines: seq<Line>,
                           emitted: set<Name>, served: set<Name>) {
    && k <= |services|
    && emitted <= Reach(g, services)
    && (forall n :: n in served <==> exists i :: 0 <= i < k && services[i].full == n)
    && (forall n :: Root(services[..k], n) ==> n in emitted)
    && (forall i, j :: 0 <= i < k && 0 <= j < |services[i].methods| ==> services[i].methods[j].name !in naming.keywords)
    && LeadsOnly(g, emitted, emitted)
    && AllCovered(g, naming, lines, emitted)
    && (forall i :: 0 <= i < k ==>
          ConstantLine(services[i].full, naming) in lines && ProtocolLine(services[i], naming) in lines)
  }

  lemma Advance(g: Graph, services: seq<Service>, naming: Naming, k: nat, lines: seq<Line>, emitted: set<Name>,
                served: set<Name>,
                after: seq<Line>, now: set<Name>)
    requires Progress(g, services, naming, k, lines, emitted, served) && k < |services|
    requires lines <= after && emitted <= now <= Reach(g, services)
    requires ConstantLine(services[k].full, naming) in after && ProtocolLine(services[k], naming) in after
    requires forall m :: m in services[k].methods ==> m.name !in naming.keywords && m.input in now && m.output in now
    requires AllCovered(g, naming, after[|lines|..], now) && LeadsOnly(g, now - emitted, now)
    ensures Progress(g, services, naming, k + 1, after, now, served + {services[k].full})
  {
    RootsGrow(services, k, now);
    assert after == lines + after[|lines|..];
    forall l | l in after
      ensures Covered(g, naming, l, now)
    {
      if l in lines { assert Covered(g, naming, l, emitted); }
    }
    forall j | 0 <= j < |services[k].methods|
      ensures services[k].methods[j].name !in naming.keywords
    {
      assert services[k].methods[j] in services[k].methods;
    }
  }

  method ExportPython(g: Graph, keywords: set<string>, services: seq<Service>) returns (ok: bool, lines: seq<Line>)
    requires WellFormed(g) && ServicesFit(g, services)
    ensures ok <==>
          !NeededClash(g, services, Naming(StripPackage(services), keywords)) && !UnpythonicRpc(services, keywords)
    ensures ok ==> Generated(g, services, Naming(StripPackage(services), keywords), lines)
    ensures ok ==> (NamesDistinct(lines) <==> ConstantsClear(g, services, Naming(StripPackage(services), keywords)))
  {
    var naming := Naming(StripPackage(services), keywords);
    var emitter := new Emitter(g, naming);
    ReachClosed(g, services);
    for k := 0 to |services|
      invariant fresh(emitter) && emitter.graph == g && emitter.naming == naming && emitter.Valid()
      invariant Progress(g, services, naming, k, emitter.lines, emitter.emitted, emitter.served)
    {
      RootsWithin(g, services, k);
      ghost var before, emitted, served := emitter.lines, emitter.emitted, emitter.served;
      ok := emitter.EmitService(services[k], Reach(g, services));
      if !ok {
        Refused(g, services, naming, k, emitter.emitted, emitter.served);
        return false, [];
      }
      Advance(g, services, naming, k, before, emitted, served, emitter.lines, emitter.emitted);
    }
    ok, lines := true, emitter.lines;
    Finish(g, services, naming, lines, emitter.emitted, emitter.claimed, emitter.served);
  }

  lemma RootsWithin(g: Graph, services: seq<Service>, k: nat)
    requires ServicesFit(g, services) && k < |services|
    ensures forall m :: m in services[k].methods ==>
      && m.input in Reach(g, services) && m.output in Reach(g, services)
      && Definable(g, m.input) && Definable(g, m.output)
  {
    forall m | m in services[k].methods
      ensures m.input in Reach(g, services) && m.output in Reach(g, services) && Definable(g, m.input)
      ensures Definable(g, m.output)
    {
      var j :| 0 <= j < |services[k].methods| && services[k].methods[j] == m;
      ReachableRoot(g, services, m.input);
      ReachableRoot(g, services, m.output);
    }
  }

  lemma RootsGrow(services: seq<Service>, k: nat, emitted: set<Name>)
    requires k < |services|
    requires forall n :: Root(services[..k], n) ==> n in emitted
    requires forall m :: m in services[k].methods ==> m.input in emitted && m.output in emitted
    ensures forall n :: Root(services[..k + 1], n) ==> n in emitted
  {
    forall n | Root(services[..k + 1], n)
      ensures n in emitted
    {
      var i, j :| 0 <= i < k + 1 && 0 <= j < |services[i].methods|
        && (n == services[i].methods[j].input || n == services[i].methods[j].output);
      if i < k {
        assert services[..k][i] == services[i];
        assert Root(services[..k], n);
      } else {
        assert services[k].methods[j] in services[k].methods;
      }
    }
  }

  /** A service that could not be emitted means the whole generation has to be refused. */
  lemma Refused(g: Graph, services: seq<Service>, naming: Naming, k: nat, emitted: set<Name>, served: set<Name>)
    requires k < |services| && emitted <= Reach(g, services)
    requires forall n :: n in served ==> IsService(services, n)
    requires Clash(g, naming, emitted, served) || exists m :: m in services[k].methods && m.name in naming.keywords
    ensures NeededClash(g, services, naming) || UnpythonicRpc(services, naming.keywords)
  {
    if Clash(g, naming, emitted, served) {
      var a, b :| Known(g, emitted, served, a) && Known(g, emitted, served, b) && Collides(naming, a, b);
      assert Needed(g, services, a) && Needed(g, services, b);
    } else {
      var m :| m in services[k].methods && m.name in naming.keywords;
      var j :| 0 <= j < |services[k].methods| && services[k].methods[j] == m;
    }
  }

  lemma Finish(g: Graph, services: seq<Service>, naming: Naming, lines: seq<Line>, emitted: set<Name>,
               claimed: map<string, Name>, served: set<Name>)
    requires Recorded(g, naming, lines, emitted, claimed, served) && Constants(lines, naming, served)
    requires Progress(g, services, naming, |services|, lines, emitted, served)
    ensures Generated(g, services, naming, lines)
    ensures !NeededClash(g, services, naming) && !UnpythonicRpc(services, naming.keywords)
    ensures NamesDistinct(lines) <==> ConstantsClear(g, services, naming)
  {
    assert services[..|services|] == services;
    SearchComplete(g, services, emitted);
    NoClash(g, services, naming, lines, emitted, claimed, served);
    AllMentionsDefined(g, naming, lines, emitted, claimed, served);
    forall n
      ensures Defined(lines, n) <==> Needed(g, services, n)
    {
      if Defined(lines, n) {
        var i :| 0 <= i < |lines| && !lines[i].Constant? && lines[i].full == n;
        assert LineRecorded(g, lines[i], naming, emitted, claimed, served);
      }
    }
    assert Generated(g, services, naming, lines) by {
      forall l | l in lines && l.full in g
        ensures Faithful(g, naming, l)
      {
        assert LineRecorded(g, l, naming, emitted, claimed, served);
      }
    }
    if ConstantsClear(g, services, naming) {
      DistinctIfClear(g, services, naming, lines, emitted, claimed, served);
    } else {
      ClearIfDistinct(g, services, naming, lines, emitted, claimed, served);
    }
  }

  lemma DistinctIfClear(g: Graph, services: seq<Service>, naming: Naming, lines: seq<Line>, emitted: set<Name>,
                        claimed: map<string, Name>, served: set<Name>)
    requires Recorded(g, naming, lines, emitted, claimed, served) && Constants(lines, naming, served)
    requires forall n :: Defined(lines, n) ==> Needed(g, services, n)
    requires forall n :: n in served <==> IsService(services, n)
    requires ConstantsClear(g, services, naming)
    ensures NamesDistinct(lines)
  {
    forall i, j | 0 <= i < |lines| && 0 <= j < |lines| && i != j
      ensures lines[i].py != lines[j].py
    {
      ApartIfClear(g, services, naming, lines, emitted, claimed, served, i, j);
      ApartIfClear(g, services, naming, lines, emitted, claimed, served, j, i);
    }
  }

  lemma ApartIfClear(g: Graph, services: seq<Service>, naming: Naming, lines: seq<Line>, emitted: set<Name>,
                     claimed: map<string, Name>, served: set<Name>,
                     i: nat, j: nat)
    requires Recorded(g, naming, lines, emitted, claimed, served) && Constants(lines, naming, served)
    requires forall n :: Defined(lines, n) ==> Needed(g, services, n)
    requires forall n :: n in served <==> IsService(services, n)
    requires ConstantsClear(g, services, naming)
    requires i < |lines| && j < |lines| && i != j
    ensures lines[i].Constant? || !lines[j].Constant? ==> lines[i].py != lines[j].py
  {
    var a, b := lines[i], lines[j];
    if a.Constant? {
      assert a in lines && IsService(services, a.full);
      var k :| 0 <= k < |services| && services[k].full == a.full;
      if b.Constant? {
        assert b in lines && IsService(services, b.full) && a.full != b.full;
        assert Needed(g, services, b.full);
      } else {
        assert LineRecorded(g, b, naming, emitted, claimed, served);
        assert Defined(lines, b.full);
      }
    }
  }

  lemma ClearIfDistinct(g: Graph, services: seq<Service>, naming: Naming, lines: seq<Line>, emitted: set<Name>,
                        claimed: map<string, Name>, served: set<Name>)
    requires Recorded(g, naming, lines, emitted, claimed, served) && Constants(lines, naming, served)
    requires forall n :: Needed(g, services, n) ==> Defined(lines, n)
    requires forall n :: n in served <==> IsService(services, n)
    requires !ConstantsClear(g, services, naming)
    ensures !NamesDistinct(lines)
  {
    var k, n :| 0 <= k < |services| && Needed(g, services, n)
      && (var py := ConstantName(naming.ClassName(services[k].full));
          py == naming.ClassName(n)
          || (IsService(services, n) && n != services[k].full && py == ConstantName(naming.ClassName(n))));
    assert IsService(services, services[k].full);
    var i :| 0 <= i < |lines| && lines[i] == ConstantLine(services[k].full, naming);
    if ConstantName(naming.ClassName(services[k].full)) == naming.ClassName(n) {
      var j :| 0 <= j < |lines| && !lines[j].Constant? && lines[j].full == n;
      assert LineRecorded(g, lines[j], naming, emitted, claimed, served);
      assert lines[i].py == lines[j].py && i != j;
    } else {
      var j :| 0 <= j < |lines| && lines[j] == ConstantLine(n, naming);
      assert lines[i].py == lines[j].py && i != j;
    }
  }

  /** Services `A` and `a` get two classes but one constant, `A_NAME`, and
      nothing refuses it. */
  lemma ConstantsCanClash() returns (g: Graph, services: seq<Service>)
    ensures WellFormed(g) && ServicesFit(g, services)
    ensures var naming := Naming(StripPackage(services), {});
      && !NeededClash(g, services, naming) && !UnpythonicRpc(services, {})
      && !ConstantsClear(g, services, naming)
  {
    g, services := map[], [Service("A", "", []), Service("a", "", [])];
    var naming := Naming("", {});
    assert StripPackage(services) == "";
    assert naming.ClassName("A") == "A" && naming.ClassName("a") == "a";
    forall n
      ensures Needed(g, services, n) ==> n == "A" || n == "a"
    {
    }
    assert Upper("A") == "A" && Upper("a") == "A";
    assert services[0].full == "A" && services[1].full == "a";
    assert IsService(services, "a");
    assert Needed(g, services, "a");
    assert ConstantName(naming.ClassName(services[0].full)) == ConstantName(naming.ClassName("a"));
  }
}
