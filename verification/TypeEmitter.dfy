/** The recursive walk that writes the definitions. */
module TypeEmitter {
  import opened TypeOutput

  /** What a stretch of generated lines has to do with the walk's bookkeeping. */
  ghost predicate Recorded(g: Graph, naming: Naming, lines: seq<Line>, emitted: set<Name>, claimed: map<string, Name>,
                           served: set<Name>) {
    && (forall n :: n in emitted ==> n in g)
    && (forall n :: n in emitted && Definable(g, n) ==> Defined(lines, n))
    && (forall n :: n in served ==> n !in g && Defined(lines, n))
    && (forall l :: l in lines ==> LineRecorded(g, l, naming, emitted, claimed, served))
    && (forall py :: py in claimed ==> Defined(lines, claimed[py]) && naming.ClassName(claimed[py]) == py)
    && ClassesDistinct(lines)
  }

  ghost predicate LineRecorded(g: Graph, l: Line, naming: Naming, emitted: set<Name>, claimed: map<string, Name>,
                               served: set<Name>) {
    !l.Constant? ==>
      && Known(g, emitted, served, l.full)
      && l.py == naming.ClassName(l.full)
      && l.py in claimed && claimed[l.py] == l.full
      && (l.full in g ==> Faithful(g, naming, l))
  }

  /** The classes a line mentions belong to emitted types. */
  ghost predicate Covered(g: Graph, naming: Naming, l: Line, emitted: set<Name>) {
    forall c :: LineMentions(l, c) ==> exists t :: t in emitted && Definable(g, t) && naming.ClassName(t) == c
  }

  /** Two names already met want the same class. */
  ghost predicate Clash(g: Graph, naming: Naming, names: set<Name>, served: set<Name>) {
    exists a, b :: Known(g, names, served, a) && Known(g, names, served, b) && Collides(naming, a, b)
  }

  ghost predicate Known(g: Graph, names: set<Name>, served: set<Name>, n: Name) {
    n in served || (n in names && Definable(g, n))
  }

  lemma DefinedStays(lines: seq<Line>, more: seq<Line>, n: Name)
    requires Defined(lines, n)
    ensures Defined(lines + more, n)
  {
    var i :| 0 <= i < |lines| && !lines[i].Constant? && lines[i].full == n;
    assert (lines + more)[i] == lines[i];
  }

  /** A line for a freshly claimed name keeps the record. */
  lemma RecordLine(g: Graph, naming: Naming, lines: seq<Line>, emitted: set<Name>, claimed: map<string, Name>,
                   served: set<Name>,
                   l: Line, now: set<Name>, serving: set<Name>)
    requires Recorded(g, naming, lines, emitted, claimed, served)
    requires !l.Constant? && l.py == naming.ClassName(l.full)
    requires l.py in claimed ==> claimed[l.py] == l.full
    requires l.full !in emitted + served && (l.full in g ==> Faithful(g, naming, l))
    requires || (now == emitted + {l.full} && serving == served && Definable(g, l.full))
             || (now == emitted && serving == served + {l.full} && l.full !in g)
    ensures Recorded(g, naming, lines + [l], now, claimed[l.py := l.full], serving)
  {
    var all := lines + [l];
    assert all[|lines|] == l;
    assert Defined(all, l.full);
    forall n | Defined(lines, n)
      ensures Defined(all, n)
    {
      DefinedStays(lines, [l], n);
    }
    forall m | m in lines && !m.Constant?
      ensures m.full != l.full && m.py != l.py
    {
      assert LineRecorded(g, m, naming, emitted, claimed, served);
    }
    forall m | m in all
      ensures LineRecorded(g, m, naming, now, claimed[l.py := l.full], serving)
    {
      if m in lines { assert LineRecorded(g, m, naming, emitted, claimed, served); }
    }
  }

  /** Writing a constant changes nothing about the classes. */
  lemma RecordConstant(g: Graph, naming: Naming, lines: seq<Line>, emitted: set<Name>, claimed: map<string, Name>,
                       served: set<Name>, l: Line)
    requires Recorded(g, naming, lines, emitted, claimed, served) && l.Constant?
    ensures Recorded(g, naming, lines + [l], emitted, claimed, served)
  {
    forall n | Defined(lines, n)
      ensures Defined(lines + [l], n)
    {
      DefinedStays(lines, [l], n);
    }
  }

  /** Each service has one constant, and there are no others. */
  ghost predicate Constants(lines: seq<Line>, naming: Naming, served: set<Name>) {
    && (forall l :: l in lines && l.Constant? ==> l.full in served && l == ConstantLine(l.full, naming))
    && (forall n :: n in served ==> ConstantLine(n, naming) in lines)
    && (forall i, j :: 0 <= i < j < |lines| && lines[i].Constant? && lines[j].Constant? ==>
          lines[i].full != lines[j].full)
  }

  lemma ConstantsKept(lines: seq<Line>, naming: Naming, served: set<Name>, l: Line)
    requires Constants(lines, naming, served) && !l.Constant?
    ensures Constants(lines + [l], naming, served)
  {
  }

  lemma ConstantAdded(lines: seq<Line>, naming: Naming, served: set<Name>, n: Name)
    requires Constants(lines, naming, served) && n !in served
    ensures Constants(lines + [ConstantLine(n, naming)], naming, served + {n})
  {
    var all := lines + [ConstantLine(n, naming)];
    assert all[|lines|] == ConstantLine(n, naming);
    forall i, j | 0 <= i < j < |all| && all[i].Constant? && all[j].Constant?
      ensures all[i].full != all[j].full
    {
      assert all[i] in lines;
    }
  }

  ghost predicate AllCovered(g: Graph, naming: Naming, ls: seq<Line>, emitted: set<Name>) {
    forall l :: l in ls ==> Covered(g, naming, l, emitted)
  }

  /** Whatever `from` leads to is in `to`. */
  ghost predicate LeadsOnly(g: Graph, from: set<Name>, to: set<Name>) {
    forall n, t :: n in from && Leads(g, n, t) ==> t in to
  }

  /** A claim that fails names two known types with one class name. */
  lemma ClashFound(g: Graph, naming: Naming, lines: seq<Line>, emitted: set<Name>, claimed: map<string, Name>,
                   served: set<Name>,
                   full: Name, now: set<Name>, serving: set<Name>)
    requires Recorded(g, naming, lines, emitted, claimed, served)
    requires emitted <= now && served <= serving && Known(g, now, serving, full)
    requires naming.ClassName(full) in claimed && claimed[naming.ClassName(full)] != full
    ensures Clash(g, naming, now, serving)
  {
    var owner := claimed[naming.ClassName(full)];
    var i :| 0 <= i < |lines| && !lines[i].Constant? && lines[i].full == owner;
    assert LineRecorded(g, lines[i], naming, emitted, claimed, served);
    assert Known(g, now, serving, owner) && Collides(naming, full, owner);
  }

  /** A message's own line mentions only types its fields lead to. */
  lemma OwnLineCovered(g: Graph, naming: Naming, l: Line, full: Name, emitted: set<Name>)
    requires WellFormed(g) && full in g && g[full].Message? && l.Record?
    requires |l.fields| == |g[full].fields|
    requires forall i :: 0 <= i < |l.fields| ==> l.fields[i].1 == Annotate(g, g[full].fields[i], naming)
    requires forall t :: Leads(g, full, t) ==> t in emitted
    ensures Covered(g, naming, l, emitted)
  {
    forall c | LineMentions(l, c)
      ensures exists t :: t in emitted && Definable(g, t) && naming.ClassName(t) == c
    {
      var i :| 0 <= i < |l.fields| && c in Mentions(l.fields[i].1);
      assert FieldFits(g, g[full].fields[i]);
      var t := AnnotationMentions(g, g[full].fields[i], naming, c);
      assert Leads(g, full, t);
    }
  }

  lemma CoveredFrom(g: Graph, naming: Naming, start: seq<Line>, l: Line, lines: seq<Line>, emitted: set<Name>)
    requires start + [l] <= lines && Covered(g, naming, l, emitted)
    requires AllCovered(g, naming, lines[|start| + 1..], emitted)
    ensures start <= lines && AllCovered(g, naming, lines[|start|..], emitted)
  {
    assert lines[|start|] == (start + [l])[|start|] == l;
    assert lines[|start|..] == [l] + lines[|start| + 1..];
  }

  lemma FieldsLead(g: Graph, full: Name, pending: seq<Name>, within: set<Name>)
    requires WellFormed(g) && full in within && Closed(g, within)
    requires forall t :: t in pending <==> Leads(g, full, t)
    ensures forall t :: t in pending ==> t in g && t in within
  {
    forall t | t in pending
      ensures t in g && t in within
    {
      LeadsInside(g, full, t);
    }
  }

  lemma ServiceRecorded(g: Graph, naming: Naming, lines: seq<Line>, emitted: set<Name>, claimed: map<string, Name>,
                        served: set<Name>, s: Service)
    requires Recorded(g, naming, lines, emitted, claimed, served) && Constants(lines, naming, served)
    requires s.full !in g && s.full !in served
    requires naming.ClassName(s.full) in claimed ==> claimed[naming.ClassName(s.full)] == s.full
    ensures var all := lines + [ConstantLine(s.full, naming)] + [ProtocolLine(s, naming)];
      && Recorded(g, naming, all, emitted, claimed[naming.ClassName(s.full) := s.full], served + {s.full})
      && Constants(all, naming, served + {s.full})
  {
    var l := ConstantLine(s.full, naming);
    RecordConstant(g, naming, lines, emitted, claimed, served, l);
    RecordLine(g, naming, lines + [l], emitted, claimed, served, ProtocolLine(s, naming), emitted, served + {s.full});
    ConstantAdded(lines, naming, served, s.full);
    ConstantsKept(lines + [l], naming, served + {s.full}, ProtocolLine(s, naming));
  }

  lemma ProtocolCovered(g: Graph, naming: Naming, s: Service, emitted: set<Name>)
    requires forall m :: m in s.methods ==>
          m.input in emitted && m.output in emitted && Definable(g, m.input) && Definable(g, m.output)
    ensures Covered(g, naming, ProtocolLine(s, naming), emitted)
  {
    forall c | LineMentions(ProtocolLine(s, naming), c)
      ensures exists t :: t in emitted && Definable(g, t) && naming.ClassName(t) == c
    {
      var i :| && 0 <= i < |s.methods|
               && (c == naming.ClassName(s.methods[i].input) || c == naming.ClassName(s.methods[i].output));
      assert s.methods[i] in s.methods;
    }
  }

  class Emitter {
    const graph: Graph
    const naming: Naming
    var lines: seq<Line>
    var emitted: set<Name>
    /** Generated name to the protobuf name it came from. */
    var claimed: map<string, Name>
    ghost var served: set<Name>

    constructor (graph: Graph, naming: Naming)
      requires WellFormed(graph)
      ensures this.graph == graph && this.naming == naming
      ensures Valid() && lines == [] && emitted == {} && served == {}
    {
      this.graph, this.naming := graph, naming;
      lines, emitted, claimed, served := [], {}, map[], {};
    }

    ghost predicate Valid()
      reads this
    {
      && WellFormed(graph)
      && Recorded(graph, naming, lines, emitted, claimed, served)
      && Constants(lines, naming, served)
    }

    /** The annotation of a field, and the types it adds to the pending list. */
    method FieldType(f: Field, pending: seq<Name>) returns (annotation: Annotation, now: seq<Name>)
      ensures annotation == Annotate(graph, f, naming)
      ensures now == pending + Targets(graph, f)
    {
      now := pending;
      if f.kind.Ref? {
        now := now + [f.kind.target];
      }
      if IsMap(graph, f) {
        var entry := graph[f.kind.target];
        var value := Simple(graph, entry.value, naming);
        now := now + OwnTarget(entry.value);
        annotation := DictOf(if entry.key.kind.Scalar? then entry.key.kind.python else "str", value);
      } else {
        annotation := Simple(graph, f, naming);
      }
    }

    /** The Python name for a protobuf name, or a refusal when another name owns it. */
    method Claim(full: Name) returns (ok: bool, py: string)
      modifies this`claimed
      ensures py == naming.ClassName(full)
      ensures ok <==> (py in old(claimed) ==> old(claimed)[py] == full)
      ensures claimed == if ok then old(claimed)[py := full] else old(claimed)
    {
      py := naming.ClassName(full);
      if py !in claimed {
        claimed := claimed[py := full];
      }
      ok := claimed[py] == full;
    }

    method MessageFields(full: Name) returns (fields: seq<(string, Annotation)>, pending: seq<Name>, functional: bool)
      requires full in graph && graph[full].Message? && WellFormed(graph)
      ensures |fields| == |graph[full].fields|
      ensures forall i :: 0 <= i < |fields| ==>
        fields[i] == (graph[full].fields[i].name, Annotate(graph, graph[full].fields[i], naming))
      ensures forall t :: t in pending <==> Leads(graph, full, t)
      ensures functional <==> exists i :: 0 <= i < |fields| && fields[i].0 in naming.keywords
    {
      var declared := graph[full].fields;
      fields, pending, functional := [], [], false;
      for i := 0 to |declared|
        invariant |fields| == i
        invariant forall k :: 0 <= k < i ==> fields[k] == (declared[k].name, Annotate(graph, declared[k], naming))
        invariant forall t :: t in pending <==> exists k :: 0 <= k < i && t in Targets(graph, declared[k])
        invariant functional <==> exists k :: 0 <= k < i && fields[k].0 in naming.keywords
      {
        var annotation, now := FieldType(declared[i], pending);
        pending := now;
        fields := fields + [(declared[i].name, annotation)];
        functional := functional || declared[i].name in naming.keywords;
      }
    }

    /** Claims the line's name and writes the line, or refuses. */
    method Define(l: Line, ghost earlier: set<Name>) returns (ok: bool)
      requires WellFormed(graph) && Recorded(graph, naming, lines, earlier, claimed, served)
      requires !l.Constant? && l.py == naming.ClassName(l.full) && l.full !in earlier + served
      requires l.full in graph ==> Faithful(graph, naming, l)
      requires emitted == earlier + {l.full} && Definable(graph, l.full) && Constants(lines, naming, served)
      modifies this`lines, this`claimed
      ensures ok ==> Valid() && lines == old(lines) + [l]
      ensures !ok ==> Clash(graph, naming, emitted, served)
    {
      ghost var owners := claimed;
      var py;
      ok, py := Claim(l.full);
      if ok {
        RecordLine(graph, naming, lines, earlier, owners, served, l, emitted, served);
        ConstantsKept(lines, naming, served, l);
        lines := lines + [l];
      } else {
        ClashFound(graph, naming, lines, earlier, owners, served, l.full, emitted, served);
      }
    }

    /** Emits a type and, before returning, everything its fields lead to. */
    method EmitType(full: Name, ghost within: set<Name>) returns (ok: bool)
      requires Valid() && full in graph
      requires full in within && Closed(graph, within)
      modifies this`lines, this`emitted, this`claimed
      ensures old(emitted) <= emitted <= old(emitted) + within
      ensures ok ==> Valid() && full in emitted && old(lines) <= lines
      ensures ok ==> AllCovered(graph, naming, lines[|old(lines)|..], emitted)
      ensures ok ==> LeadsOnly(graph, emitted - old(emitted), emitted)
      ensures !ok ==> Clash(graph, naming, emitted, served)
      decreases graph.Keys - emitted, 0
    {
      if full in emitted {
        return true;
      }
      ghost var earlier := emitted;
      emitted := emitted + {full};
      match graph[full]
      case Entry(_, _) =>
        ok := true;
      case Enum(values) =>
        ok := Define(Literals(naming.ClassName(full), full, values), earlier);
      case Message(_) =>
        ok := EmitMessage(full, within, earlier);
    }

    method EmitMessage(full: Name, ghost within: set<Name>, ghost earlier: set<Name>) returns (ok: bool)
      requires WellFormed(graph) && Recorded(graph, naming, lines, earlier, claimed, served)
      requires full in graph && graph[full].Message? && full !in earlier + served && Constants(lines, naming, served)
      requires emitted == earlier + {full} && full in within && Closed(graph, within)
      modifies this`lines, this`emitted, this`claimed
      ensures old(emitted) <= emitted <= old(emitted) + within
      ensures ok ==> Valid() && old(lines) <= lines
      ensures ok ==> AllCovered(graph, naming, lines[|old(lines)|..], emitted)
      ensures ok ==> LeadsOnly(graph, emitted - earlier, emitted)
      ensures !ok ==> Clash(graph, naming, emitted, served)
      decreases graph.Keys - emitted, 2
    {
      var fields, pending, functional := MessageFields(full);
      var l := Record(naming.ClassName(full), full, fields, functional);
      ghost var start := lines;
      ok := Define(l, earlier);
      if ok {
        FieldsLead(graph, full, pending, within);
        ok := EmitAll(pending, within);
        if ok {
          OwnLineCovered(graph, naming, l, full, emitted);
          CoveredFrom(graph, naming, start, l, lines, emitted);
        }
      }
    }

    method EmitAll(names: seq<Name>, ghost within: set<Name>) returns (ok: bool)
      requires Valid() && Closed(graph, within)
      requires forall n :: n in names ==> n in graph && n in within
      modifies this`lines, this`emitted, this`claimed
      ensures old(emitted) <= emitted <= old(emitted) + within
      ensures ok ==> Valid() && (forall n :: n in names ==> n in emitted) && old(lines) <= lines
      ensures ok ==> AllCovered(graph, naming, lines[|old(lines)|..], emitted)
      ensures ok ==> LeadsOnly(graph, emitted - old(emitted), emitted)
      ensures !ok ==> Clash(graph, naming, emitted, served)
      decreases graph.Keys - emitted, 1
    {
      ghost var was, start := emitted, |lines|;
      for i := 0 to |names|
        invariant Valid()
        invariant was <= emitted <= was + within
        invariant forall n :: n in names[..i] ==> n in emitted
        invariant old(lines) <= lines
        invariant AllCovered(graph, naming, lines[start..], emitted)
        invariant LeadsOnly(graph, emitted - was, emitted)
      {
        ghost var middle, written := emitted, lines;
        ok := EmitType(names[i], within);
        if !ok { return; }
        assert names[..i + 1] == names[..i] + [names[i]];
        assert lines[start..] == written[start..] + lines[|written|..];
      }
      assert names[..|names|] == names;
      ok := true;
    }

    /** The constant and the protocol class of a service, then every type its
        methods need. */
    method EmitService(service: Service, ghost within: set<Name>) returns (ok: bool)
      requires Valid() && service.full !in graph && service.full !in served
      requires Closed(graph, within) && forall m :: m in service.methods ==>
        m.input in within && m.output in within && Definable(graph, m.input) && Definable(graph, m.output)
      modifies this
      ensures served == old(served) + {service.full}
      ensures old(emitted) <= emitted <= old(emitted) + within
      ensures ok ==> Valid() && old(lines) <= lines
      ensures ok ==> ConstantLine(service.full, naming) in lines && ProtocolLine(service, naming) in lines
      ensures ok ==> forall m :: m in service.methods ==>
            m.name !in naming.keywords && m.input in emitted && m.output in emitted
      ensures ok ==> AllCovered(graph, naming, lines[|old(lines)|..], emitted)
      ensures ok ==> LeadsOnly(graph, emitted - old(emitted), emitted)
      ensures !ok ==>
            Clash(graph, naming, emitted, served) || exists m :: m in service.methods && m.name in naming.keywords
    {
      ghost var start, owners, before := lines, claimed, served;
      served := served + {service.full};
      var claimOk, py := Claim(service.full);
      if !claimOk {
        ClashFound(graph, naming, lines, emitted, owners, before, service.full, emitted, served);
        return false;
      }
      lines := lines + [Constant(ConstantName(py), service.full)];
      var callable, signatures, types := MethodSignatures(service.methods);
      if !callable {
        return false;
      }
      var l := Protocol(py, service.full, service.methods, signatures);
      ServiceRecorded(graph, naming, start, emitted, owners, before, service);
      lines := lines + [l];
      ghost var written := start + [ConstantLine(service.full, naming)] + [l];
      assert written[|start|] == ConstantLine(service.full, naming) && written[|start| + 1] == l;
      ok := EmitAll(types, within);
      if ok {
        assert written <= lines && lines[|start|] == written[|start|] && lines[|start| + 1] == l;
        ProtocolCovered(graph, naming, service, emitted);
        CoveredFrom(graph, naming, start + [ConstantLine(service.full, naming)], l, lines, emitted);
        CoveredFrom(graph, naming, start, ConstantLine(service.full, naming), lines, emitted);
      }
    }

    /** A signature per method and the types to emit, unless some method cannot be
        a Python method. */
    method MethodSignatures(methods: seq<Rpc>) returns (ok: bool, signatures: seq<(string, string)>, types: seq<Name>)
      ensures ok <==> forall m :: m in methods ==> m.name !in naming.keywords
      ensures ok ==> signatures == Signatures(methods, naming)
      ensures ok ==> forall m :: m in methods ==> m.input in types && m.output in types
      ensures forall t :: t in types ==> exists m :: m in methods && (t == m.input || t == m.output)
    {
      signatures, types := [], [];
      for i := 0 to |methods|
        invariant signatures == Signatures(methods[..i], naming)
        invariant forall m :: m in methods[..i] ==> m.name !in naming.keywords && m.input in types && m.output in types
        invariant forall t :: t in types ==> exists m :: m in methods && (t == m.input || t == m.output)
      {
        var m := methods[i];
        if m.name in naming.keywords {
          return false, signatures, types;
        }
        assert methods[..i + 1] == methods[..i] + [m];
        signatures := signatures + [(naming.ClassName(m.input), naming.ClassName(m.output))];
        types := types + [m.input, m.output];
      }
      assert methods[..|methods|] == methods;
      ok := true;
    }
  }
}
