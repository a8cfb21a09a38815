/** The output of the type generator: which Python definitions are written for a
    schema, and when they are refused. */
module TypeOutput {

  type Name = string

  /** What a field holds; `Ref` names a message, an enum or a map's entry type. */
  datatype Kind = Scalar(python: string) | Custom(python: string) | Ref(target: Name)

  datatype Field = Field(name: string, kind: Kind, repeated: bool)

  datatype Desc = Message(fields: seq<Field>) | Entry(key: Field, value: Field) | Enum(values: seq<string>)

  type Graph = map<Name, Desc>

  datatype Rpc = Rpc(name: string, input: Name, output: Name, streaming: bool)

  datatype Service = Service(full: Name, package: string, methods: seq<Rpc>)

  /** A type annotation of the generated module. */
  datatype Annotation =
    | Plain(python: string)
    | Quoted(class_: string)
    | ListOf(item: Annotation)
    | OptionalOf(item: Annotation)
    | DictOf(key: string, item: Annotation)

  datatype Line =
    | Constant(py: string, full: Name)
    | Literals(py: string, full: Name, values: seq<string>)
    | Record(py: string, full: Name, fields: seq<(string, Annotation)>, functional: bool)
    | Protocol(py: string, full: Name, methods: seq<Rpc>, signatures: seq<(string, string)>)

  /** How names are turned into Python: the package to strip and the keywords. */
  datatype Naming = Naming(package: string, keywords: set<string>) {

    function ClassName(full: Name): string {
      var inner := if package != "" && package + "." <= full then full[|package| + 1..] else full;
      var flat := Underscored(inner);
      if flat in keywords then flat + "_" else flat
    }
  }

  function Underscored(name: string): string {
    seq(|name|, i requires 0 <= i < |name| => if name[i] == '.' then '_' else name[i])
  }

  function Upper(name: string): string {
    seq(|name|, i requires 0 <= i < |name| => if 'a' <= name[i] <= 'z' then name[i] - 'a' + 'A' else name[i])
  }

  function ConstantName(class_: string): string {
    Upper(class_) + "_NAME"
  }

  predicate IsMap(g: Graph, f: Field) {
    f.kind.Ref? && f.repeated && f.kind.target in g && g[f.kind.target].Entry?
  }

  /** A schema as the descriptor pool guarantees it: references resolve, only a
      repeated field can refer to a map entry, and a map's value is neither
      repeated nor a map. */
  predicate WellFormed(g: Graph) {
    && (forall n :: n in g && g[n].Message? ==> forall i :: 0 <= i < |g[n].fields| ==> FieldFits(g, g[n].fields[i]))
    && (forall n :: n in g && g[n].Entry? ==> ValueFits(g, g[n].value))
  }

  predicate FieldFits(g: Graph, f: Field) {
    f.kind.Ref? ==> f.kind.target in g && (g[f.kind.target].Entry? ==> f.repeated)
  }

  predicate ValueFits(g: Graph, f: Field) {
    !f.repeated && (f.kind.Ref? ==> f.kind.target in g && !g[f.kind.target].Entry?)
  }

  function Simple(g: Graph, f: Field, naming: Naming): Annotation {
    var base := if f.kind.Ref? then Quoted(naming.ClassName(f.kind.target)) else Plain(f.kind.python);
    if f.repeated then ListOf(base)
    else if f.kind.Custom? || (f.kind.Ref? && f.kind.target in g && !g[f.kind.target].Enum?) then OptionalOf(base)
    else base
  }

  function Annotate(g: Graph, f: Field, naming: Naming): Annotation {
    if IsMap(g, f) then
      var entry := g[f.kind.target];
      DictOf(if entry.key.kind.Scalar? then entry.key.kind.python else "str", Simple(g, entry.value, naming))
    else
      Simple(g, f, naming)
  }

  function OwnTarget(f: Field): seq<Name> {
    if f.kind.Ref? then [f.kind.target] else []
  }

  /** The types a field makes the generator visit. */
  function Targets(g: Graph, f: Field): seq<Name> {
    OwnTarget(f) + if IsMap(g, f) then OwnTarget(g[f.kind.target].value) else []
  }

  /** The Python classes an annotation names. */
  function Mentions(a: Annotation): set<string> {
    match a
    case Plain(_) => {}
    case Quoted(c) => {c}
    case ListOf(item) => Mentions(item)
    case OptionalOf(item) => Mentions(item)
    case DictOf(_, item) => Mentions(item)
  }

  predicate LineMentions(l: Line, class_: string) {
    match l
    case Record(_, _, fields, _) => exists i :: 0 <= i < |fields| && class_ in Mentions(fields[i].1)
    case Protocol(_, _, _, signatures) =>
      exists i :: 0 <= i < |signatures| && (class_ == signatures[i].0 || class_ == signatures[i].1)
    case _ => false
  }

  predicate Leads(g: Graph, from: Name, to: Name) {
    from in g && g[from].Message? && exists i :: 0 <= i < |g[from].fields| && to in Targets(g, g[from].fields[i])
  }

  ghost predicate Path(g: Graph, path: seq<Name>) {
    path != [] && forall i :: 0 < i < |path| ==> Leads(g, path[i - 1], path[i])
  }

  predicate Root(services: seq<Service>, n: Name) {
    exists i, j :: 0 <= i < |services| && 0 <= j < |services[i].methods|
      && (n == services[i].methods[j].input || n == services[i].methods[j].output)
  }

  /** Some chain of fields leads from a method's request or response to `n`. */
  ghost predicate Reachable(g: Graph, services: seq<Service>, n: Name) {
    exists path :: Path(g, path) && Root(services, path[0]) && path[|path| - 1] == n
  }

  lemma ReachableRoot(g: Graph, services: seq<Service>, n: Name)
    requires Root(services, n)
    ensures Reachable(g, services, n)
  {
    assert Path(g, [n]);
  }

  lemma ReachableStep(g: Graph, services: seq<Service>, from: Name, to: Name)
    requires Reachable(g, services, from) && Leads(g, from, to)
    ensures Reachable(g, services, to)
  {
    var path :| Path(g, path) && Root(services, path[0]) && path[|path| - 1] == from;
    assert Path(g, path + [to]);
    assert (path + [to])[0] == path[0] && (path + [to])[|path|] == to;
  }

  ghost predicate Closed(g: Graph, s: set<Name>) {
    forall n, t :: n in s && Leads(g, n, t) ==> t in s
  }

  /** A closed set holding every root holds everything reachable. */
  lemma {:induction false} ClosedHolds(g: Graph, services: seq<Service>, s: set<Name>, path: seq<Name>)
    requires Closed(g, s) && forall n :: Root(services, n) ==> n in s
    requires Path(g, path) && Root(services, path[0])
    ensures path[|path| - 1] in s
    decreases |path|
  {
    if |path| > 1 {
      assert Path(g, path[..|path| - 1]);
      ClosedHolds(g, services, s, path[..|path| - 1]);
    }
  }

  /** A reference always lands inside the schema. */
  lemma LeadsInside(g: Graph, from: Name, to: Name)
    requires WellFormed(g) && Leads(g, from, to)
    ensures to in g
  {
    var i :| 0 <= i < |g[from].fields| && to in Targets(g, g[from].fields[i]);
    assert FieldFits(g, g[from].fields[i]);
  }

  lemma SimpleMentions(g: Graph, f: Field, naming: Naming, class_: string)
    requires class_ in Mentions(Simple(g, f, naming))
    ensures f.kind.Ref? && class_ == naming.ClassName(f.kind.target)
  {
  }

  /** What an annotation mentions is the class name of a type the field leads to,
      and never that of a map's entry. */
  lemma AnnotationMentions(g: Graph, f: Field, naming: Naming, class_: string) returns (t: Name)
    requires WellFormed(g) && FieldFits(g, f) && class_ in Mentions(Annotate(g, f, naming))
    ensures t in Targets(g, f) && t in g && !g[t].Entry? && class_ == naming.ClassName(t)
  {
    if IsMap(g, f) {
      var value := g[f.kind.target].value;
      assert ValueFits(g, value);
      SimpleMentions(g, value, naming, class_);
      t := value.kind.target;
      assert t in OwnTarget(value);
    } else {
      SimpleMentions(g, f, naming, class_);
      t := f.kind.target;
    }
  }

  // ---- what makes a generated module sound ----

  /** The types that get a definition of their own: all but map entries. */
  predicate Definable(g: Graph, n: Name) {
    n in g && !g[n].Entry?
  }

  predicate Collides(naming: Naming, a: Name, b: Name) {
    a != b && naming.ClassName(a) == naming.ClassName(b)
  }

  predicate UnpythonicRpc(services: seq<Service>, keywords: set<string>) {
    exists i, j :: 0 <= i < |services| && 0 <= j < |services[i].methods| && services[i].methods[j].name in keywords
  }

  predicate DefinesClass(l: Line, class_: string) {
    !l.Constant? && l.py == class_
  }

  /** Two different lines never define the same class, nor one protobuf name twice. */
  predicate ClassesDistinct(lines: seq<Line>) {
    forall i, j :: 0 <= i < j < |lines| && !lines[i].Constant? && !lines[j].Constant? ==>
      lines[i].py != lines[j].py && lines[i].full != lines[j].full
  }

  predicate Defined(lines: seq<Line>, full: Name) {
    exists i :: 0 <= i < |lines| && !lines[i].Constant? && lines[i].full == full
  }

  /** Every class a line mentions is defined by some line. */
  ghost predicate MentionsDefined(lines: seq<Line>) {
    forall i, c :: 0 <= i < |lines| && LineMentions(lines[i], c) ==>
      exists j :: 0 <= j < |lines| && DefinesClass(lines[j], c)
  }

  /** The line written for a type says exactly what its descriptor says. */
  predicate Faithful(g: Graph, naming: Naming, l: Line)
    requires l.full in g
  {
    match g[l.full]
    case Entry(_, _) => false
    case Enum(values) => l == Literals(naming.ClassName(l.full), l.full, values)
    case Message(fields) =>
      && l.Record? && l.py == naming.ClassName(l.full)
      && |l.fields| == |fields|
      && (forall i :: 0 <= i < |fields| ==> l.fields[i] == (fields[i].name, Annotate(g, fields[i], naming)))
      && (l.functional <==> exists i :: 0 <= i < |fields| && fields[i].name in naming.keywords)
  }

  function Signatures(methods: seq<Rpc>, naming: Naming): seq<(string, string)> {
    seq(|methods|, i requires 0 <= i < |methods| =>
      (naming.ClassName(methods[i].input), naming.ClassName(methods[i].output)))
  }

  function ProtocolLine(s: Service, naming: Naming): Line {
    Protocol(naming.ClassName(s.full), s.full, s.methods, Signatures(s.methods, naming))
  }

  function ConstantLine(full: Name, naming: Naming): Line {
    Constant(ConstantName(naming.ClassName(full)), full)
  }

  /** One package is stripped, and only when every service lives in it. */
  function StripPackage(services: seq<Service>): string {
    if services != [] && forall i :: 0 <= i < |services| ==> services[i].package == services[0].package
    then services[0].package else ""
  }

  predicate IsService(services: seq<Service>, n: Name) {
    exists i :: 0 <= i < |services| && services[i].full == n
  }

  /** Services as the pool guarantees them: names of their own, and methods over messages. */
  predicate ServicesFit(g: Graph, services: seq<Service>) {
    && (forall i, j :: 0 <= i < j < |services| ==> services[i].full != services[j].full)
    && (forall i :: 0 <= i < |services| ==> services[i].full !in g)
    && (forall i, j :: 0 <= i < |services| && 0 <= j < |services[i].methods| ==>
          Definable(g, services[i].methods[j].input) && Definable(g, services[i].methods[j].output))
  }

  /** The protobuf names a generation has to find Python names for. */
  ghost predicate Needed(g: Graph, services: seq<Service>, n: Name) {
    IsService(services, n) || (Definable(g, n) && Reachable(g, services, n))
  }

  ghost predicate NeededClash(g: Graph, services: seq<Service>, naming: Naming) {
    exists a, b :: Needed(g, services, a) && Needed(g, services, b) && Collides(naming, a, b)
  }

  predicate NamesDistinct(lines: seq<Line>) {
    forall i, j :: 0 <= i < j < |lines| ==> lines[i].py != lines[j].py
  }

  // ---- Python names ----

  /** A protobuf name that keeps its shape: in the stripped package, without
      underscores of its own, and not ending in a dot. */
  predicate PlainName(naming: Naming, n: Name) {
    && n != "" && '_' !in n && n[|n| - 1] != '.'
    && (naming.package == "" || (naming.package + "." <= n && |n| > |naming.package| + 1))
  }

  lemma UnderscoredIs(name: string)
    requires '_' !in name
    ensures |Underscored(name)| == |name|
    ensures forall i :: 0 <= i < |name| ==> (Underscored(name)[i] == '_' <==> name[i] == '.')
    ensures forall i :: 0 <= i < |name| && name[i] != '.' ==> Underscored(name)[i] == name[i]
  {
  }

  lemma UnderscoredInjective(a: string, b: string)
    requires '_' !in a && '_' !in b && Underscored(a) == Underscored(b)
    ensures a == b
  {
    UnderscoredIs(a);
    UnderscoredIs(b);
    forall i | 0 <= i < |a|
      ensures a[i] == b[i]
    {
      assert Underscored(a)[i] == Underscored(b)[i];
    }
  }

  /** Plain names never share a class name, so no generation over them is refused for
      a clash: only underscores, or names from outside the package, can cause one. */
  lemma PlainNamesDiffer(naming: Naming, a: Name, b: Name)
    requires PlainName(naming, a) && PlainName(naming, b)
    requires forall k :: k in naming.keywords ==> '_' !in k
    ensures !Collides(naming, a, b)
  {
    var inA := if naming.package != "" then a[|naming.package| + 1..] else a;
    var inB := if naming.package != "" then b[|naming.package| + 1..] else b;
    assert naming.package != "" ==> a == (naming.package + ".") + inA && b == (naming.package + ".") + inB;
    assert inA[|inA| - 1] == a[|a| - 1] && inB[|inB| - 1] == b[|b| - 1];
    UnderscoredIs(inA);
    UnderscoredIs(inB);
    var flatA, flatB := Underscored(inA), Underscored(inB);
    assert flatA[|flatA| - 1] != '_' && flatB[|flatB| - 1] != '_';
    if naming.ClassName(a) == naming.ClassName(b) {
      assert (flatA + "_")[|flatA|] == '_' && (flatB + "_")[|flatB|] == '_';
      assert (flatA + "_")[..|flatA|] == flatA && (flatB + "_")[..|flatB|] == flatB;
      UnderscoredInjective(inA, inB);
    }
  }

  /** A class name is one Python accepts: no dots, and no keyword. */
  lemma ClassNameIsLegal(naming: Naming, n: Name)
    requires forall k :: k in naming.keywords ==> '_' !in k
    ensures naming.ClassName(n) !in naming.keywords && '.' !in naming.ClassName(n)
  {
    var inner := if naming.package != "" && naming.package + "." <= n then n[|naming.package| + 1..] else n;
    var flat := Underscored(inner);
    assert (flat + "_")[|flat|] == '_';
  }
}
