/** What the generated definitions say: which Python values an annotation takes, what a
    signature takes and gives, and what a class is called. */
module TypeMeaning {
  import opened TypeOutput

  /** A Python value, as far as annotations tell values apart. */
  datatype Value =
    | Nothing
    | Atom(python: string)                    // an instance of a type that is not generated
    | Instance(class_: string)                // a value of a generated class or literal
    | Items(items: seq<Value>)
    | Entries(entries: seq<(Value, Value)>)

  predicate IsA(python: string, v: Value) {
    python == "Any" || v == Atom(python)
  }

  /** What type checkers make of an annotation. */
  predicate Belongs(a: Annotation, v: Value)
    decreases a
  {
    match a
    case Plain(python) => IsA(python, v)
    case Quoted(class_) => v == Instance(class_)
    case OptionalOf(item) => v == Nothing || Belongs(item, v)
    case ListOf(item) => v.Items? && forall i :: 0 <= i < |v.items| ==> Belongs(item, v.items[i])
    case DictOf(key, item) =>
      v.Entries? && forall i :: 0 <= i < |v.entries| ==> IsA(key, v.entries[i].0) && Belongs(item, v.entries[i].1)
  }

  /** One value of the field's kind. */
  predicate OneOf(naming: Naming, f: Field, v: Value) {
    match f.kind
    case Scalar(python) => IsA(python, v)
    case Custom(python) => IsA(python, v)
    case Ref(target) => v == Instance(naming.ClassName(target))
  }

  /** Sub-messages can be missing, custom values are sub-messages on the wire. */
  predicate CanBeMissing(g: Graph, f: Field) {
    f.kind.Custom? || (f.kind.Ref? && f.kind.target in g && g[f.kind.target].Message?)
  }

  predicate SingleFits(g: Graph, naming: Naming, f: Field, v: Value) {
    OneOf(naming, f, v) || (v == Nothing && CanBeMissing(g, f))
  }

  /** The values a field can have in Python: for a map a dict, for another repeated field
      a list, else one value, or None where there may be no sub-message. */
  predicate FieldTakes(g: Graph, naming: Naming, f: Field, v: Value) {
    if f.repeated && f.kind.Ref? && f.kind.target in g && g[f.kind.target].Entry? then
      var entry := g[f.kind.target];
      v.Entries? && forall i :: 0 <= i < |v.entries| ==>
        && IsA(if entry.key.kind.Scalar? then entry.key.kind.python else "str", v.entries[i].0)
        && SingleFits(g, naming, entry.value, v.entries[i].1)
    else if f.repeated then
      v.Items? && forall i :: 0 <= i < |v.items| ==> OneOf(naming, f, v.items[i])
    else
      SingleFits(g, naming, f, v)
  }

  lemma SimpleMeans(g: Graph, f: Field, naming: Naming, v: Value)
    requires f.kind.Ref? ==> f.kind.target in g && !g[f.kind.target].Entry?
    ensures Belongs(Simple(g, f, naming), v) <==>
      if f.repeated then v.Items? && forall i :: 0 <= i < |v.items| ==> OneOf(naming, f, v.items[i])
      else SingleFits(g, naming, f, v)
  {
  }

  /** A field's annotation takes exactly the values the field can have. */
  lemma AnnotationMeans(g: Graph, f: Field, naming: Naming, v: Value)
    requires WellFormed(g) && FieldFits(g, f)
    ensures Belongs(Annotate(g, f, naming), v) <==> FieldTakes(g, naming, f, v)
  {
    if IsMap(g, f) {
      var entry := g[f.kind.target];
      assert ValueFits(g, entry.value);
      if v.Entries? {
        forall i | 0 <= i < |v.entries|
          ensures var value := v.entries[i].1;
            Belongs(Simple(g, entry.value, naming), value) <==> SingleFits(g, naming, entry.value, value)
        {
          SimpleMeans(g, entry.value, naming, v.entries[i].1);
        }
      }
    } else {
      SimpleMeans(g, f, naming, v);
    }
  }

  /** In every generated module, for a message's class: one entry per field, under its
      name, that takes exactly what the field can have. */
  lemma RecordMeans(g: Graph, naming: Naming, l: Line, i: nat, v: Value)
    requires WellFormed(g) && l.full in g && Faithful(g, naming, l) && g[l.full].Message? && i < |g[l.full].fields|
    ensures l.Record? && |l.fields| == |g[l.full].fields|
    ensures l.fields[i].0 == g[l.full].fields[i].name
    ensures Belongs(l.fields[i].1, v) <==> FieldTakes(g, naming, g[l.full].fields[i], v)
  {
    assert FieldFits(g, g[l.full].fields[i]);
    AnnotationMeans(g, g[l.full].fields[i], naming, v);
  }

  /** In every generated module a service's protocol has one signature per method that
      takes its request's class and gives its response's. */
  lemma ProtocolMeans(s: Service, naming: Naming, i: nat)
    requires i < |s.methods|
    ensures var l := ProtocolLine(s, naming);
      && l.py == naming.ClassName(s.full) && |l.signatures| == |l.methods| == |s.methods|
      && l.methods[i] == s.methods[i]
      && l.signatures[i].0 == naming.ClassName(s.methods[i].input)
      && l.signatures[i].1 == naming.ClassName(s.methods[i].output)
  {
  }

  // ---- names ----

  predicate Suffixed(naming: Naming, name: string, flat: string) {
    name == if flat in naming.keywords then flat + "_" else flat
  }

  /** A type of the stripped package is called by the rest of its name, any other by all
      of it, with underscores for dots, and one more at the end for a keyword. */
  lemma ClassNameMeans(naming: Naming, rest: string, full: string)
    ensures naming.package != "" ==>
      Suffixed(naming, naming.ClassName(naming.package + "." + rest), Underscored(rest))
    ensures naming.package == "" || !(naming.package + "." <= full) ==>
      Suffixed(naming, naming.ClassName(full), Underscored(full))
    ensures |Underscored(full)| == |full|
    ensures forall i :: 0 <= i < |full| ==> Underscored(full)[i] == if full[i] == '.' then '_' else full[i]
  {
    if naming.package != "" {
      var whole := naming.package + "." + rest;
      assert whole[|naming.package| + 1..] == rest;
    }
  }

  /** The constant of a service is its class name in capitals. */
  lemma ConstantMeans(full: Name, naming: Naming)
    ensures var l := ConstantLine(full, naming); var class_ := naming.ClassName(full);
      && l.full == full && |l.py| == |class_| + 5 && l.py[|class_|..] == "_NAME"
      && forall i :: 0 <= i < |class_| ==>
        l.py[i] == if 'a' <= class_[i] <= 'z' then class_[i] - 'a' + 'A' else class_[i]
  {
  }

  /** A package is stripped exactly when it is the one package of all the services. */
  lemma StripMeans(services: seq<Service>, package: string)
    requires package != ""
    ensures StripPackage(services) == package <==>
      services != [] && forall i :: 0 <= i < |services| ==> services[i].package == package
  {
  }
}
