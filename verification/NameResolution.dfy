/** Binding type references: the innermost enclosing scope that knows the name wins. */
module NameResolution {
  import opened Common
  import opened ProtoSyntax

  /** What a reference may bind to: this file's names, those already loaded, and the
      registered custom types. */
  datatype World = World(names: Names, loaded: Names, customs: set<string>) {

    function KindOf(full: string): Option<DeclKind> {
      if full in names then Some(names[full])
      else if full in loaded then Some(loaded[full])
      else None
    }
  }

  /** What precedes the last dot, or nothing. */
  function Outer(scope: string): (r: string)
    ensures |r| <= |scope| && (scope != "" ==> |r| < |scope|)
  {
    if scope == "" then ""
    else if scope[|scope| - 1] == '.' then scope[..|scope| - 1]
    else Outer(scope[..|scope| - 1])
  }

  function Search(w: World, name: string, scope: string): Option<(DeclKind, string)>
    decreases |scope|
  {
    var candidate := Qualify(scope, name);
    if w.KindOf(candidate).Some? then Some((w.KindOf(candidate).value, candidate))
    else if scope == "" then None
    else Search(w, name, Outer(scope))
  }

  function ResolveName(w: World, name: string, scope: string): Option<(DeclKind, string)> {
    if name != "" && name[0] == '.' then
      var full := name[1..];
      if w.KindOf(full).Some? then Some((w.KindOf(full).value, full)) else None
    else
      Search(w, name, scope)
  }

  // ---- the rule ----

  /** `s` is the scope itself, one that encloses it, or the root. */
  predicate Encloses(s: string, scope: string) {
    s == scope || s == "" || s + "." <= scope
  }

  /** Known in the scope `s`, and in no longer scope around the reference. */
  ghost predicate Innermost(w: World, name: string, scope: string, s: string, kind: DeclKind) {
    && Encloses(s, scope)
    && w.KindOf(Qualify(s, name)) == Some(kind)
    && forall t :: Encloses(t, scope) && |t| > |s| ==> w.KindOf(Qualify(t, name)) == None
  }

  ghost predicate BindsTo(w: World, name: string, scope: string, kind: DeclKind, full: string) {
    if name != "" && name[0] == '.' then full == name[1..] && w.KindOf(full) == Some(kind)
    else exists s :: full == Qualify(s, name) && Innermost(w, name, scope, s, kind)
  }

  lemma {:induction false} OuterIsPrefix(scope: string)
    ensures Outer(scope) == "" || Outer(scope) + "." <= scope
    ensures forall k :: |Outer(scope)| < k < |scope| ==> scope[k] != '.'
    ensures Outer(scope) == "" && scope != "" && scope[0] != '.' ==> '.' !in scope
  {
    if scope != "" && scope[|scope| - 1] != '.' {
      OuterIsPrefix(scope[..|scope| - 1]);
    }
  }

  /** Going one scope out loses no enclosing scope but the one left. */
  lemma OuterEncloses(s: string, scope: string)
    requires scope != ""
    ensures Encloses(s, scope) <==> s == scope || Encloses(s, Outer(scope))
  {
    OuterIsPrefix(scope);
    var o := Outer(scope);
    if s != scope && s != "" && s + "." <= scope {
      assert scope[|s|] == '.';
      assert |s| <= |o|;
      if |s| < |o| { assert s + "." <= o; } else { assert s == o; }
    }
    if s != "" && s + "." <= o { assert s + "." <= scope; }
  }

  lemma LongestIsScope(s: string, scope: string)
    requires Encloses(s, scope)
    ensures s == scope || |s| < |scope|
  {
  }

  lemma {:induction false} SearchIsInnermost(w: World, name: string, scope: string)
    ensures Search(w, name, scope) == None <==> forall s :: Encloses(s, scope) ==> w.KindOf(Qualify(s, name)) == None
    ensures forall s, kind :: Innermost(w, name, scope, s, kind) ==>
          Search(w, name, scope) == Some((kind, Qualify(s, name)))
    ensures Search(w, name, scope).Some? ==>
      var (kind, full) := Search(w, name, scope).value;
      exists s :: Innermost(w, name, scope, s, kind) && full == Qualify(s, name)
    decreases |scope|
  {
    var here := w.KindOf(Qualify(scope, name));
    forall s | Encloses(s, scope)
      ensures s == scope || |s| < |scope|
    {
      LongestIsScope(s, scope);
    }
    if here.Some? {
      assert Encloses(scope, scope);
      assert Innermost(w, name, scope, scope, here.value);
    } else if scope != "" {
      SearchIsInnermost(w, name, Outer(scope));
      forall s
        ensures Encloses(s, scope) <==> s == scope || Encloses(s, Outer(scope))
      {
        OuterEncloses(s, scope);
      }
      forall s, kind
        ensures Innermost(w, name, scope, s, kind) <==> Innermost(w, name, Outer(scope), s, kind)
      {
        InnermostOutward(w, name, scope, s, kind);
      }
    }
  }

  lemma InnermostOutward(w: World, name: string, scope: string, s: string, kind: DeclKind)
    requires scope != "" && w.KindOf(Qualify(scope, name)) == None
    ensures Innermost(w, name, scope, s, kind) <==> Innermost(w, name, Outer(scope), s, kind)
  {
    forall t
      ensures Encloses(t, scope) <==> t == scope || Encloses(t, Outer(scope))
    {
      OuterEncloses(t, scope);
    }
  }

  /** A reference resolves exactly to what the innermost-scope rule binds it to. */
  lemma ResolvesByRule(w: World, name: string, scope: string, kind: DeclKind, full: string)
    ensures ResolveName(w, name, scope) == Some((kind, full)) <==> BindsTo(w, name, scope, kind, full)
  {
    SearchIsInnermost(w, name, scope);
  }

  // ---- descriptors ----

  function ResolveTy(w: World, ty: Ty): Option<Ty> {
    if !ty.Pending? then Some(ty)
    else match ResolveName(w, ty.name, ty.scope)
      case None => if ty.name in w.customs then Some(MessageTy(ty.name)) else None
      case Some((IsMessage, full)) => Some(MessageTy(full))
      case Some((IsEnum, full)) => Some(EnumTy(full))
      case Some((IsService, _)) => None
  }

  /** An rpc's argument has to be a message. */
  function ResolveArgument(w: World, ty: Ty): Option<Ty> {
    if !ty.Pending? then Some(ty)
    else match ResolveName(w, ty.name, ty.scope)
      case Some((IsMessage, full)) => Some(MessageTy(full))
      case _ => None
  }

  function ResolveFields(w: World, fields: seq<FieldD>): Option<seq<FieldD>> {
    if fields == [] then Some([])
    else match (ResolveTy(w, fields[0].ty), ResolveFields(w, fields[1..]))
      case (Some(ty), Some(rest)) => Some([fields[0].(ty := ty)] + rest)
      case _ => None
  }

  function ResolveMessage(w: World, m: MessageD): Option<MessageD>
    decreases m
  {
    match (ResolveFields(w, m.fields), ResolveMessages(w, m.nested))
    case (Some(fields), Some(nested)) => Some(m.(fields := fields, nested := nested))
    case _ => None
  }

  function ResolveMessages(w: World, ms: seq<MessageD>): Option<seq<MessageD>>
    decreases ms
  {
    if ms == [] then Some([])
    else match (ResolveMessage(w, ms[0]), ResolveMessages(w, ms[1..]))
      case (Some(m), Some(rest)) => Some([m] + rest)
      case _ => None
  }

  function ResolveMethods(w: World, methods: seq<MethodD>): Option<seq<MethodD>> {
    if methods == [] then Some([])
    else
      var m := methods[0];
      match (ResolveArgument(w, m.input), ResolveArgument(w, m.output), ResolveMethods(w, methods[1..]))
      case (Some(input), Some(output), Some(rest)) => Some([methods[0].(input := input, output := output)] + rest)
      case _ => None
  }

  function ResolveServices(w: World, services: seq<ServiceD>): Option<seq<ServiceD>> {
    if services == [] then Some([])
    else match (ResolveMethods(w, services[0].methods), ResolveServices(w, services[1..]))
      case (Some(methods), Some(rest)) => Some([services[0].(methods := methods)] + rest)
      case _ => None
  }

  function ResolveFile(w: World, f: FileD): Option<FileD> {
    match (ResolveMessages(w, f.messages), ResolveServices(w, f.services))
    case (Some(messages), Some(services)) => Some(f.(messages := messages, services := services))
    case _ => None
  }

  // ---- bound descriptors, by the rule ----

  ghost predicate Unbound(w: World, name: string, scope: string) {
    forall kind, full :: !BindsTo(w, name, scope, kind, full)
  }

  ghost predicate BoundTy(w: World, raw: Ty, ty: Ty) {
    match raw
    case Pending(name, scope) => (
      match ty
      case MessageTy(full) =>
        BindsTo(w, name, scope, IsMessage, full) || (Unbound(w, name, scope) && name in w.customs && full == name)
      case EnumTy(full) => BindsTo(w, name, scope, IsEnum, full)
      case _ => false)
    case _ => ty == raw
  }

  ghost predicate BoundArgument(w: World, raw: Ty, ty: Ty) {
    match raw
    case Pending(name, scope) => ty.MessageTy? && BindsTo(w, name, scope, IsMessage, ty.full)
    case _ => ty == raw
  }

  ghost predicate BoundFields(w: World, raw: seq<FieldD>, fields: seq<FieldD>) {
    && |fields| == |raw|
    && forall i :: 0 <= i < |raw| ==> fields[i] == raw[i].(ty := fields[i].ty) && BoundTy(w, raw[i].ty, fields[i].ty)
  }

  /** The same message with every reference bound, however deep. */
  ghost predicate BoundMessage(w: World, raw: MessageD, m: MessageD)
    decreases raw
  {
    && m == raw.(fields := m.fields, nested := m.nested)
    && BoundFields(w, raw.fields, m.fields)
    && |m.nested| == |raw.nested|
    && forall i :: 0 <= i < |raw.nested| ==> BoundMessage(w, raw.nested[i], m.nested[i])
  }

  ghost predicate BoundMethods(w: World, raw: seq<MethodD>, methods: seq<MethodD>) {
    && |methods| == |raw|
    && forall i :: 0 <= i < |raw| ==>
      && methods[i] == raw[i].(input := methods[i].input, output := methods[i].output)
      && BoundArgument(w, raw[i].input, methods[i].input) && BoundArgument(w, raw[i].output, methods[i].output)
  }

  ghost predicate BoundFile(w: World, raw: FileD, f: FileD) {
    && f == raw.(messages := f.messages, services := f.services)
    && |f.messages| == |raw.messages| && |f.services| == |raw.services|
    && (forall i :: 0 <= i < |raw.messages| ==> BoundMessage(w, raw.messages[i], f.messages[i]))
    && (forall i :: 0 <= i < |raw.services| ==>
          f.services[i] == raw.services[i].(methods := f.services[i].methods)
          && BoundMethods(w, raw.services[i].methods, f.services[i].methods))
  }

  lemma TyIff(w: World, raw: Ty, ty: Ty)
    ensures ResolveTy(w, raw) == Some(ty) <==> BoundTy(w, raw, ty)
    ensures ResolveArgument(w, raw) == Some(ty) <==> BoundArgument(w, raw, ty)
  {
    if raw.Pending? {
      forall kind, full
        ensures ResolveName(w, raw.name, raw.scope) == Some((kind, full)) <==>
              BindsTo(w, raw.name, raw.scope, kind, full)
      {
        ResolvesByRule(w, raw.name, raw.scope, kind, full);
      }
      var r := ResolveName(w, raw.name, raw.scope);
      if r.Some? { assert BindsTo(w, raw.name, raw.scope, r.value.0, r.value.1); }
    }
  }

  lemma {:induction false} FieldsIff(w: World, raw: seq<FieldD>, fields: seq<FieldD>)
    ensures ResolveFields(w, raw) == Some(fields) <==> BoundFields(w, raw, fields)
    decreases raw
  {
    if raw != [] && fields != [] {
      TyIff(w, raw[0].ty, fields[0].ty);
      FieldsIff(w, raw[1..], fields[1..]);
      assert fields == [fields[0]] + fields[1..];
      if && BoundFields(w, raw[1..], fields[1..])
         && fields[0] == raw[0].(ty := fields[0].ty) && BoundTy(w, raw[0].ty, fields[0].ty) {
        forall i | 0 < i < |raw|
          ensures fields[i] == raw[i].(ty := fields[i].ty) && BoundTy(w, raw[i].ty, fields[i].ty)
        {
          assert raw[i] == raw[1..][i - 1] && fields[i] == fields[1..][i - 1];
        }
      }
    }
  }

  lemma {:induction false} MessageIff(w: World, raw: MessageD, m: MessageD)
    ensures ResolveMessage(w, raw) == Some(m) <==> BoundMessage(w, raw, m)
    decreases raw
  {
    FieldsIff(w, raw.fields, m.fields);
    MessagesIff(w, raw.nested, m.nested);
  }

  lemma {:induction false} MessagesIff(w: World, raw: seq<MessageD>, ms: seq<MessageD>)
    ensures ResolveMessages(w, raw) == Some(ms)
      <==> |ms| == |raw| && forall i :: 0 <= i < |raw| ==> BoundMessage(w, raw[i], ms[i])
    decreases raw
  {
    if raw != [] && ms != [] {
      MessageIff(w, raw[0], ms[0]);
      MessagesIff(w, raw[1..], ms[1..]);
      assert ms == [ms[0]] + ms[1..];
    }
  }

  lemma {:induction false} MethodsIff(w: World, raw: seq<MethodD>, methods: seq<MethodD>)
    ensures ResolveMethods(w, raw) == Some(methods) <==> BoundMethods(w, raw, methods)
    decreases raw
  {
    if raw != [] && methods != [] {
      TyIff(w, raw[0].input, methods[0].input);
      TyIff(w, raw[0].output, methods[0].output);
      MethodsIff(w, raw[1..], methods[1..]);
      assert methods == [methods[0]] + methods[1..];
    }
  }

  ghost predicate BoundServices(w: World, raw: seq<ServiceD>, services: seq<ServiceD>) {
    && |services| == |raw|
    && forall i :: 0 <= i < |raw| ==>
      services[i] == raw[i].(methods := services[i].methods) && BoundMethods(w, raw[i].methods, services[i].methods)
  }

  lemma {:induction false} ServicesIff(w: World, raw: seq<ServiceD>, services: seq<ServiceD>)
    ensures ResolveServices(w, raw) == Some(services) <==> BoundServices(w, raw, services)
    decreases raw
  {
    if raw != [] && services != [] {
      MethodsIff(w, raw[0].methods, services[0].methods);
      ServicesIff(w, raw[1..], services[1..]);
      assert services == [services[0]] + services[1..];
    }
  }

  /** Resolution yields exactly the descriptor whose references are bound by the rule,
      and refuses when there is none. */
  lemma FileIff(w: World, raw: FileD, f: FileD)
    ensures ResolveFile(w, raw) == Some(f) <==> BoundFile(w, raw, f)
  {
    MessagesIff(w, raw.messages, f.messages);
    ServicesIff(w, raw.services, f.services);
  }

  // ---- how a file's references fail ----

  /** A reference to resolve: a field's type, or an rpc's argument. */
  datatype Reference = FieldRef(name: string, scope: string) | ArgumentRef(name: string, scope: string)

  /** An unknown type can still become known; a wrong one is an error at once. */
  datatype Verdict = Fine | Unknown | Wrong

  function Judge(w: World, r: Reference): Verdict {
    match (r, ResolveName(w, r.name, r.scope))
    case (FieldRef(name, _), None) => if name in w.customs then Fine else Unknown
    case (FieldRef(_, _), Some((kind, _))) => if kind == IsService then Wrong else Fine
    case (ArgumentRef(_, _), None) => Unknown
    case (ArgumentRef(_, _), Some((kind, _))) => if kind == IsMessage then Fine else Unknown
  }

  /** The first reference that does not resolve decides what is reported. */
  function FirstFailure(w: World, refs: seq<Reference>): Verdict {
    if refs == [] then Fine
    else if Judge(w, refs[0]) != Fine then Judge(w, refs[0])
    else FirstFailure(w, refs[1..])
  }

  lemma {:induction false} FirstFailureIs(w: World, refs: seq<Reference>)
    ensures FirstFailure(w, refs) == Fine <==> forall r :: r in refs ==> Judge(w, r) == Fine
    ensures FirstFailure(w, refs) != Fine ==> exists r :: r in refs && Judge(w, r) == FirstFailure(w, refs)
  {
    if refs != [] {
      FirstFailureIs(w, refs[1..]);
      assert refs == [refs[0]] + refs[1..];
    }
  }

  function FieldRefs(pending: seq<Ty>): (r: seq<Reference>)
    ensures forall name, scope :: FieldRef(name, scope) in r <==> Pending(name, scope) in pending
    ensures forall x :: x in r ==> x.FieldRef?
  {
    if pending == [] then []
    else (if pending[0].Pending? then [FieldRef(pending[0].name, pending[0].scope)] else []) + FieldRefs(pending[1..])
  }

  function RefOf(ty: Ty): seq<Reference> {
    if ty.Pending? then [ArgumentRef(ty.name, ty.scope)] else []
  }

  function MethodRefs(methods: seq<MethodD>): seq<Reference> {
    if methods == [] then [] else RefOf(methods[0].input) + RefOf(methods[0].output) + MethodRefs(methods[1..])
  }

  function ServiceRefs(services: seq<ServiceD>): seq<Reference> {
    if services == [] then [] else MethodRefs(services[0].methods) + ServiceRefs(services[1..])
  }

  /** The references in the order they are resolved: fields as they were met, then
      the rpcs of each service, request before response. */
  function RefsOf(file: FileD, ledger: Ledger): seq<Reference> {
    FieldRefs(ledger.pending) + ServiceRefs(file.services)
  }

  // ---- which references a descriptor holds ----

  function FieldTys(fields: seq<FieldD>): set<Ty> {
    set f | f in fields && f.ty.Pending? :: f.ty
  }

  function MessageTys(m: MessageD): set<Ty>
    decreases m
  {
    FieldTys(m.fields) + MessagesTys(m.nested)
  }

  function MessagesTys(ms: seq<MessageD>): set<Ty>
    decreases ms
  {
    if ms == [] then {} else MessageTys(ms[0]) + MessagesTys(ms[1..])
  }

  lemma FieldTysAppend(a: seq<FieldD>, b: seq<FieldD>)
    ensures FieldTys(a + b) == FieldTys(a) + FieldTys(b)
  {
  }

  lemma {:induction false} MessagesTysAppend(a: seq<MessageD>, m: MessageD)
    ensures MessagesTys(a + [m]) == MessagesTys(a) + MessageTys(m)
    decreases a
  {
    if a == [] {
      assert a + [m] == [m] && [m][1..] == [];
    } else {
      assert (a + [m])[1..] == a[1..] + [m];
      MessagesTysAppend(a[1..], m);
    }
  }

  lemma {:induction false} FieldsResolvable(w: World, fields: seq<FieldD>)
    ensures ResolveFields(w, fields).Some? <==> forall ty :: ty in FieldTys(fields) ==> ResolveTy(w, ty).Some?
    decreases fields
  {
    if fields != [] {
      FieldsResolvable(w, fields[1..]);
      assert fields == [fields[0]] + fields[1..];
      FieldTysAppend([fields[0]], fields[1..]);
      assert forall ty :: ty in FieldTys([fields[0]]) <==> ty == fields[0].ty && ty.Pending?;
    }
  }

  lemma {:induction false} MessageResolvable(w: World, m: MessageD)
    ensures ResolveMessage(w, m).Some? <==> forall ty :: ty in MessageTys(m) ==> ResolveTy(w, ty).Some?
    decreases m
  {
    FieldsResolvable(w, m.fields);
    MessagesResolvable(w, m.nested);
  }

  lemma {:induction false} MessagesResolvable(w: World, ms: seq<MessageD>)
    ensures ResolveMessages(w, ms).Some? <==> forall ty :: ty in MessagesTys(ms) ==> ResolveTy(w, ty).Some?
    decreases ms
  {
    if ms != [] {
      MessageResolvable(w, ms[0]);
      MessagesResolvable(w, ms[1..]);
    }
  }

  predicate AllFine(w: World, refs: seq<Reference>) {
    forall r :: r in refs ==> Judge(w, r) == Fine
  }

  lemma AllFineAppend(w: World, a: seq<Reference>, b: seq<Reference>)
    ensures AllFine(w, a + b) <==> AllFine(w, a) && AllFine(w, b)
  {
    assert forall r :: r in a || r in b ==> r in a + b;
  }

  lemma ArgumentResolvable(w: World, ty: Ty)
    ensures ResolveArgument(w, ty).Some? <==> AllFine(w, RefOf(ty))
  {
    if ty.Pending? { assert RefOf(ty)[0] in RefOf(ty); }
  }

  lemma {:induction false} PendingResolvable(w: World, pending: seq<Ty>)
    ensures AllFine(w, FieldRefs(pending)) <==> forall ty :: ty in pending ==> ResolveTy(w, ty).Some?
    decreases pending
  {
    if pending != [] {
      var ty := pending[0];
      var first := if ty.Pending? then [FieldRef(ty.name, ty.scope)] else [];
      PendingResolvable(w, pending[1..]);
      AllFineAppend(w, first, FieldRefs(pending[1..]));
      assert pending == [ty] + pending[1..];
      assert AllFine(w, first) <==> ResolveTy(w, ty).Some? by {
        if ty.Pending? { assert first[0] in first; }
      }
    }
  }

  lemma {:induction false} MethodsResolvable(w: World, methods: seq<MethodD>)
    ensures ResolveMethods(w, methods).Some? <==> AllFine(w, MethodRefs(methods))
    decreases methods
  {
    if methods != [] {
      var input, output := RefOf(methods[0].input), RefOf(methods[0].output);
      ArgumentResolvable(w, methods[0].input);
      ArgumentResolvable(w, methods[0].output);
      MethodsResolvable(w, methods[1..]);
      AllFineAppend(w, input + output, MethodRefs(methods[1..]));
      AllFineAppend(w, input, output);
    }
  }

  lemma {:induction false} ServicesResolvable(w: World, services: seq<ServiceD>)
    ensures ResolveServices(w, services).Some? <==> AllFine(w, ServiceRefs(services))
    decreases services
  {
    if services != [] {
      MethodsResolvable(w, services[0].methods);
      ServicesResolvable(w, services[1..]);
      AllFineAppend(w, MethodRefs(services[0].methods), ServiceRefs(services[1..]));
    }
  }

  /** The ledger holds exactly the field references of the file. */
  predicate Complete(file: FileD, ledger: Ledger) {
    (set ty | ty in ledger.pending) == MessagesTys(file.messages)
  }

  /** A file resolves exactly when none of its references fails. */
  lemma FileResolvable(w: World, file: FileD, ledger: Ledger)
    requires Complete(file, ledger)
    ensures ResolveFile(w, file).Some? <==> FirstFailure(w, RefsOf(file, ledger)) == Fine
  {
    MessagesResolvable(w, file.messages);
    ServicesResolvable(w, file.services);
    PendingResolvable(w, ledger.pending);
    AllFineAppend(w, FieldRefs(ledger.pending), ServiceRefs(file.services));
    FirstFailureIs(w, RefsOf(file, ledger));
    assert forall ty: Ty :: ty in MessagesTys(file.messages) <==> ty in ledger.pending;
  }

  // ---- a reference as a list of candidates ----

  function Outward(name: string, scope: string): seq<string>
    decreases |scope|
  {
    [Qualify(scope, name)] + if scope == "" then [] else Outward(name, Outer(scope))
  }

  /** The full names a reference may stand for, the innermost scope's first. */
  function Candidates(r: Reference): seq<string> {
    if r.name != "" && r.name[0] == '.' then [r.name[1..]] else Outward(r.name, r.scope)
  }

  /** The first candidate that is known; their number when none is. */
  function FirstKnown(w: World, cs: seq<string>): (i: nat)
    ensures i <= |cs|
    ensures forall h :: 0 <= h < i ==> w.KindOf(cs[h]) == None
    ensures i < |cs| ==> w.KindOf(cs[i]).Some?
  {
    if cs == [] || w.KindOf(cs[0]).Some? then 0 else 1 + FirstKnown(w, cs[1..])
  }

  lemma {:induction false} SearchIsFirst(w: World, name: string, scope: string)
    ensures var cs := Outward(name, scope); var i := FirstKnown(w, cs);
      Search(w, name, scope) == if i == |cs| then None else Some((w.KindOf(cs[i]).value, cs[i]))
    decreases |scope|
  {
    var cs := Outward(name, scope);
    if scope != "" {
      SearchIsFirst(w, name, Outer(scope));
      assert cs[1..] == Outward(name, Outer(scope));
    } else {
      assert cs[1..] == [];
    }
  }

  /** Resolving is taking the first candidate that is known. */
  lemma ResolvesFirst(w: World, r: Reference)
    ensures var cs := Candidates(r); var i := FirstKnown(w, cs);
      ResolveName(w, r.name, r.scope) == if i == |cs| then None else Some((w.KindOf(cs[i]).value, cs[i]))
  {
    if !(r.name != "" && r.name[0] == '.') { SearchIsFirst(w, r.name, r.scope); }
  }
}
