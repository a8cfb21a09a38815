/** The recursive-descent grammar, as functions over the tokens still to be read. */
module ProtoGrammar {
  import opened Common
  import opened ProtoSyntax

  /** What was read and what is left, or a refusal. */
  datatype Taken<+T> = Taken(value: T, rest: seq<Token>) | Bad {

    predicate IsFailure() {
      Bad?
    }

    function PropagateFailure<U>(): Taken<U>
      requires Bad?
    {
      Bad
    }

    function Extract(): (T, seq<Token>)
      requires Taken?
    {
      (value, rest)
    }
  }

  /** As `Taken`, with the ledger so far. */
  datatype Parsed<+T> = Parsed(value: T, rest: seq<Token>, ledger: Ledger) | Refused

  // ---- tokens ----

  function TextAt(ts: seq<Token>): string {
    if ts == [] then "" else ts[0].text
  }

  function Expect(ts: seq<Token>, text: string): (r: Taken<()>)
    ensures r.Taken? ==> |r.rest| < |ts|
  {
    if ts != [] && ts[0].text == text then Taken((), ts[1..]) else Bad
  }

  function Ident(ts: seq<Token>): (r: Taken<string>)
    ensures r.Taken? ==> |r.rest| < |ts|
  {
    if ts != [] && ts[0].Word? then Taken(ts[0].text, ts[1..]) else Bad
  }

  function SimpleIdent(ts: seq<Token>): (r: Taken<string>)
    ensures r.Taken? ==> |r.rest| < |ts|
  {
    if ts != [] && ts[0].Word? && '.' !in ts[0].text then Taken(ts[0].text, ts[1..]) else Bad
  }

  function Integer(ts: seq<Token>): (r: Taken<int>)
    ensures r.Taken? ==> |r.rest| < |ts|
  {
    if ts != [] && ts[0].Number? && ts[0].value.Some? then Taken(ts[0].value.value, ts[1..]) else Bad
  }

  function Accept(ts: seq<Token>, text: string): seq<Token> {
    if ts != [] && ts[0].text == text then ts[1..] else ts
  }

  function ModifierAt(ts: seq<Token>): Modifier {
    if TextAt(ts) == "repeated" then Repeated
    else if TextAt(ts) == "optional" then Optional
    else if TextAt(ts) == "required" then Required
    else Bare
  }

  // ---- fields ----

  datatype FieldHead = FieldHead(typeName: string, name: string, number: int)

  function ParseFieldHead(ts: seq<Token>): (r: Taken<FieldHead>)
    ensures r.Taken? ==> |r.rest| < |ts|
  {
    var (typeName, t1) :- Ident(ts);
    var (name, t2) :- SimpleIdent(t1);
    var (_, t3) :- Expect(t2, "=");
    var (number, t4) :- Integer(t3);
    var (_, t5) :- Expect(t4, ";");
    Taken(FieldHead(typeName, name, number), t5)
  }

  /** One field; the flag says that it is a proto3 optional one. */
  function ParseField(scalars: set<string>, proto3: bool, ts: seq<Token>, scope: string,
                      oneof: Option<nat>): (r: Taken<(FieldD, bool)>)
    ensures r.Taken? ==> |r.rest| < |ts|
  {
    var modifier := ModifierAt(ts);
    if oneof.Some? && (modifier.Repeated? || modifier.Required?) then Bad
    else
      var (head, rest) :- ParseFieldHead(if modifier.Bare? || ts == [] then ts else ts[1..]);
      var f := FieldD(head.name, JsonName(head.name), head.number, LabelOf(modifier),
        TypeOf(scalars, head.typeName, scope), oneof, false);
      Taken((f, proto3 && modifier.Optional? && oneof.None?), rest)
  }

  datatype MapHead = MapHead(key: string, value: string, name: string, number: int)

  /** `map < K , V` */
  function ParseMapTypes(ts: seq<Token>): (r: Taken<(string, string)>)
    ensures r.Taken? ==> |r.rest| < |ts|
  {
    var (_, t1) :- Expect(ts, "map");
    var (_, t2) :- Expect(t1, "<");
    var (key, t3) :- Ident(t2);
    var (_, t4) :- Expect(t3, ",");
    var (value, t5) :- Ident(t4);
    Taken((key, value), t5)
  }

  /** `> name = number ;` */
  function ParseMapName(ts: seq<Token>): (r: Taken<(string, int)>)
    ensures r.Taken? ==> |r.rest| < |ts|
  {
    var (_, t1) :- Expect(ts, ">");
    var (name, t2) :- SimpleIdent(t1);
    var (_, t3) :- Expect(t2, "=");
    var (number, t4) :- Integer(t3);
    var (_, t5) :- Expect(t4, ";");
    Taken((name, number), t5)
  }

  function ParseMapHead(scalars: set<string>, ts: seq<Token>): (r: Taken<MapHead>)
    ensures r.Taken? ==> |r.rest| < |ts|
  {
    var (types, t1) :- ParseMapTypes(ts);
    var (named, t2) :- ParseMapName(t1);
    if !KeyFits(scalars, types.0) then Bad else Taken(MapHead(types.0, types.1, named.0, named.1), t2)
  }

  // ---- oneofs ----

  function ParseMembers(scalars: set<string>, proto3: bool, ts: seq<Token>, scope: string, oneof: nat,
                        fields: seq<FieldD>): (r: Taken<seq<FieldD>>)
    ensures r.Taken? ==> |r.rest| < |ts| && |fields| <= |r.value|
    decreases |ts|
  {
    if ts == [] || ts[0].text == "option" || ts[0].text == "group" then Bad
    else if ts[0].text == "}" then Taken(fields, ts[1..])
    else if ts[0].text == ";" then ParseMembers(scalars, proto3, ts[1..], scope, oneof, fields)
    else
      var (field, rest) :- ParseField(scalars, proto3, ts, scope, Some(oneof));
      ParseMembers(scalars, proto3, rest, scope, oneof, fields + [field.0])
  }

  /** A braced block's opening: the keyword, a simple name and the brace. */
  function ParseHead(ts: seq<Token>, keyword: string): (r: Taken<string>)
    ensures r.Taken? ==> |r.rest| < |ts|
  {
    var (_, t1) :- Expect(ts, keyword);
    var (name, t2) :- SimpleIdent(t1);
    var (_, t3) :- Expect(t2, "{");
    Taken(name, t3)
  }

  // ---- enums ----

  /** A number, its sign a token of its own or not. */
  function ParseSigned(ts: seq<Token>): (r: Taken<int>)
    ensures r.Taken? ==> |r.rest| < |ts|
  {
    var (number, rest) :- Integer(Accept(ts, "-"));
    Taken(if TextAt(ts) == "-" then -number else number, rest)
  }

  function ParseValue(ts: seq<Token>): (r: Taken<ValueAst>)
    ensures r.Taken? ==> |r.rest| < |ts|
  {
    var (name, t1) :- SimpleIdent(ts);
    var (_, t2) :- Expect(t1, "=");
    var (number, t3) :- ParseSigned(t2);
    var (_, t4) :- Expect(t3, ";");
    Taken(ValueAst(name, number), t4)
  }

  function ParseValues(ts: seq<Token>, values: seq<ValueAst>): (r: Taken<seq<ValueAst>>)
    ensures r.Taken? ==> |r.rest| < |ts|
    decreases |ts|
  {
    if ts == [] || ts[0].text == "option" || ts[0].text == "reserved" then Bad
    else if ts[0].text == "}" then Taken(values, ts[1..])
    else if ts[0].text == ";" then ParseValues(ts[1..], values)
    else
      var (value, rest) :- ParseValue(ts);
      ParseValues(rest, values + [value])
  }

  function ParseEnum(proto3: bool, ts: seq<Token>, scope: string, ledger: Ledger): (r: Parsed<EnumD>)
    ensures r.Parsed? ==> |r.rest| < |ts|
  {
    match ParseHead(ts, "enum")
    case Bad => Refused
    case Taken(name, body) =>
      var full := Qualify(scope, name);
      if full in ledger.declared then Refused
      else match ParseValues(body, [])
        case Bad => Refused
        case Taken(values, rest) =>
          if proto3 && values != [] && values[0].number != 0 then Refused
          else Parsed(EnumD(name, values), rest, Declaring(ledger, full, IsEnum))
  }

  // ---- messages ----

  /** A message being read, and which of its fields are proto3 optional. */
  datatype Body = Body(m: MessageD, optional: seq<nat>)

  predicate Sound(b: Body) {
    forall i :: 0 <= i < |b.optional| ==> b.optional[i] < |b.m.fields|
  }

  /** At the closing brace each proto3 optional field gets a oneof of its own, after
      all those already there. */
  function Close(m: MessageD, optional: seq<nat>): MessageD
    requires Sound(Body(m, optional))
    decreases |optional|
  {
    if optional == [] then m
    else
      var i := optional[0];
      var field := m.fields[i].(oneof := Some(|m.oneofs|), proto3Optional := true);
      Close(m.(oneofs := m.oneofs + ["_" + m.fields[i].name], fields := m.fields[i := field]), optional[1..])
  }

  function ParseMessage(scalars: set<string>, proto3: bool, ts: seq<Token>, scope: string,
                        ledger: Ledger): (r: Parsed<MessageD>)
    ensures r.Parsed? ==> |r.rest| < |ts|
    decreases |ts|, 0
  {
    match ParseHead(ts, "message")
    case Bad => Refused
    case Taken(name, body) =>
      var full := Qualify(scope, name);
      if full in ledger.declared then Refused
      else ParseBody(scalars, proto3, body, Body(MessageD(name, [], [], [], [], false), []), full,
        Declaring(ledger, full, IsMessage))
  }

  function ParseBody(scalars: set<string>, proto3: bool, ts: seq<Token>, b: Body, full: string,
                     ledger: Ledger): (r: Parsed<MessageD>)
    requires Sound(b)
    ensures r.Parsed? ==> |r.rest| < |ts|
    decreases |ts|, 2
  {
    if ts == [] then Refused
    else if ts[0].text == "}" then Parsed(Close(b.m, b.optional), ts[1..], ledger)
    else match ParseItem(scalars, proto3, ts, b, full, ledger)
      case Refused => Refused
      case Parsed(next, rest, more) => ParseBody(scalars, proto3, rest, next, full, more)
  }

  /** One item of a message body, added to the message. */
  function ParseItem(scalars: set<string>, proto3: bool, ts: seq<Token>, b: Body, full: string,
                     ledger: Ledger): (r: Parsed<Body>)
    requires Sound(b) && ts != []
    ensures r.Parsed? ==> |r.rest| < |ts| && Sound(r.value)
    decreases |ts|, 1
  {
    var word := ts[0].text;
    if word == ";" then Parsed(b, ts[1..], ledger)
    else if word == "message" then
      (match ParseMessage(scalars, proto3, ts, full, ledger)
       case Refused => Refused
       case Parsed(m, rest, more) => Parsed(b.(m := b.m.(nested := b.m.nested + [m])), rest, more))
    else if word == "enum" then
      (match ParseEnum(proto3, ts, full, ledger)
       case Refused => Refused
       case Parsed(e, rest, more) => Parsed(b.(m := b.m.(enums := b.m.enums + [e])), rest, more))
    else if word == "oneof" then ParseOneof(scalars, proto3, ts, b, full, ledger)
    else if word == "map" && TextAt(ts[1..]) == "<" then ParseMap(scalars, ts, b, full, ledger)
    else if BodyWord(word) then Refused
    else ParsePlain(scalars, proto3, ts, b, full, ledger)
  }

  /** The types of new fields enter the ledger in the fields' order. */
  function ReferringAll(ledger: Ledger, fields: seq<FieldD>): Ledger
    decreases fields
  {
    if fields == [] then ledger else ReferringAll(Referring(ledger, fields[0].ty), fields[1..])
  }

  function ParseOneof(scalars: set<string>, proto3: bool, ts: seq<Token>, b: Body, full: string,
                      ledger: Ledger): (r: Parsed<Body>)
    requires Sound(b)
    ensures r.Parsed? ==> |r.rest| < |ts| && Sound(r.value)
  {
    match ParseHead(ts, "oneof")
    case Bad => Refused
    case Taken(name, members) =>
      match ParseMembers(scalars, proto3, members, full, |b.m.oneofs|, b.m.fields)
      case Bad => Refused
      case Taken(fields, rest) =>
        Parsed(b.(m := b.m.(oneofs := b.m.oneofs + [name], fields := fields)), rest,
          ReferringAll(ledger, fields[|b.m.fields|..]))
  }

  function ParseMap(scalars: set<string>, ts: seq<Token>, b: Body, full: string, ledger: Ledger): (r: Parsed<Body>)
    requires Sound(b)
    ensures r.Parsed? ==> |r.rest| < |ts| && Sound(r.value)
  {
    match ParseMapHead(scalars, ts)
    case Bad => Refused
    case Taken(head, rest) =>
      var entry := MapEntry(scalars, head.key, head.value, head.name, full);
      var field := MapField(head.name, head.number, full);
      Parsed(b.(m := b.m.(nested := b.m.nested + [entry], fields := b.m.fields + [field])), rest,
        Referring(Declaring(ledger, Qualify(full, entry.name), IsMessage), entry.fields[1].ty))
  }

  function ParsePlain(scalars: set<string>, proto3: bool, ts: seq<Token>, b: Body, full: string,
                      ledger: Ledger): (r: Parsed<Body>)
    requires Sound(b)
    ensures r.Parsed? ==> |r.rest| < |ts| && Sound(r.value)
  {
    match ParseField(scalars, proto3, ts, full, None)
    case Bad => Refused
    case Taken((field, synthetic), rest) =>
      Parsed(Body(b.m.(fields := b.m.fields + [field]), b.optional + if synthetic then [|b.m.fields|] else []), rest,
        Referring(ledger, field.ty))
  }

  // ---- services ----

  function ParseArgument(ts: seq<Token>): (r: Taken<(bool, string)>)
    ensures r.Taken? ==> |r.rest| < |ts|
  {
    var (_, t1) :- Expect(ts, "(");
    var (typeName, t2) :- Ident(Accept(t1, "stream"));
    var (_, t3) :- Expect(t2, ")");
    Taken((TextAt(t1) == "stream", typeName), t3)
  }

  function ParseRpcName(ts: seq<Token>): (r: Taken<string>)
    ensures r.Taken? ==> |r.rest| < |ts|
  {
    var (_, t1) :- Expect(ts, "rpc");
    var (name, t2) :- SimpleIdent(t1);
    Taken(name, t2)
  }

  function ParseRpc(ts: seq<Token>, package: string): (r: Taken<MethodD>)
    ensures r.Taken? ==> |r.rest| < |ts|
  {
    var (name, t2) :- ParseRpcName(ts);
    var (input, t3) :- ParseArgument(t2);
    var (_, t4) :- Expect(t3, "returns");
    var (output, t5) :- ParseArgument(t4);
    var (_, t6) :- ParseRpcEnd(t5);
    Taken(MethodD(name, input.0, Pending(input.1, package), output.0, Pending(output.1, package)), t6)
  }

  /** A semicolon, or a pair of braces with nothing but semicolons inside. */
  function ParseRpcEnd(ts: seq<Token>): (r: Taken<()>)
    ensures r.Taken? ==> |r.rest| < |ts|
  {
    if TextAt(ts) == "{" && ts != [] then ParseRpcBody(ts[1..]) else Expect(ts, ";")
  }

  function ParseRpcBody(ts: seq<Token>): (r: Taken<()>)
    ensures r.Taken? ==> |r.rest| < |ts|
    decreases |ts|
  {
    if ts == [] then Bad
    else if ts[0].text == "}" then Taken((), ts[1..])
    else if ts[0].text == ";" then ParseRpcBody(ts[1..])
    else Bad
  }

  function ParseRpcs(ts: seq<Token>, package: string, methods: seq<MethodD>): (r: Taken<seq<MethodD>>)
    ensures r.Taken? ==> |r.rest| < |ts|
    decreases |ts|
  {
    if ts == [] then Bad
    else if ts[0].text == "}" then Taken(methods, ts[1..])
    else if ts[0].text == ";" then ParseRpcs(ts[1..], package, methods)
    else
      var (method_, rest) :- ParseRpc(ts, package);
      ParseRpcs(rest, package, methods + [method_])
  }

  function ParseService(ts: seq<Token>, package: string, ledger: Ledger): (r: Parsed<ServiceD>)
    ensures r.Parsed? ==> |r.rest| < |ts|
  {
    match ParseHead(ts, "service")
    case Bad => Refused
    case Taken(name, body) =>
      var full := Qualify(package, name);
      if full in ledger.declared then Refused
      else match ParseRpcs(body, package, [])
        case Bad => Refused
        case Taken(methods, rest) => Parsed(ServiceD(name, methods), rest, Declaring(ledger, full, IsService))
  }

  // ---- files ----

  function ParseSyntax(ts: seq<Token>): (r: Taken<bool>)
    ensures r.Taken? ==> |r.rest| < |ts|
  {
    var (_, t1) :- Expect(ts, "syntax");
    var (_, t2) :- Expect(t1, "=");
    if t2 == [] || !t2[0].Quoted? || (t2[0].text != "proto2" && t2[0].text != "proto3") then Bad
    else
      var (_, t3) :- Expect(t2[1..], ";");
      Taken(t2[0].text == "proto3", t3)
  }

  function ParsePackage(ts: seq<Token>): (r: Taken<string>)
    ensures r.Taken? ==> |r.rest| < |ts|
  {
    var (_, t1) :- Expect(ts, "package");
    var (name, t2) :- Ident(t1);
    if name != "" && name[0] == '.' then Bad
    else
      var (_, t3) :- Expect(t2, ";");
      Taken(name, t3)
  }

  function ParseDecl(scalars: set<string>, ts: seq<Token>, file: FileD, ledger: Ledger): (r: Parsed<FileD>)
    requires ts != []
    ensures r.Parsed? ==> |r.rest| < |ts|
  {
    var word := ts[0].text;
    if word == ";" then Parsed(file, ts[1..], ledger)
    else if word == "syntax" then
      (match ParseSyntax(ts)
       case Bad => Refused
       case Taken(proto3, rest) => Parsed(file.(proto3 := proto3), rest, ledger))
    else if word == "package" then
      (match ParsePackage(ts)
       case Bad => Refused
       case Taken(package, rest) => Parsed(file.(package := package), rest, ledger))
    else if word == "message" then
      (match ParseMessage(scalars, file.proto3, ts, file.package, ledger)
       case Refused => Refused
       case Parsed(m, rest, more) => Parsed(file.(messages := file.messages + [m]), rest, more))
    else if word == "enum" then
      (match ParseEnum(file.proto3, ts, file.package, ledger)
       case Refused => Refused
       case Parsed(e, rest, more) => Parsed(file.(enums := file.enums + [e]), rest, more))
    else if word == "service" then
      (match ParseService(ts, file.package, ledger)
       case Refused => Refused
       case Parsed(s, rest, more) => Parsed(file.(services := file.services + [s]), rest, more))
    else Refused
  }

  /** All declarations up to the end of the tokens. */
  function ParseDecls(scalars: set<string>, ts: seq<Token>, file: FileD, ledger: Ledger): Parsed<FileD>
    decreases |ts|
  {
    if ts == [] then Parsed(file, [], ledger)
    else match ParseDecl(scalars, ts, file, ledger)
      case Refused => Refused
      case Parsed(next, rest, more) => ParseDecls(scalars, rest, next, more)
  }

  function ParseFile(scalars: set<string>, ts: seq<Token>): Parsed<FileD> {
    ParseDecls(scalars, ts, FileD("", false, [], [], []), EMPTY_LEDGER)
  }
}
