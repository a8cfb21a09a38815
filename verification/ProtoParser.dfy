/** The parser itself: a cursor moved over the tokens, names and declarations
    collected as it goes. */
module ProtoParser {
  import opened Common
  import opened ProtoSyntax
  import opened ProtoGrammar
  import opened NameResolution
  import opened ProtoReferences

  /** What parsing a text comes to. */
  datatype Compiled = Built(file: FileD, names: Names) | UnknownType | Invalid

  /** The whole parser: read every token, then bind every reference. */
  function Compile(scalars: set<string>, loaded: Names, customs: set<string>, ts: seq<Token>): Compiled {
    match ParseFile(scalars, ts)
    case Refused => Invalid
    case Parsed(file, _, ledger) => Resolve(World(ledger.declared, loaded, customs), file, ledger)
  }

  function Resolve(w: World, file: FileD, ledger: Ledger): Compiled {
    match ResolveFile(w, file)
    case Some(bound) => Built(bound, ledger.declared)
    case None => if FirstFailure(w, RefsOf(file, ledger)) == Wrong then Invalid else UnknownType
  }

  lemma {:induction false} ReferringOneMore(ledger: Ledger, fields: seq<FieldD>, f: FieldD)
    ensures ReferringAll(ledger, fields + [f]) == Referring(ReferringAll(ledger, fields), f.ty)
    decreases fields
  {
    if fields == [] {
      assert fields + [f] == [f] && [f][1..] == [];
    } else {
      assert (fields + [f])[1..] == fields[1..] + [f];
      ReferringOneMore(Referring(ledger, fields[0].ty), fields[1..], f);
    }
  }

  class Parser {
    const tokens: seq<Token>
    const scalars: set<string>
    const loaded: Names
    const customs: set<string>
    var pos: nat
    /** Every message, enum and service this file declares so far. */
    var declared: Names
    /** The field types met so far that are still to be resolved. */
    var pendingFields: seq<Ty>
    var file: FileD

    constructor (tokens: seq<Token>, scalars: set<string>, loaded: Names, customs: set<string>)
      ensures Valid() && pos == 0 && LedgerView() == EMPTY_LEDGER && file == FileD("", false, [], [], [])
      ensures this.tokens == tokens && this.scalars == scalars && this.loaded == loaded && this.customs == customs
    {
      this.tokens, this.scalars, this.loaded, this.customs := tokens, scalars, loaded, customs;
      pos, declared, pendingFields, file := 0, map[], [], FileD("", false, [], [], []);
    }

    ghost predicate Valid()
      reads this
    {
      pos <= |tokens|
    }

    /** What has not been read yet. */
    ghost function Rest(): seq<Token>
      requires Valid()
      reads this
    {
      tokens[pos..]
    }

    ghost function LedgerView(): Ledger
      reads this
    {
      Ledger(declared, pendingFields)
    }

    /** The cursor stands where the grammar says, having read what it says. */
    ghost predicate Did<T(!new)>(g: Taken<T>, ok: bool, value: T)
      requires Valid()
      reads this
    {
      if ok then g == Taken(value, Rest()) else g == Bad
    }

    ghost predicate DidDeclare<T(!new)>(g: Parsed<T>, ok: bool, value: T)
      requires Valid()
      reads this
    {
      if ok then g == Parsed(value, Rest(), LedgerView()) else g == Refused
    }

    // ---- tokens ----

    /** The text under the cursor; nothing at the end. */
    function Peek(): (text: string)
      requires Valid()
      reads this
      ensures text == TextAt(Rest())
    {
      if pos == |tokens| then "" else tokens[pos].text
    }

    function AtEnd(): (end: bool)
      requires Valid()
      reads this
      ensures end <==> Rest() == []
    {
      pos == |tokens|
    }

    method Next()
      requires Valid() && Rest() != []
      modifies this`pos
      ensures Valid() && pos == old(pos) + 1 && Rest() == old(Rest())[1..]
    {
      pos := pos + 1;
    }

    method Expect(text: string) returns (ok: bool)
      requires Valid()
      modifies this`pos
      ensures Valid() && Did(ProtoGrammar.Expect(old(Rest()), text), ok, ())
    {
      ok := !AtEnd() && Peek() == text;
      if ok { Next(); }
    }

    method Accept(text: string) returns (accepted: bool)
      requires Valid()
      modifies this`pos
      ensures Valid() && Rest() == ProtoGrammar.Accept(old(Rest()), text)
      ensures text != "" ==> (accepted <==> TextAt(old(Rest())) == text)
    {
      accepted := !AtEnd() && Peek() == text;
      if accepted { Next(); }
    }

    method Ident() returns (ok: bool, name: string)
      requires Valid()
      modifies this`pos
      ensures Valid() && Did(ProtoGrammar.Ident(old(Rest())), ok, name)
    {
      ok, name := !AtEnd() && tokens[pos].Word?, "";
      if ok {
        name := tokens[pos].text;
        Next();
      }
    }

    method SimpleIdent() returns (ok: bool, name: string)
      requires Valid()
      modifies this`pos
      ensures Valid() && Did(ProtoGrammar.SimpleIdent(old(Rest())), ok, name)
    {
      ok, name := Ident();
      ok := ok && '.' !in name;
    }

    method Integer() returns (ok: bool, number: int)
      requires Valid()
      modifies this`pos
      ensures Valid() && Did(ProtoGrammar.Integer(old(Rest())), ok, number)
    {
      ok, number := !AtEnd() && tokens[pos].Number? && tokens[pos].value.Some?, 0;
      if ok {
        number := tokens[pos].value.value;
        Next();
      }
    }

    // ---- fields ----

    method FieldHead() returns (ok: bool, head: FieldHead)
      requires Valid()
      modifies this`pos
      ensures Valid() && Did(ParseFieldHead(old(Rest())), ok, head)
    {
      head := ProtoGrammar.FieldHead("", "", 0);
      var typeName, name, number;
      ok, typeName := Ident();
      if !ok { return; }
      ok, name := SimpleIdent();
      if !ok { return; }
      ok := Expect("=");
      if !ok { return; }
      ok, number := Integer();
      if !ok { return; }
      ok := Expect(";");
      head := ProtoGrammar.FieldHead(typeName, name, number);
    }

    /** A scalar is known at once; anything else is kept for later. */
    method SetType(typeName: string, scope: string) returns (ty: Ty)
      modifies this`pendingFields
      ensures ty == TypeOf(scalars, typeName, scope) && LedgerView() == Referring(old(LedgerView()), ty)
    {
      if typeName in scalars {
        ty := ScalarTy(typeName);
      } else {
        ty := Pending(typeName, scope);
        pendingFields := pendingFields + [ty];
      }
    }

    method Field(scope: string, oneof: Option<nat>) returns (ok: bool, field: FieldD, synthetic: bool)
      requires Valid()
      modifies this`pos, this`pendingFields
      ensures Valid() && Did(ParseField(scalars, old(file).proto3, old(Rest()), scope, oneof), ok, (field, synthetic))
      ensures ok ==> LedgerView() == Referring(old(LedgerView()), field.ty)
    {
      field, synthetic := MapField("", 0, ""), false;
      var modifier := ModifierAtCursor();
      if oneof.Some? && (modifier.Repeated? || modifier.Required?) {
        return false, field, synthetic;
      }
      if !modifier.Bare? { Next(); }
      var head;
      ok, head := FieldHead();
      if ok {
        var ty := SetType(head.typeName, scope);
        field := FieldD(head.name, JsonName(head.name), head.number, LabelOf(modifier), ty, oneof, false);
        synthetic := file.proto3 && modifier.Optional? && oneof.None?;
      }
    }

    function ModifierAtCursor(): (m: Modifier)
      requires Valid()
      reads this
      ensures m == ModifierAt(Rest())
      ensures !m.Bare? ==> Rest() != []
    {
      if Peek() == "repeated" then Repeated
      else if Peek() == "optional" then Optional
      else if Peek() == "required" then Required
      else Bare
    }

    method Map(b: Body, scope: string) returns (ok: bool, next: Body)
      requires Valid() && Sound(b)
      modifies this`pos, this`declared, this`pendingFields
      ensures Valid() && DidDeclare(ParseMap(scalars, old(Rest()), b, scope, old(LedgerView())), ok, next)
    {
      next := b;
      var types, named;
      ok, types := MapTypes();
      if !ok { return; }
      ok, named := MapName();
      if !ok || !KeyFits(scalars, types.0) { return false, next; }
      var entry := MapEntry(scalars, types.0, types.1, named.0, scope);
      declared := declared[Qualify(scope, entry.name) := IsMessage];
      var ty := SetType(types.1, Qualify(scope, entry.name));
      next := b.(m := b.m.(nested := b.m.nested + [entry], fields := b.m.fields + [MapField(named.0, named.1, scope)]));
    }

    method MapTypes() returns (ok: bool, types: (string, string))
      requires Valid()
      modifies this`pos
      ensures Valid() && Did(ParseMapTypes(old(Rest())), ok, types)
    {
      types := ("", "");
      var key, value;
      ok := Expect("map");
      if !ok { return; }
      ok := Expect("<");
      if !ok { return; }
      ok, key := Ident();
      if !ok { return; }
      ok := Expect(",");
      if !ok { return; }
      ok, value := Ident();
      types := (key, value);
    }

    method MapName() returns (ok: bool, named: (string, int))
      requires Valid()
      modifies this`pos
      ensures Valid() && Did(ParseMapName(old(Rest())), ok, named)
    {
      named := ("", 0);
      var name, number;
      ok := Expect(">");
      if !ok { return; }
      ok, name := SimpleIdent();
      if !ok { return; }
      ok := Expect("=");
      if !ok { return; }
      ok, number := Integer();
      if !ok { return; }
      ok := Expect(";");
      named := (name, number);
    }

    // ---- blocks ----

    method Head(keyword: string) returns (ok: bool, name: string)
      requires Valid()
      modifies this`pos
      ensures Valid() && Did(ParseHead(old(Rest()), keyword), ok, name)
    {
      name := "";
      ok := Expect(keyword);
      if !ok { return; }
      ok, name := SimpleIdent();
      if !ok { return; }
      ok := Expect("{");
    }

    method Oneof(b: Body, scope: string) returns (ok: bool, next: Body)
      requires Valid() && Sound(b)
      modifies this`pos, this`pendingFields
      ensures Valid()
      ensures DidDeclare(ParseOneof(scalars, old(file).proto3, old(Rest()), b, scope, old(LedgerView())), ok, next)
    {
      next := b;
      var name, fields;
      ok, name := Head("oneof");
      if !ok { return; }
      ok, fields := Members(scope, |b.m.oneofs|, b.m.fields);
      if ok { next := b.(m := b.m.(oneofs := b.m.oneofs + [name], fields := fields)); }
    }

    method Members(scope: string, oneof: nat, before: seq<FieldD>) returns (ok: bool, fields: seq<FieldD>)
      requires Valid()
      modifies this`pos, this`pendingFields
      ensures Valid() && Did(ParseMembers(scalars, file.proto3, old(Rest()), scope, oneof, before), ok, fields)
      ensures ok ==> before <= fields && LedgerView() == ReferringAll(old(LedgerView()), fields[|before|..])
    {
      fields := before;
      ghost var start := LedgerView();
      ghost var whole := ParseMembers(scalars, file.proto3, Rest(), scope, oneof, before);
      while true
        invariant Valid() && ParseMembers(scalars, file.proto3, Rest(), scope, oneof, fields) == whole
        invariant before <= fields && LedgerView() == ReferringAll(start, fields[|before|..])
        decreases |tokens| - pos
      {
        if AtEnd() || Peek() == "option" || Peek() == "group" {
          return false, fields;
        } else if Peek() == "}" {
          Next();
          return true, fields;
        } else if Peek() == ";" {
          Next();
        } else {
          var field, synthetic;
          ok, field, synthetic := Field(scope, Some(oneof));
          if !ok { return; }
          ReferringOneMore(start, fields[|before|..], field);
          assert (fields + [field])[|before|..] == fields[|before|..] + [field];
          fields := fields + [field];
        }
      }
    }

    method Enum(scope: string) returns (ok: bool, enum: EnumD)
      requires Valid()
      modifies this`pos, this`declared, this`pendingFields
      ensures Valid() && DidDeclare(ParseEnum(file.proto3, old(Rest()), scope, old(LedgerView())), ok, enum)
    {
      enum := EnumD("", []);
      var name, values;
      ok, name := Head("enum");
      if !ok { return; }
      var full := Qualify(scope, name);
      if full in declared { return false, enum; }
      declared := declared[full := IsEnum];
      ok, values := Values();
      if ok {
        ok := !(file.proto3 && values != [] && values[0].number != 0);
        enum := EnumD(name, values);
      }
    }

    method Values() returns (ok: bool, values: seq<ValueAst>)
      requires Valid()
      modifies this`pos
      ensures Valid() && Did(ParseValues(old(Rest()), []), ok, values)
    {
      values := [];
      ghost var whole := ParseValues(Rest(), []);
      while true
        invariant Valid() && ParseValues(Rest(), values) == whole
        decreases |tokens| - pos
      {
        if AtEnd() || Peek() == "option" || Peek() == "reserved" {
          return false, values;
        } else if Peek() == "}" {
          Next();
          return true, values;
        } else if Peek() == ";" {
          Next();
        } else {
          var value;
          ok, value := EnumValue();
          if !ok { return; }
          values := values + [value];
        }
      }
    }

    method EnumValue() returns (ok: bool, value: ValueAst)
      requires Valid()
      modifies this`pos
      ensures Valid() && Did(ParseValue(old(Rest())), ok, value)
    {
      value := ValueAst("", 0);
      var name, number;
      ok, name := SimpleIdent();
      if !ok { return; }
      ok := Expect("=");
      if !ok { return; }
      ok, number := Signed();
      if !ok { return; }
      ok := Expect(";");
      value := ValueAst(name, number);
    }

    method Signed() returns (ok: bool, number: int)
      requires Valid()
      modifies this`pos
      ensures Valid() && Did(ParseSigned(old(Rest())), ok, number)
    {
      var negative := Accept("-");
      ok, number := Integer();
      if negative { number := -number; }
    }

    // ---- messages ----

    method Message(scope: string) returns (ok: bool, message: MessageD)
      requires Valid()
      modifies this`pos, this`declared, this`pendingFields
      ensures Valid()
      ensures DidDeclare(ParseMessage(scalars, file.proto3, old(Rest()), scope, old(LedgerView())), ok, message)
      decreases |tokens| - pos, 0
    {
      message := MessageD("", [], [], [], [], false);
      var name;
      ok, name := Head("message");
      if !ok { return; }
      var full := Qualify(scope, name);
      if full in declared { return false, message; }
      declared := declared[full := IsMessage];
      ok, message := MessageBody(MessageD(name, [], [], [], [], false), full);
    }

    /** Items up to the closing brace, where the synthetic oneofs are added. */
    method MessageBody(start: MessageD, full: string) returns (ok: bool, message: MessageD)
      requires Valid()
      modifies this`pos, this`declared, this`pendingFields
      ensures Valid()
      ensures DidDeclare(
        ParseBody(scalars, file.proto3, old(Rest()), Body(start, []), full, old(LedgerView())), ok, message)
      decreases |tokens| - pos, 2
    {
      message := start;
      var b := Body(start, []);
      ghost var whole := ParseBody(scalars, file.proto3, Rest(), b, full, LedgerView());
      while !AtEnd() && Peek() != "}"
        invariant Valid() && Sound(b) && pos >= old(pos)
        invariant ParseBody(scalars, file.proto3, Rest(), b, full, LedgerView()) == whole
        decreases |tokens| - pos
      {
        var next;
        ok, next := Item(b, full);
        if !ok { return; }
        b := next;
      }
      if AtEnd() { return false, message; }
      Next();
      message := AddSynthetic(b);
      ok := true;
    }

    /** Gives each proto3 optional field a oneof of its own, one after the other. */
    method AddSynthetic(b: Body) returns (message: MessageD)
      requires Sound(b)
      ensures message == Close(b.m, b.optional)
    {
      message := b.m;
      for k := 0 to |b.optional|
        invariant Sound(Body(message, b.optional[k..])) && Close(message, b.optional[k..]) == Close(b.m, b.optional)
      {
        var i := b.optional[k];
        assert b.optional[k..][0] == i && b.optional[k..][1..] == b.optional[k + 1..];
        var field := message.fields[i].(oneof := Some(|message.oneofs|), proto3Optional := true);
        message := message.(oneofs := message.oneofs + ["_" + message.fields[i].name],
          fields := message.fields[i := field]);
      }
    }

    method Item(b: Body, full: string) returns (ok: bool, next: Body)
      requires Valid() && Sound(b) && Rest() != [] && Peek() != "}"
      modifies this`pos, this`declared, this`pendingFields
      ensures Valid() && DidDeclare(ParseItem(scalars, file.proto3, old(Rest()), b, full, old(LedgerView())), ok, next)
      decreases |tokens| - pos, 1
    {
      next := b;
      if Peek() == ";" {
        Next();
        ok := true;
      } else if Peek() == "message" {
        var m;
        ok, m := Message(full);
        next := b.(m := b.m.(nested := b.m.nested + [m]));
      } else if Peek() == "enum" {
        var e;
        ok, e := Enum(full);
        next := b.(m := b.m.(enums := b.m.enums + [e]));
      } else if Peek() == "oneof" {
        ok, next := Oneof(b, full);
      } else if Peek() == "map" && PeekSecond() == "<" {
        ok, next := Map(b, full);
      } else if BodyWord(Peek()) {
        ok := false;
      } else {
        var field, synthetic;
        ok, field, synthetic := Field(full, None);
        next := Body(b.m.(fields := b.m.fields + [field]), b.optional + if synthetic then [|b.m.fields|] else []);
      }
    }

    function PeekSecond(): (text: string)
      requires Valid() && Rest() != []
      reads this
      ensures text == TextAt(Rest()[1..])
    {
      if pos + 1 == |tokens| then "" else tokens[pos + 1].text
    }

    // ---- services ----

    method Argument() returns (ok: bool, argument: (bool, string))
      requires Valid()
      modifies this`pos
      ensures Valid() && Did(ParseArgument(old(Rest())), ok, argument)
    {
      argument := (false, "");
      var typeName;
      ok := Expect("(");
      if !ok { return; }
      var stream := Accept("stream");
      ok, typeName := Ident();
      if !ok { return; }
      ok := Expect(")");
      argument := (stream, typeName);
    }

    method RpcName() returns (ok: bool, name: string)
      requires Valid()
      modifies this`pos
      ensures Valid() && Did(ParseRpcName(old(Rest())), ok, name)
    {
      name := "";
      ok := Expect("rpc");
      if !ok { return; }
      ok, name := SimpleIdent();
    }

    method Rpc() returns (ok: bool, rpc: MethodD)
      requires Valid()
      modifies this`pos
      ensures Valid() && Did(ParseRpc(old(Rest()), file.package), ok, rpc)
    {
      rpc := MethodD("", false, ScalarTy(""), false, ScalarTy(""));
      var name, input, output;
      ok, name := RpcName();
      if !ok { return; }
      ok, input := Argument();
      if !ok { return; }
      ok := Expect("returns");
      if !ok { return; }
      ok, output := Argument();
      if !ok { return; }
      ok := RpcEnd();
      rpc := MethodD(name, input.0, Pending(input.1, file.package), output.0, Pending(output.1, file.package));
    }

    method RpcEnd() returns (ok: bool)
      requires Valid()
      modifies this`pos
      ensures Valid() && Did(ParseRpcEnd(old(Rest())), ok, ())
    {
      if AtEnd() || Peek() != "{" {
        ok := Expect(";");
        return;
      }
      Next();
      ghost var whole := ParseRpcBody(Rest());
      while !AtEnd() && Peek() == ";"
        invariant Valid() && ParseRpcBody(Rest()) == whole
        decreases |tokens| - pos
      {
        Next();
      }
      ok := Expect("}");
    }

    method Service() returns (ok: bool, service: ServiceD)
      requires Valid()
      modifies this`pos, this`declared, this`pendingFields
      ensures Valid() && DidDeclare(ParseService(old(Rest()), file.package, old(LedgerView())), ok, service)
    {
      service := ServiceD("", []);
      var name, methods;
      ok, name := Head("service");
      if !ok { return; }
      var full := Qualify(file.package, name);
      if full in declared { return false, service; }
      declared := declared[full := IsService];
      ok, methods := Rpcs();
      service := ServiceD(name, methods);
    }

    method Rpcs() returns (ok: bool, methods: seq<MethodD>)
      requires Valid()
      modifies this`pos
      ensures Valid() && Did(ParseRpcs(old(Rest()), file.package, []), ok, methods)
    {
      methods := [];
      ghost var whole := ParseRpcs(Rest(), file.package, []);
      while true
        invariant Valid() && ParseRpcs(Rest(), file.package, methods) == whole
        decreases |tokens| - pos
      {
        if AtEnd() {
          return false, methods;
        } else if Peek() == "}" {
          Next();
          return true, methods;
        } else if Peek() == ";" {
          Next();
        } else {
          var rpc;
          ok, rpc := Rpc();
          if !ok { return; }
          methods := methods + [rpc];
        }
      }
    }

    // ---- files ----

    method Syntax() returns (ok: bool, proto3: bool)
      requires Valid()
      modifies this`pos
      ensures Valid() && Did(ParseSyntax(old(Rest())), ok, proto3)
    {
      proto3 := false;
      ok := Expect("syntax");
      if !ok { return; }
      ok := Expect("=");
      if !ok { return; }
      if AtEnd() || !tokens[pos].Quoted? || (Peek() != "proto2" && Peek() != "proto3") {
        return false, proto3;
      }
      proto3 := Peek() == "proto3";
      Next();
      ok := Expect(";");
    }

    method Package() returns (ok: bool, package: string)
      requires Valid()
      modifies this`pos
      ensures Valid() && Did(ParsePackage(old(Rest())), ok, package)
    {
      package := "";
      ok := Expect("package");
      if !ok { return; }
      ok, package := Ident();
      if !ok { return; }
      if package != "" && package[0] == '.' { return false, package; }
      ok := Expect(";");
    }

    /** One declaration, kept in the file. */
    method Declaration() returns (ok: bool)
      requires Valid() && Rest() != []
      modifies this
      ensures Valid() && DidDeclare(ParseDecl(scalars, old(Rest()), old(file), old(LedgerView())), ok, file)
    {
      if Peek() == ";" {
        Next();
        ok := true;
      } else if Peek() == "syntax" {
        var proto3;
        ok, proto3 := Syntax();
        file := file.(proto3 := proto3);
      } else if Peek() == "package" {
        var package;
        ok, package := Package();
        file := file.(package := package);
      } else if Peek() == "message" {
        var m;
        ok, m := Message(file.package);
        file := file.(messages := file.messages + [m]);
      } else if Peek() == "enum" {
        var e;
        ok, e := Enum(file.package);
        file := file.(enums := file.enums + [e]);
      } else if Peek() == "service" {
        var s;
        ok, s := Service();
        file := file.(services := file.services + [s]);
      } else {
        ok := false;
      }
    }

    /** Looks up each reference in turn, up to the first that fails. */
    method FindFailure(w: World) returns (v: Verdict)
      ensures v == FirstFailure(w, RefsOf(file, LedgerView()))
    {
      var refs := FieldRefs(pendingFields) + ServiceRefs(file.services);
      for i := 0 to |refs|
        invariant FirstFailure(w, refs[i..]) == FirstFailure(w, refs)
      {
        assert refs[i..][0] == refs[i] && refs[i..][1..] == refs[i + 1..];
        v := Judge(w, refs[i]);
        if v != Fine { return; }
      }
      v := Fine;
    }

    /** Reads every token, then binds every reference. */
    method Parse() returns (r: Compiled)
      requires Valid() && pos == 0 && LedgerView() == EMPTY_LEDGER && file == FileD("", false, [], [], [])
      modifies this
      ensures r == Compile(scalars, loaded, customs, tokens)
      ensures r.Built? ==> pos == |tokens|
    {
      ghost var whole := ParseFile(scalars, tokens);
      while !AtEnd()
        invariant Valid() && ParseDecls(scalars, Rest(), file, LedgerView()) == whole
        decreases |tokens| - pos
      {
        var ok := Declaration();
        if !ok { return Invalid; }
      }
      var w := World(declared, loaded, customs);
      var v := FindFailure(w);
      ParsedComplete(scalars, tokens);
      FileResolvable(w, file, LedgerView());
      match v {
        case Fine => r := Built(ResolveFile(w, file).value, declared);
        case Unknown => r := UnknownType;
        case Wrong => r := Invalid;
      }
    }
  }
}
