/** Loading schema files in whatever order their references allow. */
module SchemaLoader {
  import opened Common
  import opened ProtoSyntax
  import opened ProtoGrammar
  import opened NameResolution
  import opened ProtoReferences
  import opened ProtoParser
  import opened SchemaOrder
  import opened SchemaBinding

  /** What a text is to the loader: its tokens read by the grammar, if it has any. */
  function Read(scalars: set<string>, tokenize: string -> Option<seq<Token>>, text: string): (f: File)
    ensures f.text == text
  {
    match tokenize(text)
    case None => Broken(text)
    case Some(ts) => (
      match ParseFile(scalars, ts)
      case Refused => Broken(text)
      case Parsed(file, _, ledger) => File(text, ledger.declared, RefsOf(file, ledger)))
  }

  /** Parsing a text against what is known is attempting to add its file. */
  lemma CompileIsAttempt(scalars: set<string>, tokenize: string -> Option<seq<Token>>, root: Root, known: Names,
                         text: string)
    requires tokenize(text).Some?
    ensures var c := Compile(scalars, known, root.customs, tokenize(text).value);
      var f := Read(scalars, tokenize, text);
      && Attempt(root, known, f) == (match c case Built(_, _) => Fine case UnknownType => Unknown case Invalid => Wrong)
      && (c.Built? ==> f == File(text, c.names, f.refs))
  {
    var ts := tokenize(text).value;
    ParsedComplete(scalars, ts);
    var r := ParseFile(scalars, ts);
    if r.Parsed? {
      var w := World(r.ledger.declared, known, root.customs);
      FileResolvable(w, r.value, r.ledger);
      FirstFailureIs(w, RefsOf(r.value, r.ledger));
    }
  }

  lemma Outcome(root: Root, files: seq<File>)
    ensures Succeeds(root, files) ==> Resolving(root, files, Load(root, [], files).value)
    ensures Tidy(root, files) && Steady(root, files) ==> (Succeeds(root, files) <==> Loadable(root, files))
  {
    if Succeeds(root, files) { SucceedsLoads(root, files); }
    if Tidy(root, files) && Steady(root, files) { SteadyLoads(root, files); }
  }

  function ReadAll(scalars: set<string>, tokenize: string -> Option<seq<Token>>, texts: seq<string>): (files: seq<File>)
    ensures |files| == |texts|
    ensures forall i :: 0 <= i < |texts| ==> files[i] == Read(scalars, tokenize, texts[i])
  {
    seq(|texts|, i requires 0 <= i < |texts| => Read(scalars, tokenize, texts[i]))
  }

  lemma ReadOneMore(scalars: set<string>, tokenize: string -> Option<seq<Token>>, texts: seq<string>, text: string)
    ensures ReadAll(scalars, tokenize, texts + [text])
      == ReadAll(scalars, tokenize, texts) + [Read(scalars, tokenize, text)]
  {
  }

  function After(before: seq<File>, s: Sweep): Sweep {
    match s
    case Failed => Failed
    case Swept(o, aside) => Swept(o, before + aside)
  }

  lemma AfterOneMore(before: seq<File>, f: File, s: Sweep)
    ensures After(before + [f], s) == After(before, After([f], s))
  {
    if s.Swept? { assert before + [f] + s.aside == before + ([f] + s.aside); }
  }

  /** How a pass over `files` from `order` goes on, after what was set aside before. */
  function Rest(root: Root, before: seq<File>, order: seq<File>, files: seq<File>): Sweep {
    After(before, Pass(root, order, files))
  }

  /** One file of a pass. */
  lemma PassStep(root: Root, before: seq<File>, order: seq<File>, files: seq<File>, i: nat)
    requires i < |files|
    ensures var f, rest := files[i], files[i + 1..];
      Rest(root, before, order, files[i..]) ==
        if f in order then Rest(root, before, order, rest)
        else match Attempt(root, Known(root, order), f)
          case Fine => Rest(root, before, order + [f], rest)
          case Wrong => Failed
          case Unknown => Rest(root, before + [f], order, rest)
  {
    assert files[i..][0] == files[i] && files[i..][1..] == files[i + 1..];
    AfterOneMore(before, files[i], Pass(root, order, files[i + 1..]));
  }

  lemma PassEnds(root: Root, before: seq<File>, order: seq<File>, files: seq<File>)
    ensures Rest(root, before, order, files[|files|..]) == Swept(order, before)
    ensures Rest(root, [], order, files[0..]) == Pass(root, order, files)
  {
    assert files[|files|..] == [] && files[0..] == files && before + [] == before;
    var s := Pass(root, order, files);
    if s.Swept? { assert [] + s.aside == s.aside; }
  }

  class MessageFactory {
    const scalars: set<string>
    const customs: set<string>
    /** The lexer: None for a text with a character it does not know. */
    const tokenize: string -> Option<seq<Token>>
    /** The messages and enums the root can look up. */
    var known: Names
    /** Texts already added. */
    var parsed: set<string>
    ghost const root: Root
    ghost var loaded: seq<File>

    constructor (scalars: set<string>, customs: set<string>, tokenize: string -> Option<seq<Token>>, base: Names)
      ensures Valid() && loaded == [] && root == Root(base, customs)
      ensures this.scalars == scalars && this.customs == customs && this.tokenize == tokenize
    {
      this.scalars, this.customs, this.tokenize := scalars, customs, tokenize;
      known, parsed := base, {};
      root, loaded := Root(base, customs), [];
    }

    ghost function FileOf(text: string): (f: File)
      ensures f.text == text
    {
      Read(scalars, tokenize, text)
    }

    /** The root knows what the texts added so far declare. */
    ghost predicate Valid()
      reads this
    {
      && root.customs == customs
      && known == Known(root, loaded)
      && forall t :: FileOf(t) in loaded <==> t in parsed
    }

    /** Parses a text and adds what it declares to the root, unless that fails. */
    method AddProto(text: string) returns (v: Verdict)
      requires Valid() && text !in parsed
      modifies this
      ensures Valid()
      ensures v == Attempt(root, Known(root, old(loaded)), FileOf(text))
      ensures loaded == if v == Fine then old(loaded) + [FileOf(text)] else old(loaded)
    {
      var tokens := tokenize(text);
      if tokens == None { return Wrong; }
      var parser := new Parser(tokens.value, scalars, known, customs);
      var compiled := parser.Parse();
      CompileIsAttempt(scalars, tokenize, root, known, text);
      match compiled {
        case Built(_, names) =>
          KnownNext(root, loaded, FileOf(text));
          known := known + (map s | s in names && names[s] != IsService :: names[s]);
          parsed := parsed + {text};
          loaded := loaded + [FileOf(text)];
          v := Fine;
        case UnknownType => v := Unknown;
        case Invalid => v := Wrong;
      }
    }

    /** One pass: what cannot be added yet is set aside for the next one. */
    method TryAll(pending: seq<string>) returns (failed: bool, remaining: seq<string>, progressed: bool)
      requires Valid()
      modifies this
      ensures Valid() && parsed >= old(parsed)
      ensures Pass(root, old(loaded), ReadAll(scalars, tokenize, pending))
        == if failed then Failed else Swept(loaded, ReadAll(scalars, tokenize, remaining))
      ensures !failed ==> |remaining| <= |pending| && (progressed <==> |remaining| < |pending|)
    {
      ghost var files := ReadAll(scalars, tokenize, pending);
      ghost var whole := Pass(root, loaded, files);
      PassEnds(root, [], loaded, files);
      failed, remaining, progressed := false, [], false;
      for i := 0 to |pending|
        invariant Valid() && parsed >= old(parsed)
        invariant |remaining| <= i && (progressed <==> |remaining| < i)
        invariant Rest(root, ReadAll(scalars, tokenize, remaining), loaded, files[i..]) == whole
      {
        ghost var aside := ReadAll(scalars, tokenize, remaining);
        PassStep(root, aside, loaded, files, i);
        if pending[i] in parsed {
          progressed := true;
        } else {
          var v := AddProto(pending[i]);
          match v {
            case Fine =>
              progressed := true;
            case Wrong =>
              failed := true;
              return;
            case Unknown =>
              ReadOneMore(scalars, tokenize, remaining, pending[i]);
              remaining := remaining + [pending[i]];
          }
        }
      }
      PassEnds(root, ReadAll(scalars, tokenize, remaining), loaded, files);
    }

    /** Tries pass after pass until nothing is left or a pass gets nowhere. */
    method LoadFiles(texts: seq<string>) returns (ok: bool)
      requires Valid() && loaded == []
      modifies this
      ensures Valid()
      ensures var files := ReadAll(scalars, tokenize, texts);
        && (ok <==> Succeeds(root, files))
        && (ok ==> Resolving(root, files, loaded))
        && (Tidy(root, files) && Steady(root, files) ==> (ok <==> Loadable(root, files)))
      ensures ok ==> forall t :: t in texts ==> t in parsed
    {
      ghost var files := ReadAll(scalars, tokenize, texts);
      Outcome(root, files);
      var pending := texts;
      while pending != []
        invariant Valid()
        invariant Load(root, loaded, ReadAll(scalars, tokenize, pending)) == Load(root, [], files)
        decreases |pending|
      {
        var failed, remaining, progressed := TryAll(pending);
        if failed { return false; }
        if remaining != [] && !progressed { return false; }
        pending := remaining;
      }
      ok := true;
      assert Load(root, loaded, []) == Some(loaded);
      forall t | t in texts
        ensures t in parsed
      {
        var i :| 0 <= i < |texts| && texts[i] == t;
        assert files[i] in files;
      }
    }
  }
}
