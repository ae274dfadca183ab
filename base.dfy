/**
 * Compilation of template source (outputcontext/template/base.py):
 * `compile_string`, which attaches the output context to a fresh parser
 * before parsing, and `Template.__init__`, which decodes the source, makes
 * a string origin in debug mode and stores name and origin.
 * `get_template_from_string` of loader.py is exactly the `Template` call,
 * so callers use `NewTemplate` for it.
 */
module Base {
  import opened Types

  /** A template parser; tag-compilation callbacks read `outputContext` from it. */
  class Parser {
    const kind: ParserKind
    const tokens: seq<Token>
    var outputContext: Option<OutputContext>

    constructor (kind: ParserKind, tokens: seq<Token>)
      ensures this.kind == kind && this.tokens == tokens
      ensures outputContext == None
    {
      this.kind := kind;
      this.tokens := tokens;
      outputContext := None;
    }

    /** The host parser's `parse()`: it sees the tokens and the attached output context. */
    method Parse(engine: Engine) returns (r: Result<NodeList>)
      ensures r == engine.parse(kind, tokens, outputContext)
    {
      r := engine.parse(kind, tokens, outputContext);
    }
  }

  /** `force_text`: text is kept, bytes are decoded as UTF-8 (None when they cannot be). */
  function ForceText(engine: Engine, src: Source): Option<string>
  {
    match src
    case Text(s) => Some(s)
    case Bytes(b) => engine.decodeUtf8(b)
  }

  /** What `compile_string` yields: the selected parser over the selected lexer's tokens, given `oc`. */
  function CompiledNodes(engine: Engine, text: string, origin: Option<Origin>, oc: Option<OutputContext>): Result<NodeList>
  {
    var lexer := if engine.debug then DebugLexer else PlainLexer;
    var parser := if engine.debug then DebugParser else PlainParser;
    engine.parse(parser, engine.tokenize(lexer, text, origin), oc)
  }

  /**
   * `compile_string`: the debug lexer and parser are used iff debug is on,
   * and the parser carries `oc` (unchanged, possibly None) when it parses.
   */
  method CompileString(engine: Engine, text: string, origin: Option<Origin>, oc: Option<OutputContext>)
    returns (r: Result<NodeList>)
    ensures engine.debug ==> r == engine.parse(DebugParser, engine.tokenize(DebugLexer, text, origin), oc)
    ensures !engine.debug ==> r == engine.parse(PlainParser, engine.tokenize(PlainLexer, text, origin), oc)
    ensures r == CompiledNodes(engine, text, origin, oc)
  {
    var lexerKind, parserKind;
    if engine.debug {
      lexerKind, parserKind := DebugLexer, DebugParser;
    } else {
      lexerKind, parserKind := PlainLexer, PlainParser;
    }
    var tokens := engine.tokenize(lexerKind, text, origin);
    var parser := new Parser(parserKind, tokens);
    parser.outputContext := oc;
    r := parser.Parse(engine);
  }

  /** The origin `Template.__init__` keeps: a string origin is made only in debug mode when none was given. */
  function EffectiveOrigin(engine: Engine, text: string, origin: Option<Origin>): Option<Origin>
  {
    if engine.debug && origin.None? then Some(StringOrigin(text)) else origin
  }

  /**
   * `Template(source, origin, name, output_context)`: an undecodable source
   * is an encoding error; otherwise the compiled node list (or the
   * compiler's error) with the given name and the effective origin.
   */
  function NewTemplate(engine: Engine, src: Source, origin: Option<Origin>, name: Option<string>, oc: Option<OutputContext>)
    : (r: Result<Template>)
    ensures ForceText(engine, src).None? ==> r == Err(Encoding)
    ensures r.Ok? ==>
      && ForceText(engine, src).Some?
      && r.value.name == name
      && r.value.origin == EffectiveOrigin(engine, ForceText(engine, src).value, origin)
      && (engine.debug && origin.None? ==> r.value.origin == Some(StringOrigin(ForceText(engine, src).value)))
      && CompiledNodes(engine, ForceText(engine, src).value, r.value.origin, oc) == Ok(r.value.nodelist)
    ensures r.Err? && ForceText(engine, src).Some? ==>
      var text := ForceText(engine, src).value;
      CompiledNodes(engine, text, EffectiveOrigin(engine, text, origin), oc) == Err(r.error)
  {
    match ForceText(engine, src)
    case None => Err(Encoding)
    case Some(text) =>
      var origin' := EffectiveOrigin(engine, text, origin);
      match CompiledNodes(engine, text, origin', oc)
      case Err(e) => Err(e)
      case Ok(nodes) => Ok(Template(nodes, name, origin'))
  }

  /** `Template.__init__` step by step, through `compile_string` and a parser object. */
  method MakeTemplate(engine: Engine, src: Source, origin: Option<Origin>, name: Option<string>, oc: Option<OutputContext>)
    returns (r: Result<Template>)
    ensures r == NewTemplate(engine, src, origin, name, oc)
  {
    var text := ForceText(engine, src);
    if text.None? {
      return Err(Encoding);
    }
    var origin' := origin;
    if engine.debug && origin.None? {
      origin' := Some(StringOrigin(text.value));
    }
    var nodes := CompileString(engine, text.value, origin', oc);
    if nodes.Err? {
      return Err(nodes.error);
    }
    r := Ok(Template(nodes.value, name, origin'));
  }
}
