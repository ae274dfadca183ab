/**
 * Shared vocabulary of the output-context template extension: the errors it
 * raises or propagates, the values it passes between loaders, compiler and
 * nodes, and the host framework's collaborators (lexer, parser, source
 * lookup, rendering), which this model keeps abstract as function-valued
 * fields of `Engine` and `Renderer`.
 */
module Types {

  datatype Option<+T> = None | Some(value: T)

  /** Why a tag was rejected at compile time (the host framework's TemplateSyntaxError). */
  datatype SyntaxReason =
    | IncludeTooFewArgs          // `include` with no template name
    | DuplicateOption(option: string)
    | EmptyWith                  // `with` followed by no keyword argument
    | UnknownOption(option: string)
    | ExtendsArity               // `extends` without exactly one argument
    | ExtendsTwice               // a second `extends` in the same template
    | InvalidParent              // `extends` target resolved to a falsy value
    | HostSyntax(code: nat)      // raised inside a host-framework call

  /** The exception kinds the core raises, catches or lets through. */
  datatype Error =
    | NotFound(msg: string)      // TemplateDoesNotExist, carrying its first argument
    | Syntax(reason: SyntaxReason)
    | Encoding                   // TemplateEncodingError
    | Other(code: nat)           // any other exception (IndexError, TypeError, ...)

  datatype Result<+T> = Ok(value: T) | Err(error: Error)

  /** The opaque mapping threaded through lookup, compilation and rendering. */
  type OutputContext = map<string, string>

  /** The output context a node keeps: the parser's value, or an empty mapping when it has none. */
  function OrEmpty(oc: Option<OutputContext>): OutputContext
  {
    if oc.Some? then oc.value else map[]
  }

  /** Template source handed to the compiler: already text, or raw bytes to decode. */
  datatype Source = Text(text: string) | Bytes(bytes: seq<bv8>)

  /** Diagnostic provenance; its contents never steer the core's decisions. */
  datatype Origin = StringOrigin(source: string) | LoaderOrigin(id: nat)

  /** A lexer token; its structure belongs to the host framework. */
  datatype Token = Token(contents: string)

  /** A compiled node list. A list with no nodes is falsy in Python. */
  datatype NodeList = NodeList(nodes: seq<nat>)

  /** A compiled template: an immutable node list plus its name and origin. */
  datatype Template = Template(nodelist: NodeList, name: Option<string>, origin: Option<Origin>)

  /** A compiled filter expression (the host's FilterExpression), kept opaque. */
  datatype Expr = Expr(source: string)

  /** A render-time value, as far as the core inspects it. */
  datatype Value = NoneValue | StrValue(s: string) | TemplateValue(t: Template) | OpaqueValue(id: nat)

  /** What a loader hands back: a compiled template, or source still to be compiled. */
  datatype Loaded = Compiled(template: Template) | Raw(source: Source)

  /** A loader in the configured chain. Only directory loaders of this extension see the output context. */
  datatype LoaderRef = AppDirLoader | OtherLoader(id: nat)

  type Dirs = Option<seq<string>>

  datatype LexerKind = DebugLexer | PlainLexer
  datatype ParserKind = DebugParser | PlainParser

  /**
   * Host-framework collaborators used while finding and compiling templates.
   * `debug` is the TEMPLATE_DEBUG setting.
   */
  datatype Engine = Engine(
    debug: bool,
    decodeUtf8: seq<bv8> -> Option<string>,
    tokenize: (LexerKind, string, Option<Origin>) -> seq<Token>,
    parse: (ParserKind, seq<Token>, Option<OutputContext>) -> Result<NodeList>,
    makeOrigin: (Option<string>, string, Dirs) -> Option<Origin>,
    appSource: (string, Dirs) -> Result<(Source, string)>,
    otherLoad: (nat, string, Dirs) -> Result<(Loaded, Option<string>)>
  )

  /** The variable context a node is rendered in. */
  datatype RenderContext = RenderContext(
    autoescape: bool,
    currentApp: Option<string>,
    useL10n: Option<bool>,
    useTz: Option<bool>,
    vars: map<string, Value>
  )

  /** The value an `extends` target resolves to. */
  datatype ParentValue = ParentName(name: string) | ParentTemplate(template: Template) | ParentFalsy

  /** Host-framework collaborators used while rendering. */
  datatype Renderer = Renderer(
    resolveName: (Expr, RenderContext) -> Result<string>,
    resolveParent: (Expr, RenderContext) -> Result<ParentValue>,
    resolveArgs: (bool, seq<Expr>, map<string, Expr>, RenderContext) -> Result<(seq<Value>, map<string, Value>)>,
    renderTemplate: (Template, RenderContext, map<string, Expr>, bool) -> Result<string>,
    renderNodes: (NodeList, RenderContext) -> Result<string>
  )
}
