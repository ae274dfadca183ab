/**
 * The `include` and `extends` tags of the extension
 * (outputcontext/template/loader_tags.py): option parsing for `include`,
 * the choice between a constant include (quoted name, looked up at compile
 * time) and a dynamic one (expression, looked up at every render), the
 * debug-dependent suppression of failures, and `extends` with its parent
 * lookup. Every lookup goes through the output-context-aware loader.
 */
module LoaderTags {
  import opened Types
  import opened Base
  import opened Loader

  /** The code standing for the IndexError raised by indexing an empty path. */
  const IndexErrorCode: nat := 0

  /** Host-framework helpers the tag compilers call. */
  datatype TagParsing = TagParsing(
    // `token_kwargs`: the keyword arguments at the front of the bits and how many bits they took
    tokenKwargs: seq<string> -> Result<(map<string, Expr>, nat)>,
    compileFilter: string -> Result<Expr>,
    // `parser.parse()` for the rest of the template, given the parser's current output context
    parseRest: Option<OutputContext> -> Result<NodeList>,
    // whether `get_nodes_by_type(ExtendsNode)` finds anything
    containsExtends: NodeList -> bool,
    // `(n.name, n)` for every block node, in the order `get_nodes_by_type(BlockNode)` lists them
    blockNodes: NodeList -> seq<(string, nat)>
  )

  datatype OptionValue = WithKwargs(kwargs: map<string, Expr>) | OnlyFlag

  datatype IncludeNode =
    | ConstantInclude(template: Option<Template>, extra: map<string, Expr>, isolated: bool)
    | DynamicInclude(templateName: Expr, outputContext: OutputContext, extra: map<string, Expr>, isolated: bool)

  datatype ExtendsNode = ExtendsNode(
    nodelist: NodeList,
    parentName: Expr,
    templateDirs: Dirs,
    blocks: map<string, nat>,
    outputContext: OutputContext
  )

  // ---------------------------------------------------------------------
  // do_include
  // ---------------------------------------------------------------------

  /** An option the `include` tag accepts, with the value it records. */
  predicate ValidOption(key: string, value: OptionValue)
  {
    || (key == "with" && value.WithKwargs? && |value.kwargs| > 0)
    || (key == "only" && value == OnlyFlag)
  }

  /** The bits left after `token_kwargs` removed `n` from the front. */
  function Consume(bits: seq<string>, n: nat): seq<string>
  {
    bits[if n <= |bits| then n else |bits|..]
  }

  /**
   * The words the option loop of `do_include` pops as options, in order;
   * the bits `token_kwargs` takes after a `with` are not among them.
   */
  function OptionWords(tp: TagParsing, remaining: seq<string>): seq<string>
    decreases |remaining|
  {
    if remaining == [] then []
    else
      var rest := remaining[1..];
      if remaining[0] == "with" && tp.tokenKwargs(rest).Ok? then [remaining[0]] + OptionWords(tp, Consume(rest, tp.tokenKwargs(rest).value.1))
      else [remaining[0]] + OptionWords(tp, rest)
  }

  /**
   * The option loop of `do_include`: each option is popped from the front;
   * a repeated option, an unknown one or a `with` without keyword
   * arguments is a syntax error. Every recorded option is valid and the
   * options already recorded are kept; the keys recorded are exactly the
   * words popped as options; a leading `only` records the flag and a
   * leading `with` records the keyword map `token_kwargs` read after it.
   */
  function IncludeOptions(tp: TagParsing, remaining: seq<string>, options: map<string, OptionValue>)
    : (r: Result<map<string, OptionValue>>)
    ensures r.Ok? ==> forall k :: k in options ==> k in r.value && r.value[k] == options[k]
    ensures r.Ok? ==> forall k :: k in r.value ==> k in options || ValidOption(k, r.value[k])
    ensures r.Ok? ==> forall k :: k in r.value <==> k in options || k in OptionWords(tp, remaining)
    ensures r.Ok? && remaining != [] ==> remaining[0] !in options
    ensures r.Ok? && remaining != [] && remaining[0] == "only" ==> "only" in r.value && r.value["only"] == OnlyFlag
    ensures r.Ok? && remaining != [] && remaining[0] == "with" ==>
      && tp.tokenKwargs(remaining[1..]).Ok?
      && "with" in r.value
      && r.value["with"] == WithKwargs(tp.tokenKwargs(remaining[1..]).value.0)
    decreases |remaining|
  {
    if remaining == [] then Ok(options)
    else
      var option := remaining[0];
      var rest := remaining[1..];
      if option in options then Err(Syntax(DuplicateOption(option)))
      else if option == "with" then
        match tp.tokenKwargs(rest)
        case Err(e) => Err(e)
        case Ok((kwargs, taken)) =>
          if |kwargs| == 0 then Err(Syntax(EmptyWith))
          else IncludeOptions(tp, Consume(rest, taken), options[option := WithKwargs(kwargs)])
      else if option == "only" then IncludeOptions(tp, rest, options[option := OnlyFlag])
      else Err(Syntax(UnknownOption(option)))
  }

  /** The three ways the option loop rejects its first option. */
  lemma IncludeOptionErrors(tp: TagParsing, remaining: seq<string>, options: map<string, OptionValue>)
    requires remaining != []
    ensures remaining[0] in options ==>
      IncludeOptions(tp, remaining, options) == Err(Syntax(DuplicateOption(remaining[0])))
    ensures remaining[0] !in options && remaining[0] != "with" && remaining[0] != "only" ==>
      IncludeOptions(tp, remaining, options) == Err(Syntax(UnknownOption(remaining[0])))
    ensures remaining[0] == "with" && "with" !in options && tp.tokenKwargs(remaining[1..]).Ok? && tp.tokenKwargs(remaining[1..]).value.0 == map[] ==>
      IncludeOptions(tp, remaining, options) == Err(Syntax(EmptyWith))
  {
  }

  /**
   * Without `with`, the options are accepted iff they are nothing or a
   * single `only`; `only` twice is a duplicate and anything else is unknown.
   * When accepted, `only` is recorded iff it was given.
   */
  lemma {:induction false} OptionsWithoutWith(tp: TagParsing, remaining: seq<string>)
    requires "with" !in remaining
    ensures IncludeOptions(tp, remaining, map[]).Ok? <==> remaining == [] || remaining == ["only"]
    ensures IncludeOptions(tp, remaining, map[]).Ok? ==>
      ("only" in IncludeOptions(tp, remaining, map[]).value <==> "only" in remaining)
  {
    if remaining != [] && remaining[0] == "only" {
      var rest := remaining[1..];
      var only := map["only" := OnlyFlag];
      assert IncludeOptions(tp, remaining, map[]) == IncludeOptions(tp, rest, only);
      if rest != [] {
        assert rest[0] != "with" by { assert rest[0] == remaining[1]; }
        IncludeOptionErrors(tp, rest, only);
        assert IncludeOptions(tp, rest, only).Err?;
        assert remaining != ["only"];
      }
    }
  }

  /** The `with` map recorded among the options, or an empty map. */
  function Namemap(options: map<string, OptionValue>): map<string, Expr>
  {
    if "with" in options && options["with"].WithKwargs? then options["with"].kwargs else map[]
  }

  /** A path whose first and last characters are the same quote names a constant template. */
  predicate IsQuoted(path: string)
    requires |path| > 0
  {
    (path[0] == '"' || path[0] == '\'') && path[|path| - 1] == path[0]
  }

  /** `path[1:-1]`, which is empty for a path of one character. */
  function Unquoted(path: string): (r: string)
    ensures |path| >= 2 ==> |r| == |path| - 2 && forall i :: 0 <= i < |r| ==> r[i] == path[i + 1]
    ensures |path| < 2 ==> r == ""
  {
    if |path| >= 2 then path[1..|path| - 1] else ""
  }

  /**
   * `ConstantIncludeNode.__init__`: the template is looked up once; a failure
   * propagates under debug and leaves the node without template otherwise.
   */
  function ConstantIncludeIn(engine: Engine, chain: seq<LoaderRef>, path: string, oc: OutputContext, extra: map<string, Expr>, isolated: bool)
    : (r: Result<IncludeNode>)
    ensures !engine.debug ==> r.Ok?
    ensures r.Ok? ==> r.value.ConstantInclude? && r.value.extra == extra && r.value.isolated == isolated
    ensures r.Ok? ==> (r.value.template.Some? <==> GetIn(engine, chain, path, Some(oc)).Ok?)
    ensures r.Ok? && r.value.template.Some? ==> GetIn(engine, chain, path, Some(oc)) == Ok(r.value.template.value)
    ensures r.Err? ==>
      && engine.debug
      && GetIn(engine, chain, path, Some(oc)).Err?
      && r == Err(GetIn(engine, chain, path, Some(oc)).error)
    ensures engine.debug && GetIn(engine, chain, path, Some(oc)).Err? ==>
      r == Err(GetIn(engine, chain, path, Some(oc)).error)
  {
    match GetIn(engine, chain, path, Some(oc))
    case Ok(t) => Ok(ConstantInclude(Some(t), extra, isolated))
    case Err(e) => if engine.debug then Err(e) else Ok(ConstantInclude(None, extra, isolated))
  }

  /** `do_include` over a loader chain, given the parser's output context before the tag. */
  function IncludeIn(engine: Engine, tp: TagParsing, chain: seq<LoaderRef>, bits: seq<string>, parserOc: Option<OutputContext>)
    : (r: Result<IncludeNode>)
    ensures |bits| < 2 ==> r == Err(Syntax(IncludeTooFewArgs))
    ensures r.Ok? ==> |bits| >= 2 && IncludeOptions(tp, bits[2..], map[]).Ok?
    ensures r.Ok? ==>
      var options := IncludeOptions(tp, bits[2..], map[]).value;
      && r.value.isolated == ("only" in options)
      && r.value.extra == Namemap(options)
    ensures r.Ok? && r.value.DynamicInclude? ==>
      && r.value.outputContext == OrEmpty(parserOc)
      && tp.compileFilter(bits[1]) == Ok(r.value.templateName)
      && |bits[1]| > 0 && !IsQuoted(bits[1])
    ensures r.Ok? && r.value.ConstantInclude? ==> |bits[1]| > 0 && IsQuoted(bits[1])
    ensures |bits| >= 2 && IncludeOptions(tp, bits[2..], map[]).Ok? && |bits[1]| == 0 ==>
      r == Err(Other(IndexErrorCode))
    ensures |bits| >= 2 && IncludeOptions(tp, bits[2..], map[]).Ok? && |bits[1]| > 0 && IsQuoted(bits[1]) ==>
      var options := IncludeOptions(tp, bits[2..], map[]).value;
      r == ConstantIncludeIn(engine, chain, Unquoted(bits[1]), OrEmpty(parserOc), Namemap(options), "only" in options)
    ensures |bits| >= 2 && IncludeOptions(tp, bits[2..], map[]).Err? ==>
      r == Err(IncludeOptions(tp, bits[2..], map[]).error)
    ensures |bits| >= 2 && IncludeOptions(tp, bits[2..], map[]).Ok? && |bits[1]| > 0 && !IsQuoted(bits[1]) ==>
      var options := IncludeOptions(tp, bits[2..], map[]).value;
      && (tp.compileFilter(bits[1]).Err? ==> r == Err(tp.compileFilter(bits[1]).error))
      && (tp.compileFilter(bits[1]).Ok? ==>
            r == Ok(DynamicInclude(tp.compileFilter(bits[1]).value, OrEmpty(parserOc), Namemap(options), "only" in options)))
    ensures r.Ok? ==> (r.value.isolated <==> "only" in OptionWords(tp, bits[2..]))
  {
    if |bits| < 2 then Err(Syntax(IncludeTooFewArgs))
    else
      match IncludeOptions(tp, bits[2..], map[])
      case Err(e) => Err(e)
      case Ok(options) =>
        var isolated := "only" in options;
        var namemap := Namemap(options);
        var path := bits[1];
        var oc := OrEmpty(parserOc);
        if |path| == 0 then Err(Other(IndexErrorCode))
        else if IsQuoted(path) then ConstantIncludeIn(engine, chain, Unquoted(path), oc, namemap, isolated)
        else
          match tp.compileFilter(path)
          case Err(e) => Err(e)
          case Ok(expr) => Ok(DynamicInclude(expr, oc, namemap, isolated))
  }

  /** `do_include` step by step, with the popping option loop and the parser update. */
  method DoInclude(parser: Parser, bits: seq<string>, tp: TagParsing, registry: LoaderRegistry, engine: Engine)
    returns (r: Result<IncludeNode>)
    modifies parser, registry
    ensures registry.Chain() == old(registry.Chain())
    ensures r == IncludeIn(engine, tp, old(registry.Chain()), bits, old(parser.outputContext))
    ensures parser.outputContext ==
      if |bits| >= 2 && IncludeOptions(tp, bits[2..], map[]).Ok? then Some(OrEmpty(old(parser.outputContext)))
      else old(parser.outputContext)
  {
    if |bits| < 2 {
      return Err(Syntax(IncludeTooFewArgs));
    }
    var options: map<string, OptionValue> := map[];
    var remaining := bits[2..];
    while remaining != []
      invariant IncludeOptions(tp, bits[2..], map[]) == IncludeOptions(tp, remaining, options)
      decreases |remaining|
    {
      var option := remaining[0];
      remaining := remaining[1..];
      if option in options {
        return Err(Syntax(DuplicateOption(option)));
      }
      var value: OptionValue;
      if option == "with" {
        var found := tp.tokenKwargs(remaining);
        if found.Err? {
          return Err(found.error);
        }
        if |found.value.0| == 0 {
          return Err(Syntax(EmptyWith));
        }
        remaining := Consume(remaining, found.value.1);
        value := WithKwargs(found.value.0);
      } else if option == "only" {
        value := OnlyFlag;
      } else {
        return Err(Syntax(UnknownOption(option)));
      }
      options := options[option := value];
    }
    var isolated := "only" in options;
    var namemap := Namemap(options);
    var path := bits[1];
    if parser.outputContext.None? {
      parser.outputContext := Some(map[]);
    }
    var oc := parser.outputContext.value;
    if |path| == 0 {
      return Err(Other(IndexErrorCode));
    }
    if IsQuoted(path) {
      var t := registry.GetTemplate(engine, Unquoted(path), Some(oc));
      if t.Ok? {
        r := Ok(ConstantInclude(Some(t.value), namemap, isolated));
      } else if engine.debug {
        r := Err(t.error);
      } else {
        r := Ok(ConstantInclude(None, namemap, isolated));
      }
    } else {
      var expr := tp.compileFilter(path);
      if expr.Err? {
        return Err(expr.error);
      }
      r := Ok(DynamicInclude(expr.value, oc, namemap, isolated));
    }
  }

  // ---------------------------------------------------------------------
  // Rendering the include nodes
  // ---------------------------------------------------------------------

  /** What the `try` block of `IncludeNode.render` yields: resolve the name, look it up, render it. */
  function DynamicAttempt(engine: Engine, renderer: Renderer, chain: seq<LoaderRef>, node: IncludeNode, ctx: RenderContext)
    : Result<string>
    requires node.DynamicInclude?
  {
    match renderer.resolveName(node.templateName, ctx)
    case Err(e) => Err(e)
    case Ok(name) =>
      match GetIn(engine, chain, name, Some(node.outputContext))
      case Err(e) => Err(e)
      case Ok(t) => renderer.renderTemplate(t, ctx, node.extra, node.isolated)
  }

  /**
   * Rendering an include node. A constant include without template renders
   * nothing; one with a template renders it and lets its errors through. A
   * dynamic include never fails when debug is off (any failure renders as
   * the empty string) and fails exactly as its attempt does when debug is on.
   */
  function RenderIncludeIn(engine: Engine, renderer: Renderer, chain: seq<LoaderRef>, node: IncludeNode, ctx: RenderContext)
    : (r: Result<string>)
    ensures node.ConstantInclude? && node.template.None? ==> r == Ok("")
    ensures node.ConstantInclude? && node.template.Some? ==>
      r == renderer.renderTemplate(node.template.value, ctx, node.extra, node.isolated)
    ensures node.DynamicInclude? && !engine.debug ==> r.Ok?
    ensures node.DynamicInclude? && !engine.debug && DynamicAttempt(engine, renderer, chain, node, ctx).Err? ==> r == Ok("")
    ensures node.DynamicInclude? && (engine.debug || DynamicAttempt(engine, renderer, chain, node, ctx).Ok?) ==>
      r == DynamicAttempt(engine, renderer, chain, node, ctx)
  {
    match node
    case ConstantInclude(template, extra, isolated) =>
      if template.None? then Ok("") else renderer.renderTemplate(template.value, ctx, extra, isolated)
    case DynamicInclude(_, _, _, _) =>
      var attempt := DynamicAttempt(engine, renderer, chain, node, ctx);
      if attempt.Ok? || engine.debug then attempt else Ok("")
  }

  /** `ConstantIncludeNode.render` and `IncludeNode.render`. */
  method RenderInclude(node: IncludeNode, registry: LoaderRegistry, engine: Engine, renderer: Renderer, ctx: RenderContext)
    returns (r: Result<string>)
    modifies registry
    ensures registry.Chain() == old(registry.Chain())
    ensures r == RenderIncludeIn(engine, renderer, old(registry.Chain()), node, ctx)
  {
    match node {
      case ConstantInclude(template, extra, isolated) =>
        if template.None? {
          return Ok("");
        }
        r := renderer.renderTemplate(template.value, ctx, extra, isolated);
      case DynamicInclude(templateName, oc, extra, isolated) =>
        var attempt: Result<string>;
        var name := renderer.resolveName(templateName, ctx);
        if name.Err? {
          attempt := Err(name.error);
        } else {
          var t := registry.GetTemplate(engine, name.value, Some(oc));
          if t.Err? {
            attempt := Err(t.error);
          } else {
            attempt := renderer.renderTemplate(t.value, ctx, extra, isolated);
          }
        }
        if attempt.Err? && !engine.debug {
          r := Ok("");
        } else {
          r := attempt;
        }
    }
  }

  // ---------------------------------------------------------------------
  // do_extends and ExtendsNode.get_parent
  // ---------------------------------------------------------------------

  /** `(k, v)` is in `pairs` and no later pair has the name `k`. */
  predicate LastOf(pairs: seq<(string, nat)>, k: string, v: nat)
  {
    exists i :: 0 <= i < |pairs| && pairs[i] == (k, v) && forall j :: i < j < |pairs| ==> pairs[j].0 != k
  }

  /** `dict([(n.name, n) for n in blocks])`: every listed name is a key, and its value is the last node of that name. */
  function BlockMap(pairs: seq<(string, nat)>): (r: map<string, nat>)
    ensures forall k :: k in r <==> exists i :: 0 <= i < |pairs| && pairs[i].0 == k
    ensures forall k :: k in r ==> LastOf(pairs, k, r[k])
    decreases |pairs|
  {
    if pairs == [] then map[]
    else
      var init := pairs[..|pairs| - 1];
      var last := pairs[|pairs| - 1];
      var r := BlockMap(init)[last.0 := last.1];
      assert forall i :: 0 <= i < |init| ==> init[i] == pairs[i];
      r
  }

  /** `do_extends` given the parser's output context before the tag. */
  function ExtendsIn(tp: TagParsing, bits: seq<string>, parserOc: Option<OutputContext>): (r: Result<ExtendsNode>)
    ensures |bits| != 2 ==> r == Err(Syntax(ExtendsArity))
    ensures r.Ok? ==>
      && |bits| == 2
      && tp.compileFilter(bits[1]) == Ok(r.value.parentName)
      && tp.parseRest(parserOc) == Ok(r.value.nodelist)
      && !tp.containsExtends(r.value.nodelist)
      && r.value.templateDirs == None
      && r.value.outputContext == OrEmpty(parserOc)
      && r.value.blocks == BlockMap(tp.blockNodes(r.value.nodelist))
    ensures (|bits| == 2 && tp.compileFilter(bits[1]).Ok? && tp.parseRest(parserOc).Ok?
             && tp.containsExtends(tp.parseRest(parserOc).value)) ==> r == Err(Syntax(ExtendsTwice))
    ensures |bits| == 2 && tp.compileFilter(bits[1]).Err? ==> r == Err(tp.compileFilter(bits[1]).error)
    ensures |bits| == 2 && tp.compileFilter(bits[1]).Ok? && tp.parseRest(parserOc).Err? ==>
      r == Err(tp.parseRest(parserOc).error)
    ensures (|bits| == 2 && tp.compileFilter(bits[1]).Ok? && tp.parseRest(parserOc).Ok?
             && !tp.containsExtends(tp.parseRest(parserOc).value)) ==>
      var nodelist := tp.parseRest(parserOc).value;
      r == Ok(ExtendsNode(nodelist, tp.compileFilter(bits[1]).value, None, BlockMap(tp.blockNodes(nodelist)), OrEmpty(parserOc)))
  {
    if |bits| != 2 then Err(Syntax(ExtendsArity))
    else
      match tp.compileFilter(bits[1])
      case Err(e) => Err(e)
      case Ok(parentName) =>
        match tp.parseRest(parserOc)
        case Err(e) => Err(e)
        case Ok(nodelist) =>
          if tp.containsExtends(nodelist) then Err(Syntax(ExtendsTwice))
          else
            var blocks := BlockMap(tp.blockNodes(nodelist));
            Ok(ExtendsNode(nodelist, parentName, None, blocks, OrEmpty(parserOc)))
  }

  /** `do_extends` step by step; the parser gets its default output context only on success. */
  method DoExtends(parser: Parser, bits: seq<string>, tp: TagParsing) returns (r: Result<ExtendsNode>)
    modifies parser
    ensures r == ExtendsIn(tp, bits, old(parser.outputContext))
    ensures parser.outputContext == if r.Ok? then Some(OrEmpty(old(parser.outputContext))) else old(parser.outputContext)
  {
    if |bits| != 2 {
      return Err(Syntax(ExtendsArity));
    }
    var parentName := tp.compileFilter(bits[1]);
    if parentName.Err? {
      return Err(parentName.error);
    }
    var nodelist := tp.parseRest(parser.outputContext);
    if nodelist.Err? {
      return Err(nodelist.error);
    }
    if tp.containsExtends(nodelist.value) {
      return Err(Syntax(ExtendsTwice));
    }
    if parser.outputContext.None? {
      parser.outputContext := Some(map[]);
    }
    var blocks := BlockMap(tp.blockNodes(nodelist.value));
    r := Ok(ExtendsNode(nodelist.value, parentName.value, None, blocks, parser.outputContext.value));
  }

  /**
   * `ExtendsNode.get_parent` over a chain: a falsy parent is a syntax error,
   * a compiled template is returned as it is, a name is looked up with the
   * node's output context.
   */
  function ParentIn(engine: Engine, renderer: Renderer, chain: seq<LoaderRef>, node: ExtendsNode, ctx: RenderContext)
    : (r: Result<Template>)
    ensures renderer.resolveParent(node.parentName, ctx).Ok? ==>
      match renderer.resolveParent(node.parentName, ctx).value
      case ParentFalsy => r == Err(Syntax(InvalidParent))
      case ParentTemplate(t) => r == Ok(t)
      case ParentName(n) =>
        r == if n == "" then Err(Syntax(InvalidParent)) else GetIn(engine, chain, n, Some(node.outputContext))
    ensures renderer.resolveParent(node.parentName, ctx).Err? ==> r == Err(renderer.resolveParent(node.parentName, ctx).error)
  {
    match renderer.resolveParent(node.parentName, ctx)
    case Err(e) => Err(e)
    case Ok(ParentFalsy) => Err(Syntax(InvalidParent))
    case Ok(ParentName(n)) =>
      if n == "" then Err(Syntax(InvalidParent)) else GetIn(engine, chain, n, Some(node.outputContext))
    case Ok(ParentTemplate(t)) => Ok(t)
  }

  /** `ExtendsNode.get_parent` step by step, through the memoised chain. */
  method GetParent(node: ExtendsNode, registry: LoaderRegistry, engine: Engine, renderer: Renderer, ctx: RenderContext)
    returns (r: Result<Template>)
    modifies registry
    ensures registry.Chain() == old(registry.Chain())
    ensures r == ParentIn(engine, renderer, old(registry.Chain()), node, ctx)
  {
    var parent := renderer.resolveParent(node.parentName, ctx);
    if parent.Err? {
      return Err(parent.error);
    }
    match parent.value {
      case ParentFalsy =>
        r := Err(Syntax(InvalidParent));
      case ParentName(n) =>
        if n == "" {
          r := Err(Syntax(InvalidParent));
        } else {
          r := registry.GetTemplate(engine, n, Some(node.outputContext));
        }
      case ParentTemplate(t) =>
        r := Ok(t);
    }
  }
}
