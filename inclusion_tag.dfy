/**
 * Inclusion tags (`Library.inclusion_tag` and `generic_tag_compiler` in
 * outputcontext/template/base.py): a tag whose function returns a mapping
 * that becomes the context of a sub-template. The sub-template is resolved
 * through the output-context-aware loader on the first render whose node
 * list is still unset or empty, and the node list is then cached on the node.
 */
module InclusionTag {
  import opened Types
  import opened Base
  import opened Loader

  /** The code standing for the TypeError of a call that leaves a parameter unbound. */
  const TypeErrorCode: nat := 1

  /** The sub-template reference given to the decorator. */
  datatype TemplateRef =
    | TemplateObject(template: Template)   // an already compiled template
    | Candidates(names: seq<string>)       // a non-string iterable of names
    | SingleName(name: string)             // anything else, taken as one name

  /** The decorated function: its `__name__`, that of `_decorated_function` if any, and its behaviour. */
  datatype TagFunction = TagFunction(
    name: string,
    decoratedName: Option<string>,
    call: (seq<Value>, map<string, Value>) -> Result<map<string, Value>>
  )

  /** The arguments `generic_tag_compiler` hands to the node class. */
  datatype TagNodeArgs = TagNodeArgs(takesContext: bool, outputContext: OutputContext, args: seq<Expr>, kwargs: map<string, Expr>)

  /** What one render yields: the output and the node list cached afterwards. */
  datatype RenderOutcome = RenderOutcome(result: Result<string>, nodelist: Option<NodeList>)

  /**
   * The tag name: the explicit name unless it is empty or absent, else the
   * name of `_decorated_function`, else the function's own name.
   */
  function TagName(explicit: Option<string>, func: TagFunction): (r: string)
    ensures explicit.Some? && explicit.value != "" ==> r == explicit.value
    ensures (explicit.None? || explicit.value == "") && func.decoratedName.Some? ==> r == func.decoratedName.value
    ensures (explicit.None? || explicit.value == "") && func.decoratedName.None? ==> r == func.name
  {
    if explicit.Some? && explicit.value != "" then explicit.value
    else if func.decoratedName.Some? then func.decoratedName.value
    else func.name
  }

  /** `bits[1:]`: the tag's contents without the tag name. */
  function Tail(bits: seq<string>): seq<string>
  {
    if bits == [] then [] else bits[1..]
  }

  /**
   * `generic_tag_compiler`: the tag name is dropped, the remaining bits are
   * bound by `parse_bits`, and a None output context becomes an empty
   * mapping while any other value is passed on unchanged.
   */
  function GenericTagCompiler(
    parseBits: seq<string> -> Result<(seq<Expr>, map<string, Expr>)>,
    bits: seq<string>, takesContext: bool, oc: Option<OutputContext>)
    : (r: Result<TagNodeArgs>)
    ensures r.Ok? <==> parseBits(Tail(bits)).Ok?
    ensures r.Err? ==> r.error == parseBits(Tail(bits)).error
    ensures r.Ok? ==>
      && r.value.takesContext == takesContext
      && (r.value.args, r.value.kwargs) == parseBits(Tail(bits)).value
      && (oc.Some? ==> r.value.outputContext == oc.value)
      && (oc.None? ==> r.value.outputContext == map[])
  {
    var oc' := OrEmpty(oc);
    match parseBits(Tail(bits))
    case Err(e) => Err(e)
    case Ok((args, kwargs)) => Ok(TagNodeArgs(takesContext, oc', args, kwargs))
  }

  // ---------------------------------------------------------------------
  // How the registered compile function is called
  // ---------------------------------------------------------------------

  /** The parameters of `generic_tag_compiler`, in order; none has a default. */
  const CompilerParams: seq<string> :=
    ["parser", "token", "params", "varargs", "varkw", "defaults", "name", "takes_context", "output_context", "node_class"]

  /** The keywords the `partial` registered by `inclusion_tag` binds. */
  const PartialKeywords: set<string> := {"params", "varargs", "varkw", "defaults", "name", "takes_context", "node_class"}

  /** The parameters a call leaves unbound when it passes `positional` arguments and the keywords. */
  function Unbound(params: seq<string>, positional: nat, keywords: set<string>): (r: set<string>)
    ensures forall p :: p in r <==> p !in keywords && exists i :: positional <= i < |params| && params[i] == p
  {
    set i | positional <= i < |params| && params[i] !in keywords :: params[i]
  }

  /**
   * The registered compile function as written, called as the host parser
   * calls every tag compiler: with the parser and the token only. A call
   * that leaves a parameter unbound raises TypeError.
   */
  function RegisteredCompileAsWritten(
    parseBits: seq<string> -> Result<(seq<Expr>, map<string, Expr>)>,
    bits: seq<string>, takesContext: bool, parserOc: Option<OutputContext>)
    : Result<TagNodeArgs>
  {
    if Unbound(CompilerParams, 2, PartialKeywords) != {} then Err(Other(TypeErrorCode))
    else GenericTagCompiler(parseBits, bits, takesContext, parserOc)
  }

  /** As written, `output_context` is the one parameter left unbound, so every inclusion tag fails to compile. */
  lemma AsWrittenNeverCompiles(
    parseBits: seq<string> -> Result<(seq<Expr>, map<string, Expr>)>,
    bits: seq<string>, takesContext: bool, parserOc: Option<OutputContext>)
    ensures Unbound(CompilerParams, 2, PartialKeywords) == {"output_context"}
    ensures RegisteredCompileAsWritten(parseBits, bits, takesContext, parserOc) == Err(Other(TypeErrorCode))
  {
    var u := Unbound(CompilerParams, 2, PartialKeywords);
    assert CompilerParams[8] == "output_context";
    assert "output_context" in u;
    forall p | p in u
      ensures p == "output_context"
    {
      var i :| 2 <= i < |CompilerParams| && CompilerParams[i] == p;
      assert i == 8;
    }
  }

  /**
   * The compile function as evidently intended: the output context is the
   * one attached to the parser, as the `include` and `extends` compilers
   * read it; the node receives it, or an empty mapping when there is none.
   */
  function CompileInclusionTag(
    parser: Parser,
    parseBits: seq<string> -> Result<(seq<Expr>, map<string, Expr>)>,
    bits: seq<string>, takesContext: bool)
    : (r: Result<TagNodeArgs>)
    reads parser
    ensures r.Ok? <==> parseBits(Tail(bits)).Ok?
    ensures r.Ok? ==> r.value.outputContext == OrEmpty(parser.outputContext)
  {
    GenericTagCompiler(parseBits, bits, takesContext, parser.outputContext)
  }

  // ---------------------------------------------------------------------
  // Rendering
  // ---------------------------------------------------------------------

  /** The sub-template for a reference: used as it is, selected among candidates, or looked up by name. */
  function ResolveRef(engine: Engine, chain: seq<LoaderRef>, ref: TemplateRef, oc: OutputContext): (r: Result<Template>)
    ensures ref.TemplateObject? ==> r == Ok(ref.template)
    ensures ref.Candidates? ==> r == SelectIn(engine, chain, ref.names, Some(oc))
    ensures ref.SingleName? ==> r == GetIn(engine, chain, ref.name, Some(oc))
  {
    match ref
    case TemplateObject(t) => Ok(t)
    case Candidates(names) => SelectIn(engine, chain, names, Some(oc))
    case SingleName(name) => GetIn(engine, chain, name, Some(oc))
  }

  /** The calling context's CSRF token when it is present and not None. */
  predicate HasCsrfToken(ctx: RenderContext)
  {
    "csrf_token" in ctx.vars && ctx.vars["csrf_token"] != NoneValue
  }

  /**
   * The context the sub-template is rendered in: the function's mapping,
   * the four flags of the calling context, and its CSRF token when that is
   * present and not None.
   */
  function NewContext(ctx: RenderContext, values: map<string, Value>): (r: RenderContext)
    ensures r.autoescape == ctx.autoescape && r.currentApp == ctx.currentApp
    ensures r.useL10n == ctx.useL10n && r.useTz == ctx.useTz
    ensures forall k :: k != "csrf_token" ==> (k in r.vars <==> k in values)
    ensures forall k :: k in values && k != "csrf_token" ==> r.vars[k] == values[k]
    ensures "csrf_token" in r.vars <==> HasCsrfToken(ctx) || "csrf_token" in values
    ensures HasCsrfToken(ctx) ==> r.vars["csrf_token"] == ctx.vars["csrf_token"]
    ensures !HasCsrfToken(ctx) ==> r.vars == values
  {
    var vars := if HasCsrfToken(ctx) then values["csrf_token" := ctx.vars["csrf_token"]] else values;
    RenderContext(ctx.autoescape, ctx.currentApp, ctx.useL10n, ctx.useTz, vars)
  }

  /** A node list is reused only when it is set and not empty (an empty one is falsy). */
  predicate IsCached(nodelist: Option<NodeList>)
  {
    nodelist.Some? && nodelist.value.nodes != []
  }

  /** The inclusion-tag node, whose sub-template node list is cached on first use. */
  class InclusionNode {
    const fileName: TemplateRef
    const func: TagFunction
    const takesContext: bool
    const args: seq<Expr>
    const kwargs: map<string, Expr>
    const outputContext: OutputContext
    var nodelist: Option<NodeList>

    constructor (fileName: TemplateRef, func: TagFunction, compiled: TagNodeArgs)
      ensures this.fileName == fileName && this.func == func
      ensures takesContext == compiled.takesContext && outputContext == compiled.outputContext
      ensures args == compiled.args && kwargs == compiled.kwargs
      ensures nodelist == None
    {
      this.fileName := fileName;
      this.func := func;
      takesContext := compiled.takesContext;
      outputContext := compiled.outputContext;
      args := compiled.args;
      kwargs := compiled.kwargs;
      nodelist := None;
    }

    /** The mapping the tag function returns for this render: the node's arguments resolved, then the function called. */
    function CallTag(renderer: Renderer, ctx: RenderContext): Result<map<string, Value>>
    {
      match renderer.resolveArgs(takesContext, args, kwargs, ctx)
      case Err(e) => Err(e)
      case Ok((values, kwValues)) => func.call(values, kwValues)
    }

    /**
     * One render from the cached node list `cache`: the arguments are
     * resolved and the function called first, and their failure is the
     * render's; the sub-template is resolved only when nothing usable is
     * cached, and the node list changes only then, to that template's node
     * list. The node list in use is rendered in the context `NewContext`
     * builds from the function's mapping.
     */
    function Outcome(engine: Engine, renderer: Renderer, chain: seq<LoaderRef>, cache: Option<NodeList>, ctx: RenderContext)
      : (o: RenderOutcome)
      ensures CallTag(renderer, ctx).Err? ==> o == RenderOutcome(Err(CallTag(renderer, ctx).error), cache)
      ensures CallTag(renderer, ctx).Ok? && IsCached(cache) ==>
        o == RenderOutcome(renderer.renderNodes(cache.value, NewContext(ctx, CallTag(renderer, ctx).value)), cache)
      ensures CallTag(renderer, ctx).Ok? && !IsCached(cache) && ResolveRef(engine, chain, fileName, outputContext).Err? ==>
        o == RenderOutcome(Err(ResolveRef(engine, chain, fileName, outputContext).error), cache)
      ensures CallTag(renderer, ctx).Ok? && !IsCached(cache) && ResolveRef(engine, chain, fileName, outputContext).Ok? ==>
        var nodes := ResolveRef(engine, chain, fileName, outputContext).value.nodelist;
        o == RenderOutcome(renderer.renderNodes(nodes, NewContext(ctx, CallTag(renderer, ctx).value)), Some(nodes))
      ensures IsCached(cache) ==> o.nodelist == cache
      ensures o.nodelist != cache ==>
        && !IsCached(cache)
        && ResolveRef(engine, chain, fileName, outputContext).Ok?
        && o.nodelist == Some(ResolveRef(engine, chain, fileName, outputContext).value.nodelist)
      ensures o.result.Ok? ==> o.nodelist.Some?
    {
      match CallTag(renderer, ctx)
      case Err(e) => RenderOutcome(Err(e), cache)
      case Ok(mapping) =>
        if IsCached(cache) then RenderOutcome(renderer.renderNodes(cache.value, NewContext(ctx, mapping)), cache)
        else
          match ResolveRef(engine, chain, fileName, outputContext)
          case Err(e) => RenderOutcome(Err(e), cache)
          case Ok(t) => RenderOutcome(renderer.renderNodes(t.nodelist, NewContext(ctx, mapping)), Some(t.nodelist))
    }

    /** `InclusionNode.render`. */
    method Render(registry: LoaderRegistry, engine: Engine, renderer: Renderer, ctx: RenderContext)
      returns (r: Result<string>)
      modifies this, registry
      ensures registry.Chain() == old(registry.Chain())
      ensures IsCached(old(nodelist)) ==> registry.sourceLoaders == old(registry.sourceLoaders)
      ensures RenderOutcome(r, nodelist) == Outcome(engine, renderer, old(registry.Chain()), old(nodelist), ctx)
    {
      var resolved := renderer.resolveArgs(takesContext, args, kwargs, ctx);
      if resolved.Err? {
        return Err(resolved.error);
      }
      var mapping := func.call(resolved.value.0, resolved.value.1);
      if mapping.Err? {
        return Err(mapping.error);
      }
      if !IsCached(nodelist) {
        var t: Result<Template>;
        match fileName {
          case TemplateObject(template) =>
            t := Ok(template);
          case Candidates(names) =>
            t := registry.SelectTemplate(engine, names, Some(outputContext));
          case SingleName(name) =>
            t := registry.GetTemplate(engine, name, Some(outputContext));
        }
        if t.Err? {
          return Err(t.error);
        }
        nodelist := Some(t.value.nodelist);
      }
      var newContext := NewContext(ctx, mapping.value);
      r := renderer.renderNodes(nodelist.value, newContext);
    }
  }

  /**
   * Once a usable node list is cached, a render neither changes it nor
   * depends on the loader chain: later changes to what lookup would find
   * do not change the sub-template.
   */
  lemma CachedRenderIgnoresLookup(node: InclusionNode, engine: Engine, renderer: Renderer, chain1: seq<LoaderRef>, chain2: seq<LoaderRef>, cache: Option<NodeList>, ctx: RenderContext)
    requires IsCached(cache)
    ensures node.Outcome(engine, renderer, chain1, cache, ctx) == node.Outcome(engine, renderer, chain2, cache, ctx)
    ensures node.Outcome(engine, renderer, chain1, cache, ctx).nodelist == cache
  {
  }

  /**
   * After a successful render, the next render from the resulting cache
   * reuses the same node list, unless the resolved template's node list
   * was empty.
   */
  lemma RenderTwiceReusesTemplate(node: InclusionNode, engine: Engine, renderer: Renderer, chain1: seq<LoaderRef>, chain2: seq<LoaderRef>, cache: Option<NodeList>, ctx1: RenderContext, ctx2: RenderContext)
    requires node.Outcome(engine, renderer, chain1, cache, ctx1).result.Ok?
    requires IsCached(node.Outcome(engine, renderer, chain1, cache, ctx1).nodelist)
    ensures var first := node.Outcome(engine, renderer, chain1, cache, ctx1);
      node.Outcome(engine, renderer, chain2, first.nodelist, ctx2).nodelist == first.nodelist
  {
  }
}
