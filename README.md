# Output-context template extension: a Dafny model

This project models `django-output-context`, an extension of Django's
template system. The extension passes one extra value, the *output context*
(an opaque mapping), through template lookup, compilation and rendering.
Tags that pull in other templates (`include`, `extends` and inclusion tags)
can then base their choice of template on it.

The model covers four parts of the extension:

- **Loader chain and template selection** (`loader.py`, module `Loader`).
  - The chain of configured loaders is built once, into this module's own
    `template_source_loaders` memo (class `LoaderRegistry`).
  - `find_template` takes the answer of the first loader that does not
    report the template missing.
  - `get_template` compiles source that a loader found, unless the loader
    already returned a compiled template.
  - `select_template` tries names in order. When none loads, it fails with
    the distinct not-found messages joined by `", "`.
  - `get_template_from_string` is exactly the `Template` constructor call,
    so the model uses `Base.NewTemplate` for it.
- **Directory loader** (`loaders/app_directories.py`, module `AppDirectories`).
  It compiles the source it found with the caller's output context. If that
  compile reports some other template missing, it returns the raw source
  instead.
- **`include` and `extends`** (`loader_tags.py`, module `LoaderTags`).
  - Option parsing for `include`.
  - The choice between a constant include and a dynamic include.
  - The debug-dependent suppression of render failures.
  - The checks of `extends` and its parent lookup.
- **Compilation and inclusion tags** (`base.py`, modules `Base` and `InclusionTag`).
  - `compile_string` attaches the output context to the parser.
  - `Template.__init__`.
  - `generic_tag_compiler` and the tag-name choice.
  - `InclusionNode.render`, with its node-list cache, its dispatch on the
    three kinds of template reference, and the context it builds.

Django's lexer, parser, filesystem lookup and rendering are not modelled.
They appear as function-valued fields of `Types.Engine`,
`Types.Renderer` and `LoaderTags.TagParsing`. The settings
`TEMPLATE_DEBUG` and `TEMPLATE_LOADERS` are inputs: `Engine.debug` and
`LoaderRegistry.configured`. Exceptions become the `Types.Error`
datatype: `NotFound` (TemplateDoesNotExist), `Syntax` (TemplateSyntaxError,
with a reason instead of a message), `Encoding` and `Other`.

Each operation that the source runs step by step is a method: the memo
build, the `find_template` and `select_template` loops, the `include`
option loop, and the node-list cache. Each such method is proved equal to a
pure function over the loader chain (`FindIn`, `GetIn`, `SelectIn`,
`IncludeIn`, ...), and the properties are proved about those functions. Every
lookup method also proves that the chain it uses never changes once built.

## Model

| member | source | states |
|---|---|---|
| `Base.CompileString` | outputcontext/template/base.py:17-28 | the debug lexer and parser are used iff debug is on, and the parser parses with the given output context attached, unchanged |
| `Base.NewTemplate` | outputcontext/template/base.py:43-55 | undecodable source is an encoding error; a compiled template keeps the given name; it gets a string origin exactly when debug is on and no origin was given; its nodes are what compiling with the same output context yields; compile errors pass through |
| `Base.MakeTemplate` | outputcontext/template/base.py:44-55 | running the constructor through `compile_string` gives exactly `NewTemplate` |
| `AppDirectories.LoadTemplate` | outputcontext/template/loaders/app_directories.py:12-27 | a failing source lookup propagates unchanged; a compiled result has no display name and was compiled under the requested name with the same output context; a successful compile gives (compiled template, None); a raw result is exactly the looked-up (source, display name) and occurs only when compiling raised not-found; any other compile error propagates; a not-found error can only come from the source lookup |
| `AppDirectories.Call` | outputcontext/template/loaders/app_directories.py:9-10 | name, directories and output context reach `load_template` unchanged |
| `AppDirectories.NestedNotFoundYieldsSource` | outputcontext/template/loaders/app_directories.py:22-27 | when compiling reports another template missing, the loader answers with the found source and display name |
| `Loader.BuildChain` | outputcontext/template/loader.py:21-27 | the built chain is never longer than the configuration |
| `Loader.BuildChainAppend` | outputcontext/template/loader.py:23-26 | building distributes over concatenation, so configured order is kept |
| `Loader.BuildChainMembers` | outputcontext/template/loader.py:23-26 | a loader is in the chain iff some configured name resolves to it; unresolved (None) names are dropped |
| `Loader.LoaderRegistry.EnsureChain` | outputcontext/template/loader.py:20-27 | the chain is built only when the memo is unset, and an existing memo is reused unchanged; afterwards the memo holds the chain |
| `Loader.OnlyAppDirSeesOutputContext` | outputcontext/template/loader.py:30-33 | a loader other than the extension's directory loader gives the same answer for any output context |
| `Loader.FindIn` | outputcontext/template/loader.py:28-37 | a not-found result names exactly the requested template |
| `Loader.FindInFirstWins` | outputcontext/template/loader.py:28-34 | the first loader in chain order that does not report not-found decides the result, with its display name made into an origin; cutting the chain after it changes nothing, so later loaders play no part |
| `Loader.FindInAllMissing` | outputcontext/template/loader.py:35-37 | lookup reports not-found iff every loader in the chain did |
| `Loader.LoaderRegistry.FindTemplate` | outputcontext/template/loader.py:16-37 | the loop's result is `FindIn` over the memoised chain; the memo is set to that chain |
| `Loader.GetIn` | outputcontext/template/loader.py:40-49 | a compiled loader result is returned unchanged; found source is compiled under the requested name with its origin and the same output context; lookup errors pass through |
| `Loader.LoaderRegistry.GetTemplate` | outputcontext/template/loader.py:40-49 | `GetIn` over the memoised chain |
| `Loader.MissingDependencyAttributed` | outputcontext/template/loaders/app_directories.py:18-27 | a directory-loaded template whose compile reports another template missing makes `get_template` report that missing template, not the requested name |
| `Loader.KeepFirst` | outputcontext/template/loader.py:60-61 | the kept messages have no duplicates and are exactly the messages seen |
| `Loader.SelectIn` | outputcontext/template/loader.py:53-54 | an empty name list fails with not-found "No template names provided" |
| `Loader.SelectFirstDecides` | outputcontext/template/loader.py:56-59 | the first name whose lookup does not report not-found decides: its template is returned, or its error propagates at once |
| `Loader.SelectAllMissing` | outputcontext/template/loader.py:55-64 | when every name is missing, the message is the `", "`-join of the distinct not-found messages in first-occurrence order, with no duplicates |
| `Loader.LoaderRegistry.SelectTemplate` | outputcontext/template/loader.py:51-64 | the loop's result is `SelectIn` over the memoised chain; an empty list leaves the memo untouched |
| `LoaderTags.IncludeOptions` | outputcontext/template/loader_tags.py:74-91 | options already recorded are kept; the recorded keys are exactly the words popped as options, each `with` with a non-empty keyword map or `only`; a leading `only` records the flag and a leading accepted `with` records the keyword map `token_kwargs` read after it |
| `LoaderTags.IncludeOptionErrors` | outputcontext/template/loader_tags.py:78-90 | a repeated option, an unknown option, and `with` that takes no keyword argument are syntax errors |
| `LoaderTags.OptionsWithoutWith` | outputcontext/template/loader_tags.py:76-92 | without `with`, options are accepted iff they are empty or a single `only`, and then `only` is recorded iff given |
| `LoaderTags.Unquoted` | outputcontext/template/loader_tags.py:97-98 | the quote-stripped path drops the first and last characters; a one-character path gives the empty string |
| `LoaderTags.ConstantIncludeIn` | outputcontext/template/loader_tags.py:11-19 | the template is looked up once with the output context; with debug off construction never fails and the node has a template iff lookup succeeded; with debug on a failed lookup propagates its error, and only then does construction fail |
| `LoaderTags.IncludeIn` | outputcontext/template/loader_tags.py:69-101 | fewer than two bits is a syntax error and option errors pass through; on success `isolated` holds iff `only` was popped as an option, and the extra context is the `with` map or empty; an empty path raises IndexError; a quoted path gives the constant include of the unquoted name, looked up with the parser's output context or `{}`; an unquoted path gives a dynamic include of the compiled expression with that output context, or the `compile_filter` error |
| `LoaderTags.DoInclude` | outputcontext/template/loader_tags.py:69-101 | the option loop gives `IncludeIn`; the parser's output context is defaulted to `{}` exactly when the options were accepted |
| `LoaderTags.RenderIncludeIn` | outputcontext/template/loader_tags.py:21-40 | a constant include without template renders `''`, and one with a template renders it without catching errors; a dynamic include with debug off never fails and turns any failure into `''`, and with debug on fails exactly as its lookup and rendering do |
| `LoaderTags.RenderInclude` | outputcontext/template/loader_tags.py:21-40 | the render methods give `RenderIncludeIn` over the memoised chain |
| `LoaderTags.BlockMap` | outputcontext/template/loader_tags.py:49 | the block map's keys are exactly the names of the block nodes, and each name maps to the last node of that name |
| `LoaderTags.ExtendsIn` | outputcontext/template/loader_tags.py:107-118 | anything but exactly two bits is a syntax error; `compile_filter` and parse errors pass through; a nested `extends` in the rest of the template is a syntax error; otherwise a node is built, holding the parsed node list, the compiled parent expression, no template dirs, the block map of its node list and the parser's output context or `{}` |
| `LoaderTags.DoExtends` | outputcontext/template/loader_tags.py:107-118 | gives `ExtendsIn`; the parser's output context is defaulted only when a node is built |
| `LoaderTags.ParentIn` | outputcontext/template/loader_tags.py:52-63 | a falsy parent (empty name or falsy value) is a syntax error; a compiled template is returned as is; a name is looked up with the node's output context; resolution errors pass through |
| `LoaderTags.GetParent` | outputcontext/template/loader_tags.py:52-63 | gives `ParentIn` over the memoised chain |
| `InclusionTag.TagName` | outputcontext/template/base.py:102-104 | the explicit name if non-empty, else the `_decorated_function` name, else the function's name |
| `InclusionTag.GenericTagCompiler` | outputcontext/template/base.py:31-40 | the tag name is dropped before `parse_bits`; its errors pass through; a None output context becomes `{}` and any other is passed on unchanged |
| `InclusionTag.AsWrittenNeverCompiles` | outputcontext/template/base.py:105-111 | called as the parser calls tag compilers, the registered function leaves exactly `output_context` unbound, so compiling any inclusion tag raises TypeError |
| `InclusionTag.CompileInclusionTag` | outputcontext/template/base.py:31-40 | the corrected compile function gives the node the parser's output context, or `{}` |
| `InclusionTag.ResolveRef` | outputcontext/template/base.py:78-85 | a compiled template is used directly, a list of names goes to `select_template`, a single name to `get_template`, both with the node's output context |
| `InclusionTag.NewContext` | outputcontext/template/base.py:87-99 | the new context copies autoescape, current_app, use_l10n and use_tz; its variables are the function's mapping, plus the caller's `csrf_token` exactly when that is present and not None |
| `InclusionTag.InclusionNode.constructor` | outputcontext/template/base.py:66-70 | the node stores the compiled arguments and output context and starts without a node list |
| `InclusionTag.InclusionNode.Outcome` | outputcontext/template/base.py:72-100 | argument resolution and function errors are the render's result, cache untouched; a cached (set, non-empty) node list is kept and rendered in `NewContext` of the function's mapping; otherwise the reference is resolved, its error returned with the cache untouched, or its node list cached and rendered in that context |
| `InclusionTag.InclusionNode.Render` | outputcontext/template/base.py:72-100 | gives `Outcome`; with a cached node list the loader memo is not touched |
| `InclusionTag.CachedRenderIgnoresLookup` | outputcontext/template/base.py:77-86 | with a cached node list the render does not depend on the loader chain and keeps the cache |
| `InclusionTag.RenderTwiceReusesTemplate` | outputcontext/template/base.py:77-86 | after a successful render that cached a non-empty node list, the next render keeps that node list whatever lookup would now find |

## Left out

- Django's lexer, parser, `parse_bits`, `token_kwargs`, `compile_filter`, `force_text` decoding, `FilterExpression.resolve`, `get_resolved_arguments`, `render_template` and `NodeList.render` are host-framework code. They are abstract functions of `Engine`, `Renderer` and `TagParsing`. So the model cannot follow the output context into tags that are compiled inside `parse`; it proves only that each call receives it.
- `make_origin`, `StringOrigin` contents and `LoaderOrigin` are diagnostic data. `make_origin` is abstract and is not given the loader object.
- Registration with `getargspec`, `functools.partial`, `self.tag`, `register.tag`, `add_to_builtins` and `__doc__` copying is runtime reflection, not modelled. The exception is the argument binding that `AsWrittenNeverCompiles` needs.
- Error messages built with `%r` are not modelled: syntax errors carry a reason. The exact messages kept are the `select_template` join and "No template names provided".
- `context_class` is taken to be Django's `Context`. Its built-in `True`/`False`/`None` entries are not modelled. Django writes the CSRF token into the function's own returned mapping; the model writes it only into the new context's variables.
- A `Template` object is taken to be always truthy in `if not self.template`.
- `LoaderTags.ParentIn`: a truthy parent value that is neither a string nor a template is not represented.
- `LoaderTags.RenderIncludeIn`: the resolved template name is always a string; other resolved values are not represented.
- `InclusionTag.ResolveRef`: only this extension's `Template` class counts as a compiled reference. A host-framework `Template` passed to the decorator is iterable, so it would be handed to `select_template` as a list of names; that case is not represented.
- `Loader.MissingDependencyAttributed`: rests on `make_origin` not being given the loader. `load_template` passes `self.load_template_source` and `find_template` passes the loader object, and the model gives both compiles the same origin. Origins steer no decision here, so the conclusion holds of the program too.
- Exceptions raised inside `BaseIncludeNode.__init__` are not modelled.
- `ExtendsNode` rendering (block resolution) belongs to the host framework. Only `get_parent` and the constructor are modelled.
- The memo is process-wide state. Concurrent first use is not modelled; rebuilding gives the same chain anyway.
- `setup.py` handles packaging only.

## Findings

| source | as written | input that shows it | evidently intended | confidence | as-written member | corrected member |
|---|---|---|---|---|---|---|
| outputcontext/template/base.py:105-111 | `generic_tag_compiler` takes `output_context` as a required positional parameter. The `partial` registered by `inclusion_tag` binds every other parameter except `parser` and `token`, and the host parser calls tag compilers as `compile_func(parser, token)`. | any template that uses a tag registered with `Library.inclusion_tag`, e.g. `{% my_tag %}` | the compile function reads the output context attached to the parser, as `do_include` and `do_extends` do | not executed; high (from reading the call convention) | `InclusionTag.AsWrittenNeverCompiles` | `InclusionTag.CompileInclusionTag` |
