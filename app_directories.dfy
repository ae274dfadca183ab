/**
 * The directory-based loader of this extension
 * (outputcontext/template/loaders/app_directories.py). It finds source
 * through the host's filesystem lookup, compiles it with the caller's output
 * context, and when that compilation reports a missing template it hands back
 * the raw source instead, so that the missing name is attributed by the
 * caller to the template that was asked for.
 */
module AppDirectories {
  import opened Types
  import opened Base

  /**
   * `Loader.load_template`. A failing source lookup propagates as it is;
   * a compiled result comes with no display name; a compile that raises
   * not-found falls back to the looked-up (source, display name); any other
   * compile error propagates.
   */
  function LoadTemplate(engine: Engine, name: string, dirs: Dirs, oc: Option<OutputContext>)
    : (r: Result<(Loaded, Option<string>)>)
    ensures engine.appSource(name, dirs).Err? ==> r == Err(engine.appSource(name, dirs).error)
    ensures r.Err? && r.error.NotFound? ==> engine.appSource(name, dirs) == Err(r.error)
    ensures r.Ok? && r.value.0.Compiled? ==>
      && engine.appSource(name, dirs).Ok?
      && r.value.1 == None
      && var (src, display) := engine.appSource(name, dirs).value;
         NewTemplate(engine, src, engine.makeOrigin(Some(display), name, dirs), Some(name), oc) == Ok(r.value.0.template)
    ensures r.Ok? && r.value.0.Raw? ==>
      && engine.appSource(name, dirs).Ok?
      && var (src, display) := engine.appSource(name, dirs).value;
         && r.value == (Raw(src), Some(display))
         && NewTemplate(engine, src, engine.makeOrigin(Some(display), name, dirs), Some(name), oc).Err?
         && NewTemplate(engine, src, engine.makeOrigin(Some(display), name, dirs), Some(name), oc).error.NotFound?
    ensures engine.appSource(name, dirs).Ok? ==>
      var (src, display) := engine.appSource(name, dirs).value;
      var compiled := NewTemplate(engine, src, engine.makeOrigin(Some(display), name, dirs), Some(name), oc);
      && (compiled.Ok? ==> r == Ok((Compiled(compiled.value), None)))
      && (compiled.Err? && !compiled.error.NotFound? ==> r == Err(compiled.error))
  {
    match engine.appSource(name, dirs)
    case Err(e) => Err(e)
    case Ok((src, display)) =>
      var origin := engine.makeOrigin(Some(display), name, dirs);
      match NewTemplate(engine, src, origin, Some(name), oc)
      case Ok(t) => Ok((Compiled(t), None))
      case Err(NotFound(_)) => Ok((Raw(src), Some(display)))
      case Err(e) => Err(e)
  }

  /** `Loader.__call__`: name, directories and output context go to `load_template` unchanged. */
  function Call(engine: Engine, name: string, dirs: Dirs, oc: Option<OutputContext>)
    : (r: Result<(Loaded, Option<string>)>)
    ensures r == LoadTemplate(engine, name, dirs, oc)
  {
    LoadTemplate(engine, name, dirs, oc)
  }

  /**
   * A template whose compilation fails only because some other template is
   * missing is still reported as found: the loader yields its source.
   */
  lemma NestedNotFoundYieldsSource(engine: Engine, name: string, dirs: Dirs, oc: Option<OutputContext>, missing: string)
    requires engine.appSource(name, dirs).Ok?
    requires var (src, display) := engine.appSource(name, dirs).value;
      NewTemplate(engine, src, engine.makeOrigin(Some(display), name, dirs), Some(name), oc) == Err(NotFound(missing))
    ensures Call(engine, name, dirs, oc) == Ok((Raw(engine.appSource(name, dirs).value.0), Some(engine.appSource(name, dirs).value.1)))
  {
  }
}
