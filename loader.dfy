/**
 * Template lookup of the extension (outputcontext/template/loader.py): the
 * lazily built loader chain, `find_template` (first loader that does not
 * report a missing template wins), `get_template` (compile what a loader
 * found unless it is already compiled) and `select_template` (first name
 * that loads, else every distinct not-found message joined by ", ").
 *
 * The pure functions `FindIn`, `GetIn` and `SelectIn` specify the lookups
 * over a given chain; `LoaderRegistry` holds the module-level memo of the
 * chain and runs the lookups as `find_template` and `select_template` do, with loops.
 */
module Loader {
  import opened Types
  import opened Base
  import AppDirectories

  const NoNamesMessage: string := "No template names provided"

  predicate IsNotFound<T>(r: Result<T>)
  {
    r.Err? && r.error.NotFound?
  }

  // ---------------------------------------------------------------------
  // The loader chain
  // ---------------------------------------------------------------------

  /** The loader a configured name stands for, as a zero- or one-element chain. */
  function Kept(loader: Option<LoaderRef>): seq<LoaderRef>
  {
    if loader.Some? then [loader.value] else []
  }

  /** The chain built from the configured loader names: unknown names dropped, order kept. */
  function BuildChain(names: seq<string>, findLoader: string -> Option<LoaderRef>): (chain: seq<LoaderRef>)
    ensures |chain| <= |names|
    decreases |names|
  {
    if names == [] then []
    else BuildChain(names[..|names| - 1], findLoader) + Kept(findLoader(names[|names| - 1]))
  }

  /** Building the chain distributes over concatenation of the configuration: the configured order is kept. */
  lemma {:induction false} BuildChainAppend(a: seq<string>, b: seq<string>, findLoader: string -> Option<LoaderRef>)
    ensures BuildChain(a + b, findLoader) == BuildChain(a, findLoader) + BuildChain(b, findLoader)
    decreases |b|
  {
    if b == [] {
      assert a + b == a;
    } else {
      var b' := b[..|b| - 1];
      assert (a + b)[..|a + b| - 1] == a + b';
      assert (a + b)[|a + b| - 1] == b[|b| - 1];
      BuildChainAppend(a, b', findLoader);
    }
  }

  /** Exactly the loaders that some configured name resolves to are in the chain. */
  lemma {:induction false} BuildChainMembers(names: seq<string>, findLoader: string -> Option<LoaderRef>, l: LoaderRef)
    ensures l in BuildChain(names, findLoader) <==> exists i :: 0 <= i < |names| && findLoader(names[i]) == Some(l)
    decreases |names|
  {
    if names != [] {
      var init := names[..|names| - 1];
      BuildChainMembers(init, findLoader, l);
      if exists i :: 0 <= i < |names| && findLoader(names[i]) == Some(l) {
        var i :| 0 <= i < |names| && findLoader(names[i]) == Some(l);
        if i < |names| - 1 {
          assert init[i] == names[i];
        }
      }
      if exists i :: 0 <= i < |init| && findLoader(init[i]) == Some(l) {
        var i :| 0 <= i < |init| && findLoader(init[i]) == Some(l);
        assert names[i] == init[i];
      }
    }
  }

  // ---------------------------------------------------------------------
  // find_template
  // ---------------------------------------------------------------------

  /** One loader call: only the extension's directory loader is given the output context. */
  function Invoke(engine: Engine, loader: LoaderRef, name: string, dirs: Dirs, oc: Option<OutputContext>)
    : Result<(Loaded, Option<string>)>
  {
    match loader
    case AppDirLoader => AppDirectories.Call(engine, name, dirs, oc)
    case OtherLoader(id) => engine.otherLoad(id, name, dirs)
  }

  /** A loader that is not the directory loader answers the same whatever the output context. */
  lemma OnlyAppDirSeesOutputContext(engine: Engine, loader: LoaderRef, name: string, dirs: Dirs, oc1: Option<OutputContext>, oc2: Option<OutputContext>)
    requires loader.OtherLoader?
    ensures Invoke(engine, loader, name, dirs, oc1) == Invoke(engine, loader, name, dirs, oc2)
  {
  }

  /** A loader's answer with its display name turned into an origin. */
  function WithOrigin(engine: Engine, answer: Result<(Loaded, Option<string>)>, name: string, dirs: Dirs)
    : Result<(Loaded, Option<Origin>)>
  {
    match answer
    case Ok((loaded, display)) => Ok((loaded, engine.makeOrigin(display, name, dirs)))
    case Err(e) => Err(e)
  }

  /**
   * `find_template` over a chain: loaders are tried in order, a not-found
   * answer moves on, any other answer is final. When it reports a missing
   * template, it names exactly the template asked for.
   */
  function FindIn(engine: Engine, chain: seq<LoaderRef>, name: string, dirs: Dirs, oc: Option<OutputContext>)
    : (r: Result<(Loaded, Option<Origin>)>)
    ensures IsNotFound(r) ==> r == Err(NotFound(name))
    decreases |chain|
  {
    if chain == [] then Err(NotFound(name))
    else
      var answer := Invoke(engine, chain[0], name, dirs, oc);
      if IsNotFound(answer) then FindIn(engine, chain[1..], name, dirs, oc)
      else WithOrigin(engine, answer, name, dirs)
  }

  /**
   * The first loader that does not report not-found decides the result, and
   * the loaders after it play no part (the chain may be cut after it).
   */
  lemma {:induction false} FindInFirstWins(engine: Engine, chain: seq<LoaderRef>, name: string, dirs: Dirs, oc: Option<OutputContext>, k: nat)
    requires k < |chain|
    requires forall j :: 0 <= j < k ==> IsNotFound(Invoke(engine, chain[j], name, dirs, oc))
    requires !IsNotFound(Invoke(engine, chain[k], name, dirs, oc))
    ensures FindIn(engine, chain, name, dirs, oc) == WithOrigin(engine, Invoke(engine, chain[k], name, dirs, oc), name, dirs)
    ensures FindIn(engine, chain, name, dirs, oc) == FindIn(engine, chain[..k + 1], name, dirs, oc)
    decreases k
  {
    if k > 0 {
      var rest := chain[1..];
      forall j | 0 <= j < k - 1
        ensures IsNotFound(Invoke(engine, rest[j], name, dirs, oc))
      {
        assert rest[j] == chain[j + 1];
      }
      FindInFirstWins(engine, rest, name, dirs, oc, k - 1);
      assert chain[..k + 1][1..] == rest[..k];
      assert chain[..k + 1][0] == chain[0];
    }
  }

  /** Not-found comes out of the chain iff every loader reported not-found. */
  lemma {:induction false} FindInAllMissing(engine: Engine, chain: seq<LoaderRef>, name: string, dirs: Dirs, oc: Option<OutputContext>)
    ensures IsNotFound(FindIn(engine, chain, name, dirs, oc))
        <==> forall j :: 0 <= j < |chain| ==> IsNotFound(Invoke(engine, chain[j], name, dirs, oc))
    decreases |chain|
  {
    if chain != [] {
      var rest := chain[1..];
      FindInAllMissing(engine, rest, name, dirs, oc);
      if forall j :: 0 <= j < |rest| ==> IsNotFound(Invoke(engine, rest[j], name, dirs, oc)) {
        if IsNotFound(Invoke(engine, chain[0], name, dirs, oc)) {
          forall j | 0 <= j < |chain|
            ensures IsNotFound(Invoke(engine, chain[j], name, dirs, oc))
          {
            if j > 0 { assert chain[j] == rest[j - 1]; }
          }
        }
      } else {
        var j :| 0 <= j < |rest| && !IsNotFound(Invoke(engine, rest[j], name, dirs, oc));
        assert chain[j + 1] == rest[j];
      }
    }
  }

  // ---------------------------------------------------------------------
  // get_template
  // ---------------------------------------------------------------------

  /**
   * `get_template` over a chain: a compiled loader result is returned as it
   * is; found source is compiled under the requested name with the same
   * output context; lookup errors pass through.
   */
  function GetIn(engine: Engine, chain: seq<LoaderRef>, name: string, oc: Option<OutputContext>): (r: Result<Template>)
    ensures FindIn(engine, chain, name, None, oc).Err? ==> r == Err(FindIn(engine, chain, name, None, oc).error)
    ensures FindIn(engine, chain, name, None, oc).Ok? ==>
      match FindIn(engine, chain, name, None, oc).value.0
      case Compiled(t) => r == Ok(t)
      case Raw(src) => r == NewTemplate(engine, src, FindIn(engine, chain, name, None, oc).value.1, Some(name), oc)
  {
    match FindIn(engine, chain, name, None, oc)
    case Err(e) => Err(e)
    case Ok((Compiled(t), _)) => Ok(t)
    case Ok((Raw(src), origin)) => NewTemplate(engine, src, origin, Some(name), oc)
  }

  /**
   * A directory-loaded template whose compilation reports another template
   * missing: lookup stops at that loader (the name itself exists), and the
   * compilation in `get_template` reports the missing template, not the
   * requested name.
   */
  lemma MissingDependencyAttributed(engine: Engine, chain: seq<LoaderRef>, name: string, oc: Option<OutputContext>, missing: string)
    requires chain != [] && chain[0] == AppDirLoader
    requires engine.appSource(name, None).Ok?
    requires var (src, display) := engine.appSource(name, None).value;
      NewTemplate(engine, src, engine.makeOrigin(Some(display), name, None), Some(name), oc) == Err(NotFound(missing))
    ensures GetIn(engine, chain, name, oc) == Err(NotFound(missing))
  {
    var (src, display) := engine.appSource(name, None).value;
    assert Invoke(engine, chain[0], name, None, oc) == Ok((Raw(src), Some(display)));
    assert FindIn(engine, chain, name, None, oc) == Ok((Raw(src), engine.makeOrigin(Some(display), name, None)));
  }

  // ---------------------------------------------------------------------
  // select_template
  // ---------------------------------------------------------------------

  predicate NoDuplicates(s: seq<string>)
  {
    forall i, j :: 0 <= i < j < |s| ==> s[i] != s[j]
  }

  /** Reference definition: the messages of `s`, each kept at its first occurrence only. */
  function KeepFirst(s: seq<string>): (r: seq<string>)
    ensures NoDuplicates(r)
    ensures forall m :: m in r <==> m in s
    decreases |s|
  {
    if s == [] then []
    else
      var init := s[..|s| - 1];
      var last := s[|s| - 1];
      assert s == init + [last];
      if last in init then KeepFirst(init) else KeepFirst(init) + [last]
  }

  /** `select_template`'s accumulation step: append a message unless it was already collected. */
  function Remember(notFound: seq<string>, msg: string): seq<string>
  {
    if msg in notFound then notFound else notFound + [msg]
  }

  lemma RememberKeepsFirst(seen: seq<string>, msg: string)
    ensures Remember(KeepFirst(seen), msg) == KeepFirst(seen + [msg])
  {
    assert (seen + [msg])[..|seen|] == seen;
  }

  /** `', '.join(parts)`. */
  function Join(parts: seq<string>): string
    decreases |parts|
  {
    if parts == [] then ""
    else if |parts| == 1 then parts[0]
    else parts[0] + ", " + Join(parts[1..])
  }

  /** The select loop from a given position, with the messages collected so far. */
  function SelectFrom(engine: Engine, chain: seq<LoaderRef>, names: seq<string>, notFound: seq<string>, oc: Option<OutputContext>)
    : Result<Template>
    decreases |names|
  {
    if names == [] then Err(NotFound(Join(notFound)))
    else
      var attempt := GetIn(engine, chain, names[0], oc);
      if IsNotFound(attempt) then SelectFrom(engine, chain, names[1..], Remember(notFound, attempt.error.msg), oc)
      else attempt
  }

  /** `select_template` over a chain. */
  function SelectIn(engine: Engine, chain: seq<LoaderRef>, names: seq<string>, oc: Option<OutputContext>): (r: Result<Template>)
    ensures names == [] ==> r == Err(NotFound(NoNamesMessage))
  {
    if names == [] then Err(NotFound(NoNamesMessage)) else SelectFrom(engine, chain, names, [], oc)
  }

  /** The not-found messages of the names, in order, one per name that is not found. */
  function MissingMessages(engine: Engine, chain: seq<LoaderRef>, names: seq<string>, oc: Option<OutputContext>): seq<string>
    decreases |names|
  {
    if names == [] then []
    else
      var attempt := GetIn(engine, chain, names[0], oc);
      (if IsNotFound(attempt) then [attempt.error.msg] else []) + MissingMessages(engine, chain, names[1..], oc)
  }

  /**
   * The first name whose lookup does not report not-found decides the
   * result: its template, or its error, which propagates at once.
   */
  lemma {:induction false} SelectFromFirstDecides(engine: Engine, chain: seq<LoaderRef>, names: seq<string>, notFound: seq<string>, oc: Option<OutputContext>, k: nat)
    requires k < |names|
    requires forall j :: 0 <= j < k ==> IsNotFound(GetIn(engine, chain, names[j], oc))
    requires !IsNotFound(GetIn(engine, chain, names[k], oc))
    ensures SelectFrom(engine, chain, names, notFound, oc) == GetIn(engine, chain, names[k], oc)
    decreases k
  {
    if k > 0 {
      var rest := names[1..];
      forall j | 0 <= j < k - 1
        ensures IsNotFound(GetIn(engine, chain, rest[j], oc))
      {
        assert rest[j] == names[j + 1];
      }
      var attempt := GetIn(engine, chain, names[0], oc);
      SelectFromFirstDecides(engine, chain, rest, Remember(notFound, attempt.error.msg), oc, k - 1);
    }
  }

  lemma SelectFirstDecides(engine: Engine, chain: seq<LoaderRef>, names: seq<string>, oc: Option<OutputContext>, k: nat)
    requires k < |names|
    requires forall j :: 0 <= j < k ==> IsNotFound(GetIn(engine, chain, names[j], oc))
    requires !IsNotFound(GetIn(engine, chain, names[k], oc))
    ensures SelectIn(engine, chain, names, oc) == GetIn(engine, chain, names[k], oc)
  {
    SelectFromFirstDecides(engine, chain, names, [], oc, k);
  }

  /** One step of the select loop past a name that is not found. */
  lemma SelectFromStep(engine: Engine, chain: seq<LoaderRef>, names: seq<string>, notFound: seq<string>, oc: Option<OutputContext>)
    requires names != [] && IsNotFound(GetIn(engine, chain, names[0], oc))
    ensures SelectFrom(engine, chain, names, notFound, oc)
         == SelectFrom(engine, chain, names[1..], Remember(notFound, GetIn(engine, chain, names[0], oc).error.msg), oc)
    ensures MissingMessages(engine, chain, names, oc)
         == [GetIn(engine, chain, names[0], oc).error.msg] + MissingMessages(engine, chain, names[1..], oc)
  {
  }

  /** Every name in `names` is reported not found, stated one name at a time. */
  predicate AllMissing(engine: Engine, chain: seq<LoaderRef>, names: seq<string>, oc: Option<OutputContext>)
    decreases |names|
  {
    names == [] || (IsNotFound(GetIn(engine, chain, names[0], oc)) && AllMissing(engine, chain, names[1..], oc))
  }

  lemma {:induction false} AllMissingFromEach(engine: Engine, chain: seq<LoaderRef>, names: seq<string>, oc: Option<OutputContext>)
    requires forall j :: 0 <= j < |names| ==> IsNotFound(GetIn(engine, chain, names[j], oc))
    ensures AllMissing(engine, chain, names, oc)
    decreases |names|
  {
    if names != [] {
      var rest := names[1..];
      forall j | 0 <= j < |rest|
        ensures IsNotFound(GetIn(engine, chain, rest[j], oc))
      {
        assert rest[j] == names[j + 1];
      }
      AllMissingFromEach(engine, chain, rest, oc);
    }
  }

  /** `select_template`'s accumulation over a run of messages, from the list collected so far. */
  function RememberAll(notFound: seq<string>, msgs: seq<string>): seq<string>
    decreases |msgs|
  {
    if msgs == [] then notFound else RememberAll(Remember(notFound, msgs[0]), msgs[1..])
  }

  lemma HeadThenTail(seen: seq<string>, msgs: seq<string>)
    requires msgs != []
    ensures (seen + [msgs[0]]) + msgs[1..] == seen + msgs
  {
    assert msgs == [msgs[0]] + msgs[1..];
  }

  /** Accumulating from a first-occurrence list is first-occurrence dedup of the whole run. */
  lemma {:induction false} RememberAllKeepsFirst(seen: seq<string>, acc: seq<string>, msgs: seq<string>)
    requires acc == KeepFirst(seen)
    ensures RememberAll(acc, msgs) == KeepFirst(seen + msgs)
    decreases |msgs|
  {
    if msgs == [] {
      assert seen + msgs == seen;
    } else {
      var next := seen + [msgs[0]];
      var nextAcc := Remember(acc, msgs[0]);
      assert nextAcc == KeepFirst(next) by { RememberKeepsFirst(seen, msgs[0]); }
      RememberAllKeepsFirst(next, nextAcc, msgs[1..]);
      assert RememberAll(acc, msgs) == RememberAll(nextAcc, msgs[1..]);
      assert next + msgs[1..] == seen + msgs by { HeadThenTail(seen, msgs); }
    }
  }

  lemma {:induction false} SelectFromAllMissing(engine: Engine, chain: seq<LoaderRef>, names: seq<string>, notFound: seq<string>, oc: Option<OutputContext>)
    requires AllMissing(engine, chain, names, oc)
    ensures SelectFrom(engine, chain, names, notFound, oc)
         == Err(NotFound(Join(RememberAll(notFound, MissingMessages(engine, chain, names, oc)))))
    decreases |names|
  {
    if names != [] {
      var m := GetIn(engine, chain, names[0], oc).error.msg;
      var later := MissingMessages(engine, chain, names[1..], oc);
      SelectFromStep(engine, chain, names, notFound, oc);
      SelectFromAllMissing(engine, chain, names[1..], Remember(notFound, m), oc);
      assert ([m] + later)[0] == m && ([m] + later)[1..] == later;
    }
  }

  /**
   * When no name can be found, the error joins the distinct not-found
   * messages with ", ", each at its first occurrence, none twice.
   */
  lemma SelectAllMissing(engine: Engine, chain: seq<LoaderRef>, names: seq<string>, oc: Option<OutputContext>)
    requires names != []
    requires forall j :: 0 <= j < |names| ==> IsNotFound(GetIn(engine, chain, names[j], oc))
    ensures SelectIn(engine, chain, names, oc) == Err(NotFound(Join(KeepFirst(MissingMessages(engine, chain, names, oc)))))
    ensures NoDuplicates(KeepFirst(MissingMessages(engine, chain, names, oc)))
  {
    AllMissingFromEach(engine, chain, names, oc);
    SelectFromAllMissing(engine, chain, names, [], oc);
    RememberAllKeepsFirst([], [], MissingMessages(engine, chain, names, oc));
    assert [] + MissingMessages(engine, chain, names, oc) == MissingMessages(engine, chain, names, oc);
  }

  // ---------------------------------------------------------------------
  // The memoised chain and the lookups as `loader.py` runs them, with loops
  // ---------------------------------------------------------------------

  /**
   * The module-level `template_source_loaders` memo, with the configured
   * loader names (TEMPLATE_LOADERS) and the host's `find_template_loader`.
   */
  class LoaderRegistry {
    const configured: seq<string>
    const findLoader: string -> Option<LoaderRef>
    var sourceLoaders: Option<seq<LoaderRef>>

    constructor (configured: seq<string>, findLoader: string -> Option<LoaderRef>)
      ensures this.configured == configured && this.findLoader == findLoader
      ensures sourceLoaders == None
    {
      this.configured := configured;
      this.findLoader := findLoader;
      sourceLoaders := None;
    }

    /** The chain every lookup uses: the memo once it is set, else what building it yields. */
    function Chain(): seq<LoaderRef>
      reads this
    {
      if sourceLoaders.Some? then sourceLoaders.value else BuildChain(configured, findLoader)
    }

    /** The memo step of `find_template`: build the chain only when the memo is unset, then reuse it. */
    method EnsureChain() returns (chain: seq<LoaderRef>)
      modifies this
      ensures chain == old(Chain())
      ensures old(sourceLoaders).Some? ==> chain == old(sourceLoaders).value
      ensures old(sourceLoaders).None? ==> chain == BuildChain(configured, findLoader)
      ensures sourceLoaders == Some(chain)
    {
      if sourceLoaders.None? {
        var loaders: seq<LoaderRef> := [];
        var i := 0;
        while i < |configured|
          invariant 0 <= i <= |configured|
          invariant loaders == BuildChain(configured[..i], findLoader)
        {
          var loader := findLoader(configured[i]);
          if loader.Some? {
            loaders := loaders + [loader.value];
          }
          assert configured[..i + 1][..i] == configured[..i];
          i := i + 1;
        }
        assert configured[..i] == configured;
        sourceLoaders := Some(loaders);
      }
      chain := sourceLoaders.value;
    }

    /** `find_template`. */
    method FindTemplate(engine: Engine, name: string, dirs: Dirs, oc: Option<OutputContext>)
      returns (r: Result<(Loaded, Option<Origin>)>)
      modifies this
      ensures sourceLoaders == Some(old(Chain())) && Chain() == old(Chain())
      ensures r == FindIn(engine, Chain(), name, dirs, oc)
    {
      var chain := EnsureChain();
      var i := 0;
      while i < |chain|
        invariant 0 <= i <= |chain|
        invariant sourceLoaders == Some(chain)
        invariant FindIn(engine, chain, name, dirs, oc) == FindIn(engine, chain[i..], name, dirs, oc)
      {
        var answer: Result<(Loaded, Option<string>)>;
        match chain[i] {
          case AppDirLoader =>
            answer := AppDirectories.Call(engine, name, dirs, oc);
          case OtherLoader(id) =>
            answer := engine.otherLoad(id, name, dirs);
        }
        if answer.Ok? {
          return Ok((answer.value.0, engine.makeOrigin(answer.value.1, name, dirs)));
        }
        if !answer.error.NotFound? {
          return Err(answer.error);
        }
        assert chain[i..][1..] == chain[i + 1..];
        i := i + 1;
      }
      r := Err(NotFound(name));
    }

    /** `get_template`. */
    method GetTemplate(engine: Engine, name: string, oc: Option<OutputContext>) returns (r: Result<Template>)
      modifies this
      ensures sourceLoaders == Some(old(Chain())) && Chain() == old(Chain())
      ensures r == GetIn(engine, Chain(), name, oc)
    {
      var found := FindTemplate(engine, name, None, oc);
      if found.Err? {
        return Err(found.error);
      }
      var (loaded, origin) := found.value;
      match loaded {
        case Compiled(t) =>
          r := Ok(t);
        case Raw(src) =>
          r := MakeTemplate(engine, src, origin, Some(name), oc);
      }
    }

    /** `select_template`; an empty list fails before the chain is touched. */
    method SelectTemplate(engine: Engine, names: seq<string>, oc: Option<OutputContext>) returns (r: Result<Template>)
      modifies this
      ensures Chain() == old(Chain())
      ensures names == [] ==> sourceLoaders == old(sourceLoaders)
      ensures names != [] ==> sourceLoaders == Some(old(Chain()))
      ensures r == SelectIn(engine, Chain(), names, oc)
    {
      if names == [] {
        return Err(NotFound(NoNamesMessage));
      }
      ghost var chain := Chain();
      var notFound: seq<string> := [];
      var i := 0;
      while i < |names|
        invariant 0 <= i <= |names|
        invariant Chain() == chain
        invariant i == 0 ==> sourceLoaders == old(sourceLoaders)
        invariant i > 0 ==> sourceLoaders == Some(chain)
        invariant SelectIn(engine, chain, names, oc) == SelectFrom(engine, chain, names[i..], notFound, oc)
      {
        var attempt := GetTemplate(engine, names[i], oc);
        if !IsNotFound(attempt) {
          return attempt;
        }
        if attempt.error.msg !in notFound {
          notFound := notFound + [attempt.error.msg];
        }
        assert names[i..][1..] == names[i + 1..];
        i := i + 1;
      }
      r := Err(NotFound(Join(notFound)));
    }
  }
}
