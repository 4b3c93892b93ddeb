/** Include resolution over a metadata directory (crates/metadata loader.rs).
    The file system is arbitrary: `canon` maps a path to the file it denotes,
    `resolve` joins an include with the directory of the including path. */
module Loader {
  import opened Values
  import opened Strings

  datatype Yaml =
    | Str(s: string)
    | Tagged(tag: string, v: Yaml)
    | Mapping(entries: seq<(Yaml, Yaml)>)
    | Sequence(items: seq<Yaml>)
    | Other(text: string)

  datatype LoadError = Io | BadInclude | IncludeCycle

  datatype FileSystem = FileSystem(files: map<string, Yaml>, canon: string -> string, resolve: (string, string) -> string)

  // ----- what an include is -----

  datatype Kind = Plain | Include(rel: string) | Bad

  function StripBangs(tag: string): string {
    if tag != [] && tag[0] == '!' then StripBangs(tag[1..]) else tag
  }

  /** The quoted form "!include x" and the tag form !include x. */
  function KindOf(y: Yaml): Kind {
    if y.Str? && "!include " <= y.s then Include(Trim(y.s[9..]))
    else if y.Tagged? && StripBangs(y.tag) == "include" then
      if y.v.Str? then Include(y.v.s) else Bad
    else Plain
  }

  // ----- the resolver -----

  function Remaining(fs: FileSystem, seen: set<string>): nat {
    |fs.files.Keys - seen|
  }

  lemma RemainingShrinks(fs: FileSystem, seen: set<string>, key: string)
    requires key in fs.files && key !in seen
    ensures Remaining(fs, seen + {key}) < Remaining(fs, seen)
  {
    var before, after := fs.files.Keys - seen, fs.files.Keys - (seen + {key});
    assert before == after + {key};
  }

  /** `load_yaml_tracked` with the set passed by value. */
  function Load(fs: FileSystem, path: string, seen: set<string>): Result<Yaml, LoadError>
    decreases Remaining(fs, seen), 0, Other("")
  {
    var key := fs.canon(path);
    if key in seen then Err(IncludeCycle)
    else if key !in fs.files then Err(Io)
    else
      RemainingShrinks(fs, seen, key);
      Resolve(fs, fs.files[key], path, seen + {key})
  }

  function Resolve(fs: FileSystem, y: Yaml, path: string, seen: set<string>): Result<Yaml, LoadError>
    decreases Remaining(fs, seen), 1, y
  {
    match KindOf(y)
    case Include(rel) => Load(fs, fs.resolve(path, rel), seen)
    case Bad => Err(BadInclude)
    case Plain =>
      match y
      case Mapping(entries) =>
        var out := ResolveEntries(fs, entries, path, seen);
        if out.Err? then Err(out.error) else Ok(Mapping(out.value))
      case Sequence(items) =>
        var out := ResolveItems(fs, items, path, seen);
        if out.Err? then Err(out.error) else Ok(Sequence(out.value))
      case _ => Ok(y)
  }

  function ResolveItems(fs: FileSystem, ys: seq<Yaml>, path: string, seen: set<string>): (r: Result<seq<Yaml>, LoadError>)
    ensures r.Ok? ==> |r.value| == |ys|
    decreases Remaining(fs, seen), 1, ys
  {
    if ys == [] then Ok([])
    else
      var n := |ys| - 1;
      var init := ResolveItems(fs, ys[..n], path, seen);
      if init.Err? then init
      else
        var last := Resolve(fs, ys[n], path, seen);
        if last.Err? then Err(last.error) else Ok(init.value + [last.value])
  }

  /** Keys are kept as they are. */
  function ResolveEntries(fs: FileSystem, es: seq<(Yaml, Yaml)>, path: string, seen: set<string>):
    (r: Result<seq<(Yaml, Yaml)>, LoadError>)
    ensures r.Ok? ==> |r.value| == |es|
    decreases Remaining(fs, seen), 1, es
  {
    if es == [] then Ok([])
    else
      var n := |es| - 1;
      var init := ResolveEntries(fs, es[..n], path, seen);
      if init.Err? then init
      else
        var last := ResolveEntry(fs, es[n], path, seen);
        if last.Err? then Err(last.error) else Ok(init.value + [last.value])
  }

  function ResolveEntry(fs: FileSystem, e: (Yaml, Yaml), path: string, seen: set<string>): Result<(Yaml, Yaml), LoadError>
    decreases Remaining(fs, seen), 1, e
  {
    var v := Resolve(fs, e.1, path, seen);
    if v.Err? then Err(v.error) else Ok((e.0, v.value))
  }

  /** The resolver itself: one `seen` set shared by the whole recursion. A file
      that fails to parse stays in it; success always restores it. */
  class Resolver {
    var seen: set<string>
    const fs: FileSystem

    constructor (files: FileSystem)
      ensures seen == {} && fs == files
    {
      seen := {};
      fs := files;
    }

    method LoadTracked(path: string) returns (r: Result<Yaml, LoadError>)
      modifies this`seen
      ensures r == Load(fs, path, old(seen))
      ensures r.Ok? ==> seen == old(seen)
      decreases Remaining(fs, seen), 0, Other("")
    {
      var key := fs.canon(path);
      if key in seen {
        return Err(IncludeCycle);
      }
      ghost var before := seen;
      seen := seen + {key};
      if key !in fs.files {
        return Err(Io);
      }
      RemainingShrinks(fs, before, key);
      r := ResolveIncludes(fs.files[key], path);
      seen := seen - {key};
    }

    method ResolveIncludes(y: Yaml, path: string) returns (r: Result<Yaml, LoadError>)
      modifies this`seen
      ensures r == Resolve(fs, y, path, old(seen))
      ensures r.Ok? ==> seen == old(seen)
      decreases Remaining(fs, seen), 1, y
    {
      match KindOf(y)
      case Include(rel) => r := LoadTracked(fs.resolve(path, rel));
      case Bad => r := Err(BadInclude);
      case Plain =>
        match y
        case Mapping(entries) =>
          var out := ResolveMapping(entries, path);
          r := if out.Err? then Err(out.error) else Ok(Mapping(out.value));
        case Sequence(items) =>
          var out := ResolveSequence(items, path);
          r := if out.Err? then Err(out.error) else Ok(Sequence(out.value));
        case _ => r := Ok(y);
    }

    method ResolveMapping(es: seq<(Yaml, Yaml)>, path: string) returns (r: Result<seq<(Yaml, Yaml)>, LoadError>)
      modifies this`seen
      ensures r == ResolveEntries(fs, es, path, old(seen))
      ensures r.Ok? ==> seen == old(seen)
      decreases Remaining(fs, seen), 1, es
    {
      var out: seq<(Yaml, Yaml)> := [];
      for i := 0 to |es|
        invariant seen == old(seen)
        invariant ResolveEntries(fs, es[..i], path, seen) == Ok(out)
      {
        assert es[..i + 1][..i] == es[..i];
        EntriesFail(fs, es, i, path, seen);
        var e := ResolveValue(es[i], path);
        if e.Err? {
          return Err(e.error);
        }
        out := out + [e.value];
      }
      assert es[..|es|] == es;
      r := Ok(out);
    }

    method ResolveValue(e: (Yaml, Yaml), path: string) returns (r: Result<(Yaml, Yaml), LoadError>)
      modifies this`seen
      ensures r == ResolveEntry(fs, e, path, old(seen))
      ensures r.Ok? ==> seen == old(seen)
      decreases Remaining(fs, seen), 1, e
    {
      var v := ResolveIncludes(e.1, path);
      r := if v.Err? then Err(v.error) else Ok((e.0, v.value));
    }

    method ResolveSequence(ys: seq<Yaml>, path: string) returns (r: Result<seq<Yaml>, LoadError>)
      modifies this`seen
      ensures r == ResolveItems(fs, ys, path, old(seen))
      ensures r.Ok? ==> seen == old(seen)
      decreases Remaining(fs, seen), 1, ys
    {
      var out: seq<Yaml> := [];
      for i := 0 to |ys|
        invariant seen == old(seen)
        invariant ResolveItems(fs, ys[..i], path, seen) == Ok(out)
      {
        assert ys[..i + 1][..i] == ys[..i];
        ItemsFail(fs, ys, i, path, seen);
        var v := ResolveIncludes(ys[i], path);
        if v.Err? {
          return Err(v.error);
        }
        out := out + [v.value];
      }
      assert ys[..|ys|] == ys;
      r := Ok(out);
    }
  }

  /** The first failing child decides. */
  lemma {:induction false} ItemsFail(fs: FileSystem, ys: seq<Yaml>, i: nat, path: string, seen: set<string>)
    requires i < |ys|
    ensures ResolveItems(fs, ys[..i + 1], path, seen).Err? ==>
            ResolveItems(fs, ys, path, seen) == ResolveItems(fs, ys[..i + 1], path, seen)
  {
    if i + 1 == |ys| {
      assert ys[..i + 1] == ys;
    } else {
      var n := |ys| - 1;
      assert ys[..n][..i + 1] == ys[..i + 1];
      ItemsFail(fs, ys[..n], i, path, seen);
    }
  }

  lemma {:induction false} EntriesFail(fs: FileSystem, es: seq<(Yaml, Yaml)>, i: nat, path: string, seen: set<string>)
    requires i < |es|
    ensures ResolveEntries(fs, es[..i + 1], path, seen).Err? ==>
            ResolveEntries(fs, es, path, seen) == ResolveEntries(fs, es[..i + 1], path, seen)
  {
    if i + 1 == |es| {
      assert es[..i + 1] == es;
    } else {
      var n := |es| - 1;
      assert es[..n][..i + 1] == es[..i + 1];
      EntriesFail(fs, es[..n], i, path, seen);
    }
  }
}
