/** What include resolution returns: the full splice, or a reason that names an
    include chain. */
module LoaderCorrect {
  import opened Values
  import opened Loader

  // ----- the include graph -----

  /** Include texts of a document, outside mapping keys and foreign tags. */
  ghost predicate Includes(y: Yaml, rel: string)
    decreases y
  {
    match KindOf(y)
    case Include(r) => r == rel
    case Bad => false
    case Plain =>
      match y
      case Mapping(entries) => exists i :: 0 <= i < |entries| && Includes(entries[i].1, rel)
      case Sequence(items) => exists i :: 0 <= i < |items| && Includes(items[i], rel)
      case _ => false
  }

  /** An include tag on something that is not a string. */
  ghost predicate Malformed(y: Yaml)
    decreases y
  {
    match KindOf(y)
    case Include(_) => false
    case Bad => true
    case Plain =>
      match y
      case Mapping(entries) => exists i :: 0 <= i < |entries| && Malformed(entries[i].1)
      case Sequence(items) => exists i :: 0 <= i < |items| && Malformed(items[i])
      case _ => false
  }

  ghost predicate NoInclude(y: Yaml)
    decreases y
  {
    KindOf(y).Plain? &&
    match y
    case Mapping(entries) => forall i :: 0 <= i < |entries| ==> NoInclude(entries[i].1)
    case Sequence(items) => forall i :: 0 <= i < |items| ==> NoInclude(items[i])
    case _ => true
  }

  ghost predicate Step(fs: FileSystem, p: string, q: string) {
    fs.canon(p) in fs.files && exists rel :: Includes(fs.files[fs.canon(p)], rel) && q == fs.resolve(p, rel)
  }

  /** An include chain that starts at `root`. */
  ghost predicate Chain(fs: FileSystem, root: string, ps: seq<string>) {
    ps != [] && ps[0] == root && forall i :: 0 <= i < |ps| - 1 ==> Step(fs, ps[i], ps[i + 1])
  }

  /** The last file of the chain is a file met before. */
  ghost predicate Revisits(fs: FileSystem, ps: seq<string>, seen: set<string>) {
    ps != [] &&
    (fs.canon(ps[|ps| - 1]) in seen || exists i :: 0 <= i < |ps| - 1 && fs.canon(ps[i]) == fs.canon(ps[|ps| - 1]))
  }

  /** What the last file of a chain has to do with the error. */
  ghost predicate Blames(fs: FileSystem, e: LoadError, ps: seq<string>, seen: set<string>) {
    ps != [] &&
    var key := fs.canon(ps[|ps| - 1]);
    match e
    case Io => key !in fs.files
    case BadInclude => key in fs.files && Malformed(fs.files[key])
    case IncludeCycle => Revisits(fs, ps, seen)
  }

  // ----- success -----

  /** A document that resolves has every include of it loaded, and nothing
      malformed. */
  lemma {:induction false} ResolvedIncludes(fs: FileSystem, y: Yaml, path: string, seen: set<string>, rel: string)
    requires Resolve(fs, y, path, seen).Ok?
    ensures Includes(y, rel) ==> Load(fs, fs.resolve(path, rel), seen).Ok?
    ensures !Malformed(y)
    decreases y
  {
    match y
    case Mapping(entries) =>
      forall i | 0 <= i < |entries|
        ensures Includes(entries[i].1, rel) ==> Load(fs, fs.resolve(path, rel), seen).Ok?
        ensures !Malformed(entries[i].1)
      {
        EntryOk(fs, entries, i, path, seen);
        ResolvedIncludes(fs, entries[i].1, path, seen, rel);
      }
    case Sequence(items) =>
      forall i | 0 <= i < |items|
        ensures Includes(items[i], rel) ==> Load(fs, fs.resolve(path, rel), seen).Ok?
        ensures !Malformed(items[i])
      {
        ItemOk(fs, items, i, path, seen);
        ResolvedIncludes(fs, items[i], path, seen, rel);
      }
    case _ =>
  }

  lemma {:induction false} ItemOk(fs: FileSystem, ys: seq<Yaml>, i: nat, path: string, seen: set<string>)
    requires i < |ys| && ResolveItems(fs, ys, path, seen).Ok?
    ensures Resolve(fs, ys[i], path, seen) == Ok(ResolveItems(fs, ys, path, seen).value[i])
  {
    var n := |ys| - 1;
    if i < n {
      ItemOk(fs, ys[..n], i, path, seen);
    }
  }

  lemma {:induction false} EntryOk(fs: FileSystem, es: seq<(Yaml, Yaml)>, i: nat, path: string, seen: set<string>)
    requires i < |es| && ResolveEntries(fs, es, path, seen).Ok?
    ensures
      var out := ResolveEntries(fs, es, path, seen).value;
      Resolve(fs, es[i].1, path, seen) == Ok(out[i].1) && out[i].0 == es[i].0
  {
    var n := |es| - 1;
    if i < n {
      EntryOk(fs, es[..n], i, path, seen);
    }
  }

  /** Once a file loads, every chain from it runs through existing, well-formed,
      pairwise different files outside `seen`. */
  lemma {:induction false} LoadedChains(fs: FileSystem, path: string, seen: set<string>, ps: seq<string>)
    requires Load(fs, path, seen).Ok? && Chain(fs, path, ps)
    ensures forall e :: !Blames(fs, e, ps, seen)
    decreases |ps|
  {
    var key := fs.canon(path);
    ResolvedIncludes(fs, fs.files[key], path, seen + {key}, "");
    if |ps| > 1 {
      var rel :| Includes(fs.files[key], rel) && ps[1] == fs.resolve(path, rel);
      assert Step(fs, ps[0], ps[1]);
      ResolvedIncludes(fs, fs.files[key], path, seen + {key}, rel);
      var rest := ps[1..];
      forall i | 0 <= i < |rest| - 1 ensures Step(fs, rest[i], rest[i + 1]) {
        assert rest[i] == ps[i + 1] && rest[i + 1] == ps[i + 2] && Step(fs, ps[i + 1], ps[i + 1 + 1]);
      }
      LoadedChains(fs, ps[1], seen + {key}, rest);
      assert rest[|rest| - 1] == ps[|ps| - 1];
      forall e ensures !Blames(fs, e, ps, seen) {
        assert !Blames(fs, e, rest, seen + {key});
        if e.IncludeCycle? {
          assert forall i :: 1 <= i < |ps| - 1 ==> fs.canon(ps[i]) == fs.canon(rest[i - 1]);
        }
      }
    }
  }

  // ----- failure -----

  /** The include, inside a failing document, whose file fails. */
  lemma {:induction false} FailingInclude(fs: FileSystem, y: Yaml, path: string, seen: set<string>) returns (rel: string)
    requires Resolve(fs, y, path, seen).Err?
    ensures (Malformed(y) && Resolve(fs, y, path, seen) == Err(BadInclude)) ||
            (Includes(y, rel) && Load(fs, fs.resolve(path, rel), seen) == Resolve(fs, y, path, seen))
    decreases y
  {
    rel := "";
    match KindOf(y)
    case Bad =>
    case Include(r) => rel := r;
    case Plain =>
      match y
      case Mapping(entries) =>
        var i := EntryErr(fs, entries, path, seen);
        rel := FailingInclude(fs, entries[i].1, path, seen);
      case Sequence(items) =>
        var i := ItemErr(fs, items, path, seen);
        rel := FailingInclude(fs, items[i], path, seen);
  }

  lemma {:induction false} ItemErr(fs: FileSystem, ys: seq<Yaml>, path: string, seen: set<string>) returns (i: nat)
    requires ResolveItems(fs, ys, path, seen).Err?
    ensures i < |ys| && Resolve(fs, ys[i], path, seen).Err?
    ensures Resolve(fs, ys[i], path, seen).error == ResolveItems(fs, ys, path, seen).error
  {
    var n := |ys| - 1;
    i := n;
    if ResolveItems(fs, ys[..n], path, seen).Err? {
      i := ItemErr(fs, ys[..n], path, seen);
    }
  }

  lemma {:induction false} EntryErr(fs: FileSystem, es: seq<(Yaml, Yaml)>, path: string, seen: set<string>) returns (i: nat)
    requires ResolveEntries(fs, es, path, seen).Err?
    ensures i < |es| && Resolve(fs, es[i].1, path, seen).Err?
    ensures Resolve(fs, es[i].1, path, seen).error == ResolveEntries(fs, es, path, seen).error
  {
    var n := |es| - 1;
    i := n;
    if ResolveEntries(fs, es[..n], path, seen).Err? {
      i := EntryErr(fs, es[..n], path, seen);
    }
  }

  /** Every error is earned by some chain. */
  lemma {:induction false} FailingChain(fs: FileSystem, path: string, seen: set<string>) returns (ps: seq<string>)
    requires Load(fs, path, seen).Err?
    ensures Chain(fs, path, ps) && Blames(fs, Load(fs, path, seen).error, ps, seen)
    decreases Remaining(fs, seen)
  {
    ps := [path];
    var key := fs.canon(path);
    if key !in seen && key in fs.files {
      var below := seen + {key};
      var rel := FailingInclude(fs, fs.files[key], path, below);
      var q := fs.resolve(path, rel);
      if Includes(fs.files[key], rel) && Load(fs, q, below) == Resolve(fs, fs.files[key], path, below) {
        RemainingShrinks(fs, seen, key);
        var rest := FailingChain(fs, q, below);
        ps := [path] + rest;
        assert Step(fs, path, q);
        ChainExtends(fs, path, q, rest);
        BlameExtends(fs, Load(fs, q, below).error, path, rest, seen);
      }
    }
  }

  lemma ChainExtends(fs: FileSystem, path: string, q: string, rest: seq<string>)
    requires Step(fs, path, q) && Chain(fs, q, rest)
    ensures Chain(fs, path, [path] + rest)
  {
    var ps := [path] + rest;
    forall i | 0 <= i < |ps| - 1 ensures Step(fs, ps[i], ps[i + 1]) {
      assert ps[i + 1] == rest[i];
      assert i > 0 ==> ps[i] == rest[i - 1] && Step(fs, rest[i - 1], rest[i]);
    }
  }

  lemma BlameExtends(fs: FileSystem, e: LoadError, path: string, rest: seq<string>, seen: set<string>)
    requires Blames(fs, e, rest, seen + {fs.canon(path)})
    ensures Blames(fs, e, [path] + rest, seen)
  {
    var ps := [path] + rest;
    assert ps[|ps| - 1] == rest[|rest| - 1] && ps[0] == path;
    assert forall i :: 0 <= i < |rest| ==> ps[i + 1] == rest[i];
    if e.IncludeCycle? {
      var key := fs.canon(rest[|rest| - 1]);
      if i :| 0 <= i < |rest| - 1 && fs.canon(rest[i]) == key {
        assert fs.canon(ps[i + 1]) == key;
      }
      assert key == fs.canon(path) ==> fs.canon(ps[0]) == key;
    }
  }

  /** Main result: loading succeeds exactly when no include chain from the root
      revisits a file, meets a missing one or meets a malformed include; an
      error names what some chain really does. A file shared by two branches is
      no cycle. */
  lemma LoadVerdict(fs: FileSystem, root: string)
    ensures Load(fs, root, {}).Ok? <==> forall ps, e :: Chain(fs, root, ps) ==> !Blames(fs, e, ps, {})
    ensures Load(fs, root, {}).Err? ==> exists ps :: Chain(fs, root, ps) && Blames(fs, Load(fs, root, {}).error, ps, {})
  {
    if Load(fs, root, {}).Ok? {
      forall ps, e | Chain(fs, root, ps) ensures !Blames(fs, e, ps, {}) {
        LoadedChains(fs, root, {}, ps);
      }
    } else {
      var ps := FailingChain(fs, root, {});
      assert Blames(fs, Load(fs, root, {}).error, ps, {});
    }
  }

  /** When every file reached exists and is well formed, the verdict is about
      cycles alone. */
  lemma CycleExactly(fs: FileSystem, root: string)
    requires forall ps :: Chain(fs, root, ps) ==> !Blames(fs, Io, ps, {}) && !Blames(fs, BadInclude, ps, {})
    ensures Load(fs, root, {}) == Err(IncludeCycle) <==> exists ps :: Chain(fs, root, ps) && Revisits(fs, ps, {})
  {
    LoadVerdict(fs, root);
    var r := Load(fs, root, {});
    if r.Ok? {
      forall ps | Chain(fs, root, ps) ensures !Revisits(fs, ps, {}) {
        assert !Blames(fs, IncludeCycle, ps, {});
      }
    } else {
      var ps :| Chain(fs, root, ps) && Blames(fs, r.error, ps, {});
    }
  }

  // ----- the splice -----

  /** Includes replaced by the contents of their files, `depth` levels deep,
      without any bookkeeping of visited files. */
  function Spliced(fs: FileSystem, path: string, depth: nat): Yaml
    decreases depth, 0, Other("")
  {
    if depth == 0 || fs.canon(path) !in fs.files then Other("")
    else Splice(fs, fs.files[fs.canon(path)], path, depth - 1)
  }

  function Splice(fs: FileSystem, y: Yaml, path: string, depth: nat): Yaml
    decreases depth, 1, y
  {
    match KindOf(y)
    case Include(rel) => Spliced(fs, fs.resolve(path, rel), depth)
    case Bad => y
    case Plain =>
      match y
      case Mapping(entries) => Mapping(SpliceEntries(fs, entries, path, depth))
      case Sequence(items) => Sequence(SpliceItems(fs, items, path, depth))
      case _ => y
  }

  function SpliceItems(fs: FileSystem, ys: seq<Yaml>, path: string, depth: nat): (out: seq<Yaml>)
    ensures |out| == |ys| && forall i :: 0 <= i < |ys| ==> out[i] == Splice(fs, ys[i], path, depth)
    decreases depth, 1, ys
  {
    seq(|ys|, i requires 0 <= i < |ys| => Splice(fs, ys[i], path, depth))
  }

  function SpliceEntries(fs: FileSystem, es: seq<(Yaml, Yaml)>, path: string, depth: nat): (out: seq<(Yaml, Yaml)>)
    ensures |out| == |es| && forall i :: 0 <= i < |es| ==> out[i] == SpliceEntry(fs, es[i], path, depth)
    decreases depth, 1, es
  {
    seq(|es|, i requires 0 <= i < |es| => SpliceEntry(fs, es[i], path, depth))
  }

  function SpliceEntry(fs: FileSystem, e: (Yaml, Yaml), path: string, depth: nat): (Yaml, Yaml)
    decreases depth, 1, e
  {
    (e.0, Splice(fs, e.1, path, depth))
  }

  lemma {:induction false} LoadSplices(fs: FileSystem, path: string, seen: set<string>, depth: nat)
    requires Load(fs, path, seen).Ok? && depth >= Remaining(fs, seen)
    ensures Load(fs, path, seen).value == Spliced(fs, path, depth) && NoInclude(Load(fs, path, seen).value)
    decreases Remaining(fs, seen), 0, Other("")
  {
    var key := fs.canon(path);
    RemainingShrinks(fs, seen, key);
    ResolveSplices(fs, fs.files[key], path, seen + {key}, depth - 1);
  }

  lemma {:induction false} ResolveSplices(fs: FileSystem, y: Yaml, path: string, seen: set<string>, depth: nat)
    requires Resolve(fs, y, path, seen).Ok? && depth >= Remaining(fs, seen)
    ensures Resolve(fs, y, path, seen).value == Splice(fs, y, path, depth) && NoInclude(Resolve(fs, y, path, seen).value)
    decreases Remaining(fs, seen), 1, y
  {
    match KindOf(y)
    case Include(rel) => LoadSplices(fs, fs.resolve(path, rel), seen, depth);
    case Plain =>
      match y
      case Mapping(entries) =>
        var out := ResolveEntries(fs, entries, path, seen).value;
        forall i | 0 <= i < |entries| ensures out[i] == SpliceEntry(fs, entries[i], path, depth) && NoInclude(out[i].1) {
          EntryOk(fs, entries, i, path, seen);
          ResolveSplices(fs, entries[i].1, path, seen, depth);
        }
        assert out == SpliceEntries(fs, entries, path, depth);
      case Sequence(items) =>
        var out := ResolveItems(fs, items, path, seen).value;
        forall i | 0 <= i < |items| ensures out[i] == Splice(fs, items[i], path, depth) && NoInclude(out[i]) {
          ItemOk(fs, items, i, path, seen);
          ResolveSplices(fs, items[i], path, seen, depth);
        }
        assert out == SpliceItems(fs, items, path, depth);
      case _ =>
  }

  /** Main result: a successful load is the complete splice, at any depth from
      the number of files on, with no include left outside keys and foreign
      tags. */
  lemma LoadIsFullSplice(fs: FileSystem, root: string, depth: nat)
    requires Load(fs, root, {}).Ok? && depth >= |fs.files|
    ensures Load(fs, root, {}).value == Spliced(fs, root, depth) && NoInclude(Load(fs, root, {}).value)
  {
    assert fs.files.Keys - {} == fs.files.Keys;
    LoadSplices(fs, root, {}, depth);
  }
}
