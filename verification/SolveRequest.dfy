/** The frontend attributes and cache options of a solve request. */
module SolveRequest {
  import opened BuildTypes
  import opened Text

  /** An attribute key by what it stands for; `KeyText` is the key itself. */
  datatype Key = Filename | CacheFrom | NoCache | BuildArg(name: string) | Label(name: string)

  const FILENAME := "filename"
  const CACHE_FROM := "cache-from"
  const NO_CACHE := "no-cache"
  const ARG_PREFIX := "build-arg:"
  const LABEL_PREFIX := "label:"

  function KeyText(key: Key): string {
    match key
    case Filename => FILENAME
    case CacheFrom => CACHE_FROM
    case NoCache => NO_CACHE
    case BuildArg(name) => ARG_PREFIX + name
    case Label(name) => LABEL_PREFIX + name
  }

  /** No build argument or label, whatever its name, can hit the key of another attribute. */
  lemma KeysNeverCollide(key: Key, other: Key)
    requires KeyText(key) == KeyText(other)
    ensures key == other
  {
    assert KeyText(key)[0] == KeyText(other)[0];
    match key
    case BuildArg(name) => assert name == KeyText(key)[|ARG_PREFIX|..];
    case Label(name) => assert name == KeyText(key)[|LABEL_PREFIX|..];
    case _ =>
  }

  type Texts = map<string, string>

  function Get<K, V>(m: map<K, V>, key: K): Option<V> {
    if key in m then Some(m[key]) else None
  }

  /** What the map says under a key. */
  function At(texts: Texts, key: Key): Option<string> {
    Get(texts, KeyText(key))
  }

  ghost predicate IsKey(text: string) {
    exists key :: text == KeyText(key)
  }

  /** Nothing is in the map but attributes. */
  ghost predicate OnlyKeys(texts: Texts) {
    forall text :: text in texts ==> IsKey(text)
  }

  /** Writing under a key changes that attribute and no other. */
  lemma WrittenAt(texts: Texts, key: Key, value: string, other: Key)
    ensures At(texts[KeyText(key) := value], other) == if other == key then Some(value) else At(texts, other)
  {
    if KeyText(other) == KeyText(key) { KeysNeverCollide(other, key); }
  }

  lemma WrittenOnlyKeys(texts: Texts, key: Key, value: string)
    requires OnlyKeys(texts)
    ensures OnlyKeys(texts[KeyText(key) := value])
  {
    forall text | text in texts[KeyText(key) := value] ensures IsKey(text) {
      assert text in texts || text == KeyText(key);
    }
  }

  datatype CacheEntry = CacheEntry(mode: Option<string>, ref: string)

  datatype Request = Request(attrs: Texts, exports: seq<CacheEntry>, imports: seq<CacheEntry>)

  datatype Options = Options(
    cacheImageLayers: bool,
    disableLayerCacheExport: bool,
    disableBuildCache: bool,
    buildArgs: seq<string>,
    labels: map<string, string>)

  /** The export mode from its environment variable. */
  function ExportMode(mode: string): Result<string> {
    if mode == "" then Ok("max") else if mode == "min" || mode == "max" then Ok(mode) else Err
  }

  /** The value of the last build argument with a name; an argument ends its name at the first "=". */
  function LastArg(args: seq<string>, name: string): Option<string> {
    if args == [] then None
    else
      var last := Cut(args[|args| - 1], '=');
      if last.Some? && last.value.0 == name then Some(last.value.1) else LastArg(args[..|args| - 1], name)
  }

  /** A later argument with the name overrides the earlier ones ... */
  lemma {:induction false} LastArgIsLast(args: seq<string>, i: nat, name: string, value: string)
    requires i < |args| && args[i] == name + "=" + value && '=' !in name
    requires forall j :: i < j < |args| ==> !(name + "=" <= args[j])
    ensures LastArg(args, name) == Some(value)
  {
    var n := |args| - 1;
    if i == n {
      CutAt(name, value, '=');
    } else {
      NameIsPrefix(args[n]);
      LastArgIsLast(args[..n], i, name, value);
    }
  }

  /** ... and a name of no argument has no value. */
  lemma {:induction false} NoArg(args: seq<string>, name: string)
    requires forall j :: 0 <= j < |args| ==> !(name + "=" <= args[j])
    ensures LastArg(args, name) == None
  {
    if args != [] {
      NameIsPrefix(args[|args| - 1]);
      NoArg(args[..|args| - 1], name);
    }
  }

  lemma NameIsPrefix(arg: string)
    ensures Cut(arg, '=').Some? ==> Cut(arg, '=').value.0 + "=" <= arg
  {
    if Cut(arg, '=').Some? {
      var (name, value) := Cut(arg, '=').value;
      assert arg == (name + "=") + value;
    }
  }

  predicate Parses(args: seq<string>) {
    forall arg :: arg in args ==> '=' in arg
  }

  predicate Exports(opts: Options) {
    opts.cacheImageLayers && !opts.disableLayerCacheExport
  }

  /** What the request is to say under a key: reserved attributes by the cache settings
      alone, the last build argument of a name, and every label. */
  function Wanted(opts: Options, cacheRef: string, key: Key): Option<string> {
    match key
    case Filename => Some("Dockerfile")
    case CacheFrom => if Exports(opts) then Some(cacheRef) else None
    case NoCache => if opts.disableBuildCache then Some("") else None
    case BuildArg(name) => LastArg(opts.buildArgs, name)
    case Label(name) => if name in opts.labels then Some(opts.labels[name]) else None
  }

  /** The map says exactly what is wanted: every attribute under its text, and nothing else. */
  ghost predicate AsWanted(texts: Texts, opts: Options, cacheRef: string) {
    OnlyKeys(texts) && forall key :: At(texts, key) == Wanted(opts, cacheRef, key)
  }

  /** The attributes as BuildKit reads them, and nothing else. */
  ghost predicate Says(texts: Texts, opts: Options, cacheRef: string) {
    && Get(texts, "filename") == Some("Dockerfile")
    && Get(texts, "cache-from") ==
       (if opts.cacheImageLayers && !opts.disableLayerCacheExport then Some(cacheRef) else None)
    && Get(texts, "no-cache") == (if opts.disableBuildCache then Some("") else None)
    && (forall name :: Get(texts, "build-arg:" + name) == LastArg(opts.buildArgs, name))
    && (forall name :: Get(texts, "label:" + name) == Get(opts.labels, name))
    && (forall text :: text in texts ==>
          || text == "filename" || text == "cache-from" || text == "no-cache"
          || "build-arg:" <= text || "label:" <= text)
  }

  lemma WantedIsSaid(texts: Texts, opts: Options, cacheRef: string)
    requires AsWanted(texts, opts, cacheRef)
    ensures Says(texts, opts, cacheRef)
  {
    assert At(texts, Filename) == Some("Dockerfile");
    assert At(texts, CacheFrom) == Wanted(opts, cacheRef, CacheFrom);
    assert At(texts, NoCache) == Wanted(opts, cacheRef, NoCache);
    forall name ensures Get(texts, "build-arg:" + name) == LastArg(opts.buildArgs, name) {
      assert At(texts, BuildArg(name)) == Wanted(opts, cacheRef, BuildArg(name));
    }
    forall name ensures Get(texts, "label:" + name) == Get(opts.labels, name) {
      assert At(texts, Label(name)) == Wanted(opts, cacheRef, Label(name));
    }
    forall text | text in texts
      ensures || text == "filename" || text == "cache-from" || text == "no-cache"
              || "build-arg:" <= text || "label:" <= text
    {
      assert IsKey(text);
    }
  }

  /** The prefix does not move the cut. */
  lemma CutPrefixed(arg: string)
    ensures '=' in arg <==> '=' in ARG_PREFIX + arg
    ensures '=' in arg ==>
              var (name, value) := Cut(arg, '=').value;
              Cut(ARG_PREFIX + arg, '=') == Some((KeyText(BuildArg(name)), value))
  {
    if '=' in arg {
      var (name, value) := Cut(arg, '=').value;
      assert ARG_PREFIX + arg == (ARG_PREFIX + name) + ['='] + value;
      CutAt(ARG_PREFIX + name, value, '=');
    }
  }

  /** The last value of every build argument, and nothing else. */
  ghost predicate ArgsIn(texts: Texts, args: seq<string>) {
    OnlyKeys(texts) && forall key :: At(texts, key) == if key.BuildArg? then LastArg(args, key.name) else None
  }

  /** Puts the prefix before every argument. */
  method Prefixed(args: seq<string>) returns (prefixed: seq<string>)
    ensures |prefixed| == |args| && forall i :: 0 <= i < |args| ==> prefixed[i] == ARG_PREFIX + args[i]
  {
    prefixed := [];
    for n := 0 to |args|
      invariant |prefixed| == n && forall i :: 0 <= i < n ==> prefixed[i] == ARG_PREFIX + args[i]
    {
      prefixed := prefixed + [ARG_PREFIX + args[n]];
    }
  }

  /** What parsing one more prefixed argument does to the map. */
  lemma ArgsInStep(texts: Texts, args: seq<string>, n: nat, prefixed: string)
    requires n < |args| && ArgsIn(texts, args[..n]) && prefixed == ARG_PREFIX + args[n] && '=' in prefixed
    ensures var (key, value) := Cut(prefixed, '=').value; ArgsIn(texts[key := value], args[..n + 1])
  {
    CutPrefixed(args[n]);
    var (name, value) := Cut(args[n], '=').value;
    var texts', args' := texts[KeyText(BuildArg(name)) := value], args[..n + 1];
    assert args'[..n] == args[..n];
    WrittenOnlyKeys(texts, BuildArg(name), value);
    forall key ensures At(texts', key) == if key.BuildArg? then LastArg(args', key.name) else None {
      WrittenAt(texts, BuildArg(name), value, key);
      assert At(texts, key) == if key.BuildArg? then LastArg(args[..n], key.name) else None;
    }
  }

  lemma ParsesStep(args: seq<string>, n: nat)
    requires n < |args| && Parses(args[..n])
    ensures Parses(args[..n + 1]) <==> '=' in args[n]
    ensures '=' !in args[n] ==> !Parses(args)
  {
    assert args[..n + 1] == args[..n] + [args[n]];
    assert args[n] in args;
  }

  method ParseNext(texts: Texts, ghost args: seq<string>, ghost n: nat, prefixed: string) returns (r: Result<Texts>)
    requires n < |args| && ArgsIn(texts, args[..n]) && prefixed == ARG_PREFIX + args[n]
    ensures r.Ok? <==> '=' in args[n]
    ensures r.Ok? ==> ArgsIn(r.value, args[..n + 1])
  {
    CutPrefixed(args[n]);
    var parts := Cut(prefixed, '=');
    if parts.None? { return Err; }
    ArgsInStep(texts, args, n, prefixed);
    return Ok(texts[parts.value.0 := parts.value.1]);
  }

  /** Splits the prefixed arguments; the last of a name wins. */
  method ParseArgs(args: seq<string>) returns (r: Result<Texts>)
    ensures r.Ok? <==> Parses(args)
    ensures r.Ok? ==> ArgsIn(r.value, args)
  {
    var prefixed := Prefixed(args);
    var texts: Texts := map[];
    for n := 0 to |args|
      invariant Parses(args[..n]) && ArgsIn(texts, args[..n])
    {
      ParsesStep(args, n);
      var next := ParseNext(texts, args, n, prefixed[n]);
      if next.Err? { return Err; }
      texts := next.value;
    }
    assert args[..|args|] == args;
    return Ok(texts);
  }

  /** The wanted reserved attributes and nothing else. */
  ghost predicate ReservedOnly(texts: Texts, opts: Options, ref: string) {
    && OnlyKeys(texts)
    && forall key :: At(texts, key) == if key.BuildArg? || key.Label? then None else Wanted(opts, ref, key)
  }

  /** Labels from the map, everything else as before. */
  ghost predicate Labelled(texts: Texts, labels: map<string, string>, texts': Texts) {
    && OnlyKeys(texts')
    && forall key ::
         At(texts', key) == if key.Label? && key.name in labels then Some(labels[key.name]) else At(texts, key)
  }

  lemma LabelledStep(texts: Texts, labels: map<string, string>, left: set<string>, name: string, texts': Texts)
    requires name in labels && name in left && Labelled(texts, labels - left, texts')
    ensures Labelled(texts, labels - (left - {name}), texts'[LABEL_PREFIX + name := labels[name]])
  {
    var value := labels[name];
    var texts'' := texts'[KeyText(Label(name)) := value];
    WrittenOnlyKeys(texts', Label(name), value);
    forall key
      ensures At(texts'', key) ==
              if key.Label? && key.name in labels - (left - {name}) then Some(labels[key.name]) else At(texts, key)
    {
      WrittenAt(texts', Label(name), value, key);
      assert At(texts', key) ==
             if key.Label? && key.name in labels - left then Some(labels[key.name]) else At(texts, key);
    }
  }

  /** Copies the parsed arguments into the map, in any order. */
  method AddArgs(into: Texts, args: Texts) returns (r: Texts)
    ensures r == into + args
  {
    r := into;
    var left := args.Keys;
    while left != {}
      invariant left <= args.Keys && r == into + (args - left)
    {
      var key :| key in left;
      r := r[key := args[key]];
      left := left - {key};
    }
    assert args - {} == args;
  }

  /** Adds a prefixed attribute per label, in any order; the labels meet no other attribute. */
  method AddLabels(into: Texts, labels: map<string, string>) returns (r: Texts)
    requires OnlyKeys(into)
    ensures Labelled(into, labels, r)
  {
    r := into;
    var left := labels.Keys;
    while left != {}
      invariant left <= labels.Keys && Labelled(into, labels - left, r)
    {
      var name :| name in left;
      LabelledStep(into, labels, left, name, r);
      r := r[LABEL_PREFIX + name := labels[name]];
      left := left - {name};
    }
    assert labels - {} == labels;
  }

  /** The reserved attributes; build arguments and labels come later. */
  method Reserve(ref: string, opts: Options) returns (r: Texts)
    ensures ReservedOnly(r, opts, ref)
  {
    r := map[FILENAME := "Dockerfile"];
    ReservedFile(r);
    if Exports(opts) {
      ghost var before := r;
      r := r[CACHE_FROM := ref];
      ReservedMore(before, r, CacheFrom, ref);
    }
    if opts.disableBuildCache {
      ghost var before := r;
      r := r[NO_CACHE := ""];
      ReservedMore(before, r, NoCache, "");
    }
  }

  lemma ReservedFile(texts: Texts)
    requires texts == map[FILENAME := "Dockerfile"]
    ensures OnlyKeys(texts) && forall key :: At(texts, key) == if key == Filename then Some("Dockerfile") else None
  {
    forall key ensures At(texts, key) == if key == Filename then Some("Dockerfile") else None {
      WrittenAt(map[], Filename, "Dockerfile", key);
    }
    WrittenOnlyKeys(map[], Filename, "Dockerfile");
  }

  lemma ReservedMore(texts: Texts, texts': Texts, key: Key, value: string)
    requires OnlyKeys(texts) && texts' == texts[KeyText(key) := value]
    ensures OnlyKeys(texts')
    ensures forall other :: At(texts', other) == if other == key then Some(value) else At(texts, other)
  {
    WrittenOnlyKeys(texts, key, value);
    forall other ensures At(texts', other) == if other == key then Some(value) else At(texts, other) {
      WrittenAt(texts, key, value, other);
    }
  }

  /** The reserved attributes and the caches. */
  method CacheOptions(ref: string, mode: string, opts: Options) returns (r: Result<Request>)
    ensures r.Ok? <==> (Exports(opts) ==> ExportMode(mode).Ok?)
    ensures r.Ok? ==> ReservedOnly(r.value.attrs, opts, ref)
    ensures r.Ok? ==> r.value.exports == if Exports(opts) then [CacheEntry(Some(ExportMode(mode).value), ref)] else []
    ensures r.Ok? ==> r.value.imports ==
                      if opts.cacheImageLayers && !opts.disableBuildCache then [CacheEntry(None, ref)] else []
  {
    var attrs := Reserve(ref, opts);
    var exports, imports := [], [];
    if opts.cacheImageLayers {
      if !opts.disableLayerCacheExport {
        var cacheMode := ExportMode(mode);
        if cacheMode.Err? { return Err; }
        exports := [CacheEntry(Some(cacheMode.value), ref)];
      }
      if !opts.disableBuildCache {
        imports := [CacheEntry(None, ref)];
      }
    }
    return Ok(Request(attrs, exports, imports));
  }

  lemma ComposedAsWanted(reserved: Texts, args: Texts, texts: Texts, opts: Options, ref: string)
    requires ReservedOnly(reserved, opts, ref) && ArgsIn(args, opts.buildArgs)
    requires Labelled(reserved + args, opts.labels, texts)
    ensures AsWanted(texts, opts, ref)
  {
    forall key ensures At(texts, key) == Wanted(opts, ref, key) {
      assert At(reserved + args, key) == if At(args, key).Some? then At(args, key) else At(reserved, key);
    }
  }

  lemma MergedOnlyKeys(texts: Texts, more: Texts)
    requires OnlyKeys(texts) && OnlyKeys(more)
    ensures OnlyKeys(texts + more)
  {
    forall text | text in texts + more ensures IsKey(text) { assert text in texts || text in more; }
  }

  /** Builds the request; `cacheRef` is the cache reference of the image, if its name parses. */
  method SolveRequestWithContext(cacheRef: Option<string>, mode: string, opts: Options) returns (r: Result<Request>)
    ensures var exporting := opts.cacheImageLayers && !opts.disableLayerCacheExport;
            && (r.Ok? <==> && cacheRef.Some? && (forall arg :: arg in opts.buildArgs ==> '=' in arg)
                           && (exporting ==> mode == "" || mode == "min" || mode == "max"))
            && (r.Ok? && exporting ==>
                  r.value.exports == [CacheEntry(Some(if mode == "" then "max" else mode), cacheRef.value)])
            && (r.Ok? && !exporting ==> r.value.exports == [])
    ensures r.Ok? ==> AsWanted(r.value.attrs, opts, cacheRef.value) && Says(r.value.attrs, opts, cacheRef.value)
    ensures r.Ok? ==> r.value.imports ==
                      if opts.cacheImageLayers && !opts.disableBuildCache then [CacheEntry(None, cacheRef.value)]
                      else []
  {
    if cacheRef.None? { return Err; }
    var base := CacheOptions(cacheRef.value, mode, opts);
    if base.Err? { return Err; }
    var args := ParseArgs(opts.buildArgs);
    if args.Err? { return Err; }
    var attrs := AddArgs(base.value.attrs, args.value);
    MergedOnlyKeys(base.value.attrs, args.value);
    attrs := AddLabels(attrs, opts.labels);
    ComposedAsWanted(base.value.attrs, args.value, attrs, opts, cacheRef.value);
    WantedIsSaid(attrs, opts, cacheRef.value);
    return Ok(base.value.(attrs := attrs));
  }
}
