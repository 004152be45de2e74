/** Finding the manifests that a synthesis wrote and parsing them into resources. */
module Synthesizer {
  import opened Wrappers
  import opened Text
  import opened Resourcer
  import opened Order

  /** A file name, as the file system has them. */
  type FileName = name: string | '/' !in name

  /** What a directory walk reports, in its order: an error, a directory or a file of a directory. */
  datatype Entry = WalkError | Subdirectory(path: string) | File(directory: string, name: FileName)

  function PathOf(directory: string, name: string): string {
    directory + "/" + name
  }

  /** filepath.Base of a path that does not end in a slash. */
  function Base(path: string): string {
    var parts := Split(path, '/');
    parts[|parts| - 1]
  }

  predicate IsKustomization(name: string) {
    name in ["kustomization.yaml", "kustomization.yml", "kustomization.k8s.yaml", "Kustomization"]
  }

  predicate IsManifest(name: string) {
    HasSuffix(name, ".yaml") || HasSuffix(name, ".yml")
  }

  /** The path an entry contributes to the kustomizations, or to the other manifests. */
  function PieceOf(e: Entry, kustomization: bool): seq<string> {
    if e.File? && IsManifest(e.name) &&
        IsKustomization(e.name) == kustomization then [PathOf(e.directory, e.name)] else []
  }

  /** The manifest files of a walk that are, or are not, kustomizations, in walk order. */
  function FilesOf(entries: seq<Entry>, kustomization: bool): seq<string> {
    if entries == [] then [] else PieceOf(entries[0], kustomization) + FilesOf(entries[1..], kustomization)
  }

  lemma {:induction false} FileHasEntry(entries: seq<Entry>, kustomization: bool, i: nat) returns (e: Entry)
    requires i < |FilesOf(entries, kustomization)|
    ensures e in entries && PieceOf(e, kustomization) == [FilesOf(entries, kustomization)[i]]
  {
    var piece := PieceOf(entries[0], kustomization);
    if i < |piece| {
      e := entries[0];
    } else {
      e := FileHasEntry(entries[1..], kustomization, i - |piece|);
    }
  }

  /** The callback of the walk: it appends a manifest to the slice of its kind. */
  method Visit(e: Entry, kustomizeFiles: seq<string>, regularManifests: seq<string>)
    returns (err: bool, kustomize: seq<string>, regular: seq<string>)
    ensures err <==> e.WalkError?
    ensures !err ==> kustomize == kustomizeFiles + PieceOf(e, true) && regular == regularManifests + PieceOf(e, false)
  {
    err, kustomize, regular := e.WalkError?, kustomizeFiles, regularManifests;
    if !err && e.File? {
      if HasSuffix(e.name, ".yaml") || HasSuffix(e.name, ".yml") {
        if IsKustomization(e.name) {
          kustomize := kustomize + [PathOf(e.directory, e.name)];
        } else {
          regular := regular + [PathOf(e.directory, e.name)];
        }
      }
    }
  }

  lemma FilesOfStep(entries: seq<Entry>, i: nat, kustomization: bool, before: seq<string>)
    requires i < |entries|
    ensures before + FilesOf(entries[i..], kustomization)
         == (before + PieceOf(entries[i], kustomization)) + FilesOf(entries[i + 1..], kustomization)
  {
    assert entries[i..][1..] == entries[i + 1..];
  }

  ghost predicate NamesManifest(e: Entry) {
    e.File? && (HasSuffix(e.name, ".yaml") || HasSuffix(e.name, ".yml"))
  }

  ghost predicate NamesKustomization(e: Entry) {
    && NamesManifest(e)
    && (e.name == "kustomization.yaml" || e.name == "kustomization.yml" || e.name == "kustomization.k8s.yaml")
  }

  /** A manifest entry of the kind that is asked for. */
  ghost predicate Wanted(e: Entry, kustomization: bool) {
    NamesManifest(e) && (NamesKustomization(e) <==> kustomization)
  }

  /** What is found in a walk: the paths of the entries of one kind, all of them, in the order of the walk. */
  ghost predicate FoundInOrder(entries: seq<Entry>, kustomization: bool, paths: seq<string>, at: seq<nat>) {
    && Ascending(at, |entries|) && |paths| == |at|
    && (forall n | 0 <= n < |at| ::
          var e := entries[at[n]];
          e.File? && paths[n] == e.directory + "/" + e.name)
    && (forall i: nat | i < |entries| :: i in at <==> Wanted(entries[i], kustomization))
  }

  /** The fourth name of a kustomization ends in neither suffix, so that no walk finds it. */
  lemma PieceIsWanted(e: Entry, kustomization: bool)
    ensures PieceOf(e, kustomization) ==
              if Wanted(e, kustomization) then [e.directory + "/" + e.name] else []
  {
    EndsIn("Kustomization", 'n');
    if e.File? && e.name == "Kustomization" {
      assert e.name[|e.name| - 1] == 'n';
      assert ".yaml"[4] == 'l' && ".yml"[3] == 'l';
    }
  }

  /** The next entry of a walk. */
  lemma FoundStep(entries: seq<Entry>, i: nat, kustomization: bool, paths: seq<string>, at: seq<nat>)
    requires i < |entries| && FoundInOrder(entries[..i], kustomization, paths, at)
    ensures FoundInOrder(entries[..i + 1], kustomization, paths + PieceOf(entries[i], kustomization),
              at + if Wanted(entries[i], kustomization) then [i] else [])
  {
    var e, more := entries[i], entries[..i + 1];
    PieceIsWanted(e, kustomization);
    AscendingStep(at, i);
    assert forall j: nat | j < i :: more[j] == entries[..i][j];
    if Wanted(e, kustomization) {
      var paths', at' := paths + [e.directory + "/" + e.name], at + [i];
      assert forall n | 0 <= n < |at| :: at'[n] == at[n] && paths'[n] == paths[n];
      assert FoundInOrder(more, kustomization, paths', at');
    } else {
      assert paths + [] == paths && at + [] == at;
      assert FoundInOrder(more, kustomization, paths, at);
    }
  }

  lemma FilesInOrder(entries: seq<Entry>, kustomization: bool) returns (at: seq<nat>)
    ensures FoundInOrder(entries, kustomization, FilesOf(entries, kustomization), at)
  {
    var paths: seq<string> := [];
    at := [];
    for i := 0 to |entries|
      invariant paths + FilesOf(entries[i..], kustomization) == FilesOf(entries, kustomization)
      invariant FoundInOrder(entries[..i], kustomization, paths, at)
    {
      FilesOfStep(entries, i, kustomization, paths);
      FoundStep(entries, i, kustomization, paths, at);
      paths := paths + PieceOf(entries[i], kustomization);
      at := at + if Wanted(entries[i], kustomization) then [i] else [];
    }
    assert entries[..|entries|] == entries && paths + [] == paths;
  }

  lemma {:induction false} KustomizationsFound(entries: seq<Entry>)
    ensures FilesOf(entries, true) != [] <==> exists e | e in entries :: NamesKustomization(e)
  {
    if entries != [] {
      PieceIsWanted(entries[0], true);
      KustomizationsFound(entries[1..]);
      assert forall e :: e in entries <==> e == entries[0] || e in entries[1..];
    }
  }

  /** Kustomizations win if there are any, and the two kinds are never mixed. */
  method FindManifests(entries: seq<Entry>) returns (manifests: Option<seq<string>>)
    ensures manifests.None? <==> WalkError in entries
    ensures manifests.Some? ==> manifests.value == Chosen(entries)
    ensures manifests.Some? ==>
              var kustomized := exists e | e in entries :: NamesKustomization(e);
              exists at :: FoundInOrder(entries, kustomized, manifests.value, at)
  {
    var kustomizeFiles: seq<string>, regularManifests: seq<string> := [], [];
    for i := 0 to |entries|
      invariant forall j | 0 <= j < i :: entries[j] != WalkError
      invariant kustomizeFiles + FilesOf(entries[i..], true) == FilesOf(entries, true)
      invariant regularManifests + FilesOf(entries[i..], false) == FilesOf(entries, false)
    {
      FilesOfStep(entries, i, true, kustomizeFiles);
      FilesOfStep(entries, i, false, regularManifests);
      var err;
      err, kustomizeFiles, regularManifests := Visit(entries[i], kustomizeFiles, regularManifests);
      if err {
        assert entries[i] == WalkError;
        return None;
      }
    }
    assert kustomizeFiles + [] == kustomizeFiles && regularManifests + [] == regularManifests;
    KustomizationsFound(entries);
    ghost var at := FilesInOrder(entries, FilesOf(entries, true) != []);
    manifests := Some(if |kustomizeFiles| > 0 then kustomizeFiles else regularManifests);
  }

  function Chosen(entries: seq<Entry>): seq<string> {
    if FilesOf(entries, true) != [] then FilesOf(entries, true) else FilesOf(entries, false)
  }

  /** A file's base name is its name. */
  lemma BaseOfPath(directory: string, name: string)
    requires '/' !in name
    ensures Base(PathOf(directory, name)) == name
  {
    SplitConcat(directory, name, '/');
    SplitWhole(name, '/');
  }

  /** Looking at the first found file decides for all of them. */
  lemma FirstDecidesForAll(entries: seq<Entry>, i: nat)
    requires i < |Chosen(entries)|
    ensures IsKustomization(Base(Chosen(entries)[i])) == IsKustomization(Base(Chosen(entries)[0]))
  {
    ChosenBase(entries, i);
    ChosenBase(entries, 0);
  }

  lemma ChosenBase(entries: seq<Entry>, i: nat)
    requires i < |Chosen(entries)|
    ensures IsKustomization(Base(Chosen(entries)[i])) <==> FilesOf(entries, true) != []
  {
    var e := FileHasEntry(entries, FilesOf(entries, true) != [], i);
    BaseOfPath(e.directory, e.name);
    assert PieceOf(e, FilesOf(entries, true) != [])[0] == PathOf(e.directory, e.name);
  }

  // ------------------------------------------------------------------ paths

  /** What filepath.Clean keeps of the parts of a rooted path: no empty ones and no dots, and ".." takes one back. */
  function Normalised(parts: seq<string>, before: seq<string>): seq<string>
    decreases parts
  {
    if parts == [] then before
    else
      Normalised(parts[1..],
           if parts[0] == "" || parts[0] == "." then before
           else if parts[0] != ".." then before + [parts[0]]
           else if before == [] then []
           else before[..|before| - 1])
  }

  function Rooted(parts: seq<string>): string {
    "/" + Join(parts, '/')
  }

  function CleanPath(path: string): string {
    Rooted(Normalised(Split(path, '/'), []))
  }

  /** filepath.Dir of a rooted path. */
  function Dir(path: string): string {
    var parts := Split(path, '/');
    Rooted(Normalised(parts[..|parts| - 1], []))
  }

  /** filepath.Join of a rooted path and a relative one. */
  function JoinPath(directory: string, path: string): string {
    CleanPath(directory + "/" + path)
  }

  /** A part that names something. */
  predicate Plain(part: string) {
    part != "" && part != "." && part != ".." && '/' !in part
  }

  predicate AllPlain(parts: seq<string>) {
    forall p | p in parts :: Plain(p)
  }

  lemma {:induction false} PlainIsNormal(parts: seq<string>, before: seq<string>)
    requires AllPlain(parts)
    ensures Normalised(parts, before) == before + parts
    decreases parts
  {
    if parts == [] {
      assert before + parts == before;
    } else {
      assert Plain(parts[0]);
      PlainIsNormal(parts[1..], before + [parts[0]]);
      assert before + [parts[0]] + parts[1..] == before + parts;
    }
  }

  lemma {:induction false} NormalisedInTurn(parts: seq<string>, more: seq<string>, before: seq<string>)
    ensures Normalised(parts + more, before) == Normalised(more, Normalised(parts, before))
    decreases parts
  {
    if parts == [] {
      assert parts + more == more;
    } else {
      assert (parts + more)[0] == parts[0] && (parts + more)[1..] == parts[1..] + more;
      var next := if parts[0] == "" || parts[0] == "." then before
                  else if parts[0] != ".." then before + [parts[0]]
                  else if before == [] then []
                  else before[..|before| - 1];
      NormalisedInTurn(parts[1..], more, next);
    }
  }

  lemma SplitRooted(parts: seq<string>)
    requires parts != [] && AllPlain(parts)
    ensures Split(Rooted(parts), '/') == [""] + parts
  {
    assert forall p | p in parts :: Plain(p);
    SplitFirst("", Join(parts, '/'), '/');
    assert "" + ['/'] + Join(parts, '/') == Rooted(parts);
    SplitJoin(parts, '/');
  }

  /** The directory of a file. */
  lemma DirOfFile(parts: seq<string>, file: string)
    requires AllPlain(parts) && Plain(file)
    ensures Dir(Rooted(parts + [file])) == Rooted(parts)
  {
    SplitRooted(parts + [file]);
    var all := [""] + (parts + [file]);
    assert all[..|all| - 1] == [""] + parts;
    PlainIsNormal(parts, []);
    assert ([""] + parts)[1..] == parts && [] + parts == parts;
  }

  /** A relative path is resolved part by part from where it starts. */
  lemma JoinFrom(parts: seq<string>, path: string)
    requires parts != [] && AllPlain(parts)
    ensures JoinPath(Rooted(parts), path) == Rooted(Normalised(Split(path, '/'), parts))
  {
    SplitConcat(Rooted(parts), path, '/');
    SplitRooted(parts);
    NormalisedInTurn([""] + parts, Split(path, '/'), []);
    PlainIsNormal(parts, []);
    assert ([""] + parts)[1..] == parts && [] + parts == parts;
  }

  /** A resource that is a plain name lies beside the kustomization; "../" in front of it leads one directory up. */
  lemma KustomizationResolves(parts: seq<string>, file: string, name: string)
    requires parts != [] && AllPlain(parts) && Plain(file) && Plain(name)
    ensures JoinPath(Dir(Rooted(parts + [file])), name) == Rooted(parts + [name])
    ensures JoinPath(Dir(Rooted(parts + [file])), "../" + name) == Rooted(parts[..|parts| - 1] + [name])
  {
    DirOfFile(parts, file);
    JoinFrom(parts, name);
    SplitWhole(name, '/');
    JoinFrom(parts, "../" + name);
    SplitFirst("..", name, '/');
    assert ".." + ['/'] + name == "../" + name;
    var up := [".."] + [name];
    assert up[1..] == [name] && [name][1..] == [];
    assert Normalised(up, parts) == Normalised([name], parts[..|parts| - 1]);
  }

  // ------------------------------------------------------------------ parsing

  /**
   * What one call of the stream decoder yields: a null document, an object, something that is no object, or no YAML.
   */
  datatype Document = Null | Object(resource: Manifest) | NotAnObject | Malformed

  /** A file either cannot be read or is a stream of documents; after the last the decoder reports its end. */
  datatype Content = Unreadable | Stream(documents: seq<Document>)

  /** A kustomization file cannot be read or parsed, or lists resources relative to its directory. */
  datatype Kustomization = Unusable | Listing(resources: seq<string>)

  datatype Outcome<T> = Parsed(value: T) | Failed

  predicate GoodDocument(d: Document) {
    d.Null? || d.Object?
  }

  predicate GoodContent(c: Content)
    ensures GoodContent(c) <==> c.Stream? && forall d | d in c.documents :: d.Null? || d.Object?
  {
    c.Stream? && forall d | d in c.documents :: GoodDocument(d)
  }

  /** The objects of a stream, up to the first document that is not good. */
  function ObjectsOf(documents: seq<Document>): seq<Manifest> {
    if documents == [] then []
    else (if documents[0].Object? then [documents[0].resource] else []) + ObjectsOf(documents[1..])
  }

  function AllObjects(files: seq<string>, disk: string -> Content): seq<Manifest> {
    if files == [] then [] else ObjectsIn(disk(files[0])) + AllObjects(files[1..], disk)
  }

  function ObjectsIn(c: Content): seq<Manifest> {
    match c case Unreadable => [] case Stream(documents) => ObjectsOf(documents)
  }

  lemma AllObjectsStep(files: seq<string>, i: nat, disk: string -> Content, before: seq<Manifest>)
    requires i < |files|
    ensures before + AllObjects(files[i..], disk) ==
              (before + ObjectsIn(disk(files[i]))) + AllObjects(files[i + 1..], disk)
  {
    assert files[i..][1..] == files[i + 1..];
  }

  /** What is decoded from a stream: the resources of its objects, all of them, in the order of the stream. */
  ghost predicate DecodedInOrder(documents: seq<Document>, resources: seq<Manifest>, at: seq<nat>) {
    && Ascending(at, |documents|) && |resources| == |at|
    && (forall n | 0 <= n < |at| :: documents[at[n]] == Object(resources[n]))
    && (forall d: nat | d < |documents| :: d in at <==> documents[d].Object?)
  }

  lemma DecodedStep(documents: seq<Document>, i: nat, resources: seq<Manifest>, at: seq<nat>)
    requires i < |documents| && DecodedInOrder(documents[..i], resources, at)
    ensures if documents[i].Object?
            then DecodedInOrder(documents[..i + 1], resources + [documents[i].resource], at + [i])
            else DecodedInOrder(documents[..i + 1], resources, at)
  {
    var more := documents[..i + 1];
    AscendingStep(at, i);
    assert forall d: nat | d < i :: more[d] == documents[..i][d];
    if documents[i].Object? {
      var resources', at' := resources + [documents[i].resource], at + [i];
      assert forall n | 0 <= n < |at| :: at'[n] == at[n] && resources'[n] == resources[n];
    }
  }

  /** A resource lies in a file at a position of its stream. */
  ghost predicate LiesAt(files: seq<string>, disk: string -> Content, f: nat, d: nat, m: Manifest) {
    && f < |files| && disk(files[f]).Stream?
    && d < |disk(files[f]).documents| && disk(files[f]).documents[d] == Object(m)
  }

  /** What is parsed from the first files: all their resources, file by file, each in the order of its stream. */
  ghost predicate ParsedInOrder(files: seq<string>, disk: string -> Content, upto: nat, resources: seq<Manifest>,
                                at: seq<(nat, nat)>) {
    && RowByRow(at) && |resources| == |at|
    && (forall n | 0 <= n < |at| :: at[n].0 < upto && LiesAt(files, disk, at[n].0, at[n].1, resources[n]))
    && (forall f: nat, d: nat, m | f < upto && LiesAt(files, disk, f, d, m) :: (f, d) in at)
  }

  lemma ParsedStep(files: seq<string>, i: nat, disk: string -> Content, resources: seq<Manifest>, at: seq<(nat, nat)>,
                   more: seq<Manifest>, columns: seq<nat>)
    requires i < |files| && disk(files[i]).Stream? && ParsedInOrder(files, disk, i, resources, at)
    requires DecodedInOrder(disk(files[i]).documents, more, columns)
    ensures ParsedInOrder(files, disk, i + 1, resources + more, at + Row(i, columns))
  {
    var row, both := Row(i, columns), resources + more;
    var all := at + row;
    RowStep(at, i, columns, |disk(files[i]).documents|);
    forall n | 0 <= n < |all|
      ensures all[n].0 < i + 1 && LiesAt(files, disk, all[n].0, all[n].1, both[n])
    {
      if n < |at| {
        assert all[n] == at[n] && both[n] == resources[n];
      } else {
        assert all[n] == (i, columns[n - |at|]) && both[n] == more[n - |at|];
      }
    }
    forall f: nat, d: nat, m | f < i + 1 && LiesAt(files, disk, f, d, m)
      ensures (f, d) in all
    {
      RowHas(i, columns, d);
    }
  }

  /** The decoder loop over one file; reaching the end of the stream is how it ends well. */
  method DecodeAll(documents: seq<Document>, before: seq<Manifest>) returns (r: Outcome<seq<Manifest>>)
    ensures r.Parsed? <==> forall d | d in documents :: d.Null? || d.Object?
    ensures r.Parsed? ==> r.value == before + ObjectsOf(documents)
    ensures r.Parsed? ==> before <= r.value && exists at :: DecodedInOrder(documents, r.value[|before|..], at)
  {
    var parsed, next := before, 0;
    ghost var more: seq<Manifest>, at: seq<nat> := [], [];
    while next < |documents|
      invariant next <= |documents|
      invariant parsed + ObjectsOf(documents[next..]) == before + ObjectsOf(documents)
      invariant forall d | d in documents[..next] :: GoodDocument(d)
      invariant parsed == before + more && DecodedInOrder(documents[..next], more, at)
    {
      var d := documents[next];
      DecodedStep(documents, next, more, at);
      assert documents[next..][1..] == documents[next + 1..] && documents[..next + 1] == documents[..next] + [d];
      assert d in documents;
      next := next + 1;
      match d {
        case Malformed =>
          return Failed;
        case Null =>
          continue;
        case NotAnObject =>
          return Failed;
        case Object(resource) =>
          parsed := parsed + [resource];
          more, at := more + [resource], at + [next - 1];
      }
    }
    assert documents[..|documents|] == documents && documents[|documents|..] == [] && parsed + [] == parsed;
    assert parsed[|before|..] == more;
    r := Parsed(parsed);
  }

  /**
   * The result is the non-null documents of the files, in file order, then document order; it fails exactly if a file
   * cannot be read or holds a bad document. The decoder's end of stream is not a failure.
   */
  method ParseManifests(files: seq<string>, disk: string -> Content) returns (r: Outcome<seq<Manifest>>)
    ensures r.Parsed? <==> forall f | f in files :: GoodContent(disk(f))
    ensures r.Parsed? ==> r.value == AllObjects(files, disk)
    ensures r.Parsed? ==> exists at :: ParsedInOrder(files, disk, |files|, r.value, at)
  {
    var parsed: seq<Manifest> := [];
    ghost var at: seq<(nat, nat)> := [];
    for i := 0 to |files|
      invariant parsed + AllObjects(files[i..], disk) == AllObjects(files, disk)
      invariant forall j | 0 <= j < i :: GoodContent(disk(files[j]))
      invariant ParsedInOrder(files, disk, i, parsed, at)
    {
      AllObjectsStep(files, i, disk, parsed);
      assert files[i] in files;
      var content := disk(files[i]);
      if content.Unreadable? {
        return Failed;
      }
      var more := DecodeAll(content.documents, parsed);
      if more.Failed? {
        return Failed;
      }
      ghost var columns :| DecodedInOrder(content.documents, more.value[|parsed|..], columns);
      ParsedStep(files, i, disk, parsed, at, more.value[|parsed|..], columns);
      assert parsed + more.value[|parsed|..] == more.value;
      parsed, at := more.value, at + Row(i, columns);
    }
    assert parsed + [] == parsed;
    r := Parsed(parsed);
  }

  /** The paths a kustomization file refers to, resolved from the directory it lies in. */
  method ParseKustomization(path: string, k: Kustomization) returns (r: Outcome<seq<string>>)
    ensures r.Failed? <==> k.Unusable?
    ensures r.Parsed? ==> r.value == Referred(path, k)
    ensures r.Parsed? ==>
              && |r.value| == |k.resources|
              && forall j | 0 <= j < |r.value| :: r.value[j] == CleanPath(Dir(path) + "/" + k.resources[j])
  {
    if k.Unusable? {
      return Failed;
    }
    var kustomizeDir := Dir(path);
    var paths: seq<string> := [];
    for i := 0 to |k.resources|
      invariant paths == seq(i, j requires 0 <= j < |k.resources| => JoinPath(kustomizeDir, k.resources[j]))
    {
      paths := paths + [JoinPath(kustomizeDir, k.resources[i])];
    }
    r := Parsed(paths);
  }

  function Referred(path: string, k: Kustomization): seq<string> {
    match k
    case Unusable => []
    case Listing(resources) => seq(|resources|, j requires 0 <= j < |resources| => JoinPath(Dir(path), resources[j]))
  }

  function AllReferred(files: seq<string>, kustomizations: string -> Kustomization): seq<string> {
    if files == [] then [] else Referred(files[0], kustomizations(files[0])) + AllReferred(files[1..], kustomizations)
  }

  lemma AllReferredStep(files: seq<string>, i: nat, kustomizations: string -> Kustomization, before: seq<string>)
    requires i < |files|
    ensures before + AllReferred(files[i..], kustomizations)
         == (before + Referred(files[i], kustomizations(files[i]))) + AllReferred(files[i + 1..], kustomizations)
  {
    assert files[i..][1..] == files[i + 1..];
  }

  /**
   * The files whose documents become the resources: those the kustomizations refer to if there are any, else all
   * manifests.
   */
  function Manifests(entries: seq<Entry>, kustomizations: string -> Kustomization): seq<string> {
    if FilesOf(entries, true) != [] then AllReferred(FilesOf(entries, true), kustomizations) else FilesOf(entries,
        false)
  }

  /** A path is what a kustomization lists at a position, seen from the kustomization's directory. */
  ghost predicate RefersAt(files: seq<string>, kustomizations: string -> Kustomization, f: nat, j: nat, path: string) {
    && f < |files| && kustomizations(files[f]).Listing?
    && j < |kustomizations(files[f]).resources|
    && path == CleanPath(Dir(files[f]) + "/" + kustomizations(files[f]).resources[j])
  }

  /** What the first kustomizations refer to: everything they list, file by file, in the order of each list. */
  ghost predicate ReferredInOrder(files: seq<string>, kustomizations: string -> Kustomization, upto: nat,
                                  paths: seq<string>, at: seq<(nat, nat)>) {
    && RowByRow(at) && |paths| == |at|
    && (forall n | 0 <= n < |at| :: at[n].0 < upto && RefersAt(files, kustomizations, at[n].0, at[n].1, paths[n]))
    && (forall f: nat, j: nat, path | f < upto && RefersAt(files, kustomizations, f, j, path) :: (f, j) in at)
  }

  lemma ReferredStep(files: seq<string>, i: nat, kustomizations: string -> Kustomization, paths: seq<string>,
                     at: seq<(nat, nat)>)
    requires i < |files| && kustomizations(files[i]).Listing? && ReferredInOrder(files, kustomizations, i, paths, at)
    ensures var k := kustomizations(files[i]);
            ReferredInOrder(files, kustomizations, i + 1, paths + Referred(files[i], k),
                at + Row(i, Upto(|k.resources|)))
  {
    var k := kustomizations(files[i]);
    var columns, more := Upto(|k.resources|), Referred(files[i], k);
    var all, both := at + Row(i, columns), paths + more;
    RowStep(at, i, columns, |k.resources|);
    forall n | 0 <= n < |all|
      ensures all[n].0 < i + 1 && RefersAt(files, kustomizations, all[n].0, all[n].1, both[n])
    {
      if n < |at| {
        assert all[n] == at[n] && both[n] == paths[n];
      } else {
        assert all[n] == (i, n - |at|) && both[n] == more[n - |at|];
      }
    }
    forall f: nat, j: nat, path | f < i + 1 && RefersAt(files, kustomizations, f, j, path)
      ensures (f, j) in all
    {
      if f == i {
        assert columns[j] == j;
        RowHas(i, columns, j);
      }
    }
  }

  /** What all kustomization files refer to. */
  method CollectReferred(files: seq<string>, kustomizations: string -> Kustomization) returns (r: Outcome<seq<string>>)
    ensures r.Parsed? <==> forall f | f in files :: kustomizations(f).Listing?
    ensures r.Parsed? ==> r.value == AllReferred(files, kustomizations)
    ensures r.Parsed? ==> exists at :: ReferredInOrder(files, kustomizations, |files|, r.value, at)
  {
    var all: seq<string> := [];
    ghost var at: seq<(nat, nat)> := [];
    for i := 0 to |files|
      invariant all + AllReferred(files[i..], kustomizations) == AllReferred(files, kustomizations)
      invariant forall j | 0 <= j < i :: kustomizations(files[j]).Listing?
      invariant ReferredInOrder(files, kustomizations, i, all, at)
    {
      AllReferredStep(files, i, kustomizations, all);
      assert files[i] in files;
      var paths := ParseKustomization(files[i], kustomizations(files[i]));
      if paths.Failed? {
        return Failed;
      }
      ReferredStep(files, i, kustomizations, all, at);
      all, at := all + paths.value, at + Row(i, Upto(|paths.value|));
    }
    assert all + [] == all;
    r := Parsed(all);
  }

  /**
   * What `cdk8s synth` in one directory ends in: whether it succeeds, what a walk finds then, and what the files hold.
   */
  datatype Workspace = Workspace(synthesized: bool, entries: seq<Entry>,
                                 kustomizations: string -> Kustomization, disk: string -> Content)

  predicate Parses(ws: Workspace) {
    && ws.synthesized && WalkError !in ws.entries
    && (forall f | f in FilesOf(ws.entries, true) :: ws.kustomizations(f).Listing?)
    && (forall f | f in Manifests(ws.entries, ws.kustomizations) :: GoodContent(ws.disk(f)))
  }

  /**
   * The way from a walk to resources: the kustomizations, or if there are none the manifests, in the order of the walk;
   * then what they refer to, or they themselves; then the objects of these files.
   */
  ghost predicate FoundAndParsed(ws: Workspace, found: seq<string>, files: seq<string>, resources: seq<Manifest>) {
    var kustomized := exists e | e in ws.entries :: NamesKustomization(e);
    && (exists at :: FoundInOrder(ws.entries, kustomized, found, at))
    && (if kustomized then exists at :: ReferredInOrder(found, ws.kustomizations, |found|, files, at)
        else files == found)
    && (exists at :: ParsedInOrder(files, ws.disk, |files|, resources, at))
  }

  function SynthesisOf(ws: Workspace): Outcome<seq<Manifest>> {
    if Parses(ws) then Parsed(AllObjects(Manifests(ws.entries, ws.kustomizations), ws.disk)) else Failed
  }

  lemma ReferredIsSynthesis(ws: Workspace, found: seq<string>, files: seq<string>, r: Outcome<seq<Manifest>>)
    requires ws.synthesized && WalkError !in ws.entries
    requires FilesOf(ws.entries, true) != [] && found == FilesOf(ws.entries, true)
    requires forall f | f in found :: ws.kustomizations(f).Listing?
    requires files == AllReferred(found, ws.kustomizations)
    requires r.Parsed? <==> forall f | f in files :: GoodContent(ws.disk(f))
    requires r.Parsed? ==> r.value == AllObjects(files, ws.disk)
    ensures r == SynthesisOf(ws)
  {
  }

  lemma FoundIsSynthesis(ws: Workspace, found: seq<string>, r: Outcome<seq<Manifest>>)
    requires ws.synthesized && WalkError !in ws.entries
    requires FilesOf(ws.entries, true) == [] && found == FilesOf(ws.entries, false)
    requires r.Parsed? <==> forall f | f in found :: GoodContent(ws.disk(f))
    requires r.Parsed? ==> r.value == AllObjects(found, ws.disk)
    ensures r == SynthesisOf(ws)
  {
  }

  /**
   * After a successful `cdk8s synth`: exactly the documents of the manifests, or a failure for exactly these reasons.
   * `found` are the files that the walk found, and `files` those that were parsed.
   */
  method Synthesize(ws: Workspace) returns (r: Outcome<seq<Manifest>>)
    ensures r == SynthesisOf(ws)
    ensures r.Parsed? ==> exists found, files :: FoundAndParsed(ws, found, files, r.value)
  {
    if !ws.synthesized {
      return Failed;
    }
    var found := FindManifests(ws.entries);
    if found.None? {
      return Failed;
    }
    var files := found.value;
    if |files| > 0 {
      ChosenBase(ws.entries, 0);
    }
    KustomizationsFound(ws.entries);
    if |files| > 0 && IsKustomization(Base(files[0])) {
      var all := CollectReferred(files, ws.kustomizations);
      if all.Failed? {
        return Failed;
      }
      r := ParseManifests(all.value, ws.disk);
      ReferredIsSynthesis(ws, files, all.value, r);
      assert r.Parsed? ==> FoundAndParsed(ws, files, all.value, r.value);
    } else {
      r := ParseManifests(files, ws.disk);
      FoundIsSynthesis(ws, files, r);
      assert r.Parsed? ==> FoundAndParsed(ws, files, files, r.value);
    }
  }
}
