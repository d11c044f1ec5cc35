/**
 Which release images uncommitted files affect: changed paths are mapped to the packages that own or
 read them, and an image is selected when a changed package can be reached from its target packages.
 */
module ImageSelector {
  import opened Wrappers

  /** A resolved path is the sequence of its parts; a directory contains what it is a prefix of. */
  type Path = seq<string>

  type PackageId = nat

  /** `readsShared` holds the `dir/subdir` pairs that the package's own Rust sources mention. */
  datatype Package = Package(
    id: PackageId,
    name: string,
    directory: Path,
    inWorkspace: bool,
    readsShared: set<(string, string)>)

  type Dependencies = map<PackageId, set<PackageId>>

  datatype Image = Image(name: string, packages: set<string>)

  const TARGETS: seq<Image> := [
    Image("light-a2a", {"light-a2a"}),
    Image("light-agent", {"light-agent"}),
    Image("light-deployer", {"light-deployer"}),
    Image("light-gateway", {"light-gateway"}),
    Image("light-identity-issuer", {"light-identity-issuer-service"}),
    Image("light-workflow", {"light-workflow"}),
    Image("light-workflow-runner", {"light-workflow-runner", "light-agent-worker"}),
    Image("light-knowledge", {"light-knowledge"}),
    Image("light-knowledge-admin", {"light-knowledge-admin"}),
    Image("light-knowledge-worker", {"light-knowledge-worker"})
  ]

  // ---- Reachability ----

  function DirectDependencies(deps: Dependencies, id: PackageId): set<PackageId> {
    if id in deps then deps[id] else {}
  }

  /** A walk along dependency edges. */
  ghost predicate IsWalk(deps: Dependencies, walk: seq<PackageId>) {
    |walk| > 0 && forall i | 0 < i < |walk| :: walk[i] in DirectDependencies(deps, walk[i - 1])
  }

  ghost predicate WalkFrom(deps: Dependencies, start: set<PackageId>, id: PackageId, walk: seq<PackageId>) {
    IsWalk(deps, walk) && walk[0] in start && walk[|walk| - 1] == id
  }

  ghost predicate Reachable(deps: Dependencies, start: set<PackageId>, id: PackageId) {
    exists walk :: WalkFrom(deps, start, id, walk)
  }

  lemma StartIsReachable(deps: Dependencies, start: set<PackageId>, id: PackageId)
    requires id in start
    ensures Reachable(deps, start, id)
  {
    assert WalkFrom(deps, start, id, [id]);
  }

  lemma EdgeIsReachable(deps: Dependencies, start: set<PackageId>, id: PackageId, next: PackageId)
    requires Reachable(deps, start, id) && next in DirectDependencies(deps, id)
    ensures Reachable(deps, start, next)
  {
    var walk :| WalkFrom(deps, start, id, walk);
    var longer := walk + [next];
    forall i | 0 < i < |longer| ensures longer[i] in DirectDependencies(deps, longer[i - 1]) {
      if i < |walk| { assert longer[i] == walk[i] && longer[i - 1] == walk[i - 1]; }
    }
    assert WalkFrom(deps, start, next, longer);
  }

  ghost predicate ClosedUnder(deps: Dependencies, s: set<PackageId>) {
    forall id | id in s :: DirectDependencies(deps, id) <= s
  }

  /** A walk cannot leave a closed set. */
  lemma {:induction false} WalkStaysInside(deps: Dependencies, s: set<PackageId>, walk: seq<PackageId>, i: nat)
    requires ClosedUnder(deps, s) && IsWalk(deps, walk) && walk[0] in s && i < |walk|
    ensures walk[i] in s
  {
    if i > 0 { WalkStaysInside(deps, s, walk, i - 1); }
  }

  /** Everything any package may depend on. */
  function Universe(deps: Dependencies, start: set<PackageId>): set<PackageId> {
    start + set a, b | a in deps.Keys && b in deps[a] :: b
  }

  /** Every collected package that is not waiting has had its dependencies collected. */
  ghost predicate Settled(deps: Dependencies, closure: set<PackageId>, pending: seq<PackageId>) {
    forall x | x in closure && x !in pending :: DirectDependencies(deps, x) <= closure
  }

  /** Visiting one waiting package settles it and leaves the others settled. */
  lemma VisitSettles(deps: Dependencies, closure: set<PackageId>, pending: seq<PackageId>, closure': set<PackageId>,
                     pending': seq<PackageId>)
    requires pending != [] && Settled(deps, closure, pending)
    requires closure' == closure + DirectDependencies(deps, pending[|pending| - 1])
    requires forall x :: x in pending' <==> x in pending[..|pending| - 1] || (x in closure' && x !in closure)
    ensures Settled(deps, closure', pending')
  {
    assert pending == pending[..|pending| - 1] + [pending[|pending| - 1]];
  }

  /** A settled closure of reachable packages is reachability itself. */
  lemma SettledIsReachable(deps: Dependencies, start: set<PackageId>, closure: set<PackageId>)
    requires start <= closure && Settled(deps, closure, [])
    requires forall x | x in closure :: Reachable(deps, start, x)
    ensures forall id :: id in closure <==> Reachable(deps, start, id)
  {
    forall id | Reachable(deps, start, id) ensures id in closure {
      var walk :| WalkFrom(deps, start, id, walk);
      WalkStaysInside(deps, closure, walk, |walk| - 1);
    }
  }

  /** The worklist: ends on every graph, cycles included, with exactly the reachable packages. */
  method Closure(deps: Dependencies, start: set<PackageId>) returns (closure: set<PackageId>)
    ensures forall id :: id in closure <==> Reachable(deps, start, id)
  {
    closure := start;
    var pending := Listing(start);
    forall id | id in start ensures Reachable(deps, start, id) { StartIsReachable(deps, start, id); }
    ghost var universe := Universe(deps, start);
    while pending != []
      invariant start <= closure <= universe
      invariant forall x | x in pending :: x in closure
      invariant forall x | x in closure :: Reachable(deps, start, x)
      invariant Settled(deps, closure, pending)
      decreases universe - closure, |pending|
    {
      var current := pending[|pending| - 1];
      var closure', pending' := Visit(deps, start, current, closure, pending[..|pending| - 1]);
      VisitSettles(deps, closure, pending, closure', pending');
      closure, pending := closure', pending';
    }
    SettledIsReachable(deps, start, closure);
  }

  /** Adds the dependencies of one package that are new, to the closure and to the worklist. */
  method Visit(deps: Dependencies, start: set<PackageId>, current: PackageId, closure: set<PackageId>, pending: seq<PackageId>)
    returns (closure': set<PackageId>, pending': seq<PackageId>)
    requires Reachable(deps, start, current)
    requires forall x | x in closure :: Reachable(deps, start, x)
    ensures closure' == closure + DirectDependencies(deps, current)
    ensures pending <= pending' && (closure' == closure ==> pending' == pending)
    ensures forall x :: x in pending' <==> x in pending || (x in closure' && x !in closure)
    ensures forall x | x in closure' :: Reachable(deps, start, x)
    ensures closure' <= closure + Universe(deps, start)
  {
    closure', pending' := closure, pending;
    var rest := DirectDependencies(deps, current);
    while rest != {}
      invariant rest <= DirectDependencies(deps, current)
      invariant closure' == closure + (DirectDependencies(deps, current) - rest)
      invariant pending <= pending' && (closure' == closure ==> pending' == pending)
      invariant forall x :: x in pending' <==> x in pending || (x in closure' && x !in closure)
      invariant forall x | x in closure' :: Reachable(deps, start, x)
      decreases |rest|
    {
      var dependency :| dependency in rest;
      rest := rest - {dependency};
      if dependency !in closure' {
        closure' := closure' + {dependency};
        pending' := pending' + [dependency];
        EdgeIsReachable(deps, start, current, dependency);
      }
    }
  }

  method Listing(s: set<PackageId>) returns (list: seq<PackageId>)
    ensures forall x :: x in list <==> x in s
  {
    list := [];
    var rest := s;
    while rest != {}
      invariant rest <= s
      invariant forall x :: x in list <==> x in s && x !in rest
      decreases |rest|
    {
      var x :| x in rest;
      rest := rest - {x};
      list := list + [x];
    }
  }

  // ---- The owner of a path ----

  /** Stable insertion: deeper directories first, earlier packages before later ones of equal depth. */
  function Insert(p: Package, sorted: seq<Package>): seq<Package> {
    if sorted == [] || |sorted[0].directory| <= |p.directory| then [p] + sorted
    else [sorted[0]] + Insert(p, sorted[1..])
  }

  function ByDepth(packages: seq<Package>): seq<Package> {
    if packages == [] then [] else Insert(packages[0], ByDepth(packages[1..]))
  }

  ghost predicate DeepestFirst(packages: seq<Package>) {
    forall i, j | 0 <= i < j < |packages| :: |packages[i].directory| >= |packages[j].directory|
  }

  lemma {:induction false} InsertKeepsElements(p: Package, sorted: seq<Package>)
    ensures multiset(Insert(p, sorted)) == multiset(sorted) + multiset{p}
  {
    if sorted == [] || |sorted[0].directory| <= |p.directory| {
    } else {
      InsertKeepsElements(p, sorted[1..]);
      assert sorted == [sorted[0]] + sorted[1..];
    }
  }

  lemma InsertedIsOldOrNew(p: Package, sorted: seq<Package>, j: nat)
    requires j < |Insert(p, sorted)|
    ensures Insert(p, sorted)[j] == p || Insert(p, sorted)[j] in sorted
  {
    InsertKeepsElements(p, sorted);
    assert Insert(p, sorted)[j] in multiset(Insert(p, sorted));
  }

  lemma {:induction false} InsertKeepsOrder(p: Package, sorted: seq<Package>)
    requires DeepestFirst(sorted)
    ensures DeepestFirst(Insert(p, sorted))
  {
    if sorted == [] || |sorted[0].directory| <= |p.directory| {
    } else {
      InsertKeepsOrder(p, sorted[1..]);
      var tail := Insert(p, sorted[1..]);
      forall j | 0 <= j < |tail| ensures |sorted[0].directory| >= |tail[j].directory| {
        InsertedIsOldOrNew(p, sorted[1..], j);
      }
    }
  }

  lemma {:induction false} ByDepthSorts(packages: seq<Package>)
    ensures DeepestFirst(ByDepth(packages))
    ensures multiset(ByDepth(packages)) == multiset(packages)
  {
    if packages == [] {
    } else {
      ByDepthSorts(packages[1..]);
      InsertKeepsElements(packages[0], ByDepth(packages[1..]));
      InsertKeepsOrder(packages[0], ByDepth(packages[1..]));
      assert packages == [packages[0]] + packages[1..];
    }
  }

  /** `p` owns `path`: it contains the path and no package directory containing it is deeper. */
  ghost predicate Owns(packages: seq<Package>, p: Package, path: Path) {
    && p in packages && p.directory <= path
    && forall q | q in packages && q.directory <= path :: |q.directory| <= |p.directory|
  }

  function FirstContaining(packages: seq<Package>, path: Path): Option<Package> {
    if packages == [] then None
    else if packages[0].directory <= path then Some(packages[0])
    else FirstContaining(packages[1..], path)
  }

  /** The package `next` finds among the directories sorted by depth. */
  function Owner(packages: seq<Package>, path: Path): Option<Package> {
    FirstContaining(ByDepth(packages), path)
  }

  lemma {:induction false} FirstIsDeepest(sorted: seq<Package>, path: Path)
    requires DeepestFirst(sorted)
    ensures var first := FirstContaining(sorted, path);
      && (first.Some? ==> Owns(sorted, first.value, path))
      && (first.None? ==> forall p | p in sorted :: !(p.directory <= path))
  {
    if sorted != [] {
      var rest := sorted[1..];
      assert sorted == [sorted[0]] + rest;
      FirstIsDeepest(rest, path);
    }
  }

  /** The owner is a package whose directory contains the path and is as deep as any that does; there
      is none exactly when no package directory contains the path. */
  lemma OwnerIsDeepest(packages: seq<Package>, path: Path)
    ensures var owner := Owner(packages, path);
      && (owner.Some? ==> Owns(packages, owner.value, path))
      && (owner.None? <==> forall p | p in packages :: !(p.directory <= path))
  {
    ByDepthSorts(packages);
    SameElements(packages, ByDepth(packages));
    FirstIsDeepest(ByDepth(packages), path);
  }

  lemma SameElements(a: seq<Package>, b: seq<Package>)
    requires multiset(a) == multiset(b)
    ensures forall p :: p in a <==> p in b
  {
    forall p ensures p in a <==> p in b {
      assert p in a <==> p in multiset(a);
      assert p in b <==> p in multiset(b);
    }
  }

  method FindOwner(packages: seq<Package>, path: Path) returns (owner: Option<Package>)
    ensures owner == Owner(packages, path)
    ensures owner.Some? ==> Owns(packages, owner.value, path)
    ensures owner.None? <==> forall p | p in packages :: !(p.directory <= path)
  {
    OwnerIsDeepest(packages, path);
    var sorted := ByDepth(packages);
    var i := 0;
    while i < |sorted|
      invariant 0 <= i <= |sorted|
      invariant FirstContaining(sorted, path) == FirstContaining(sorted[i..], path)
    {
      if sorted[i].directory <= path {
        return Some(sorted[i]);
      }
      assert sorted[i..][1..] == sorted[i + 1..];
      i := i + 1;
    }
    return None;
  }

  /** All owners of a path share one directory. */
  lemma OwnersShareDirectory(packages: seq<Package>, p: Package, q: Package, path: Path)
    requires Owns(packages, p, path) && Owns(packages, q, path)
    ensures p.directory == q.directory
  {
    assert p.directory == path[..|p.directory|] && q.directory == path[..|q.directory|];
  }

  // ---- What a changed path changes ----

  /** `parts` are the parts of the path below the repository root. */
  predicate GlobalInput(parts: Path) {
    || (|parts| == 1 && parts[0] in {"Cargo.toml", "Cargo.lock", ".dockerignore", "rust-toolchain", "rust-toolchain.toml"})
    || (|parts| > 0 && parts[0] in {".cargo", "patches"})
  }

  predicate SharedSource(parts: Path) { |parts| >= 3 && parts[0] == "contracts" }

  function Readers(packages: seq<Package>, parts: Path): set<PackageId>
    requires SharedSource(parts)
  {
    set p | p in packages && p.inWorkspace && (parts[0], parts[1]) in p.readsShared :: p.id
  }

  /** The packages a changed path touches, and whether it affects every image. */
  function Touched(packages: seq<Package>, root: Path, path: Path): (set<PackageId>, bool) {
    if !(root <= path) then ({}, false)
    else
      var parts := path[|root|..];
      if GlobalInput(parts) then ({}, true)
      else
        match Owner(packages, path)
        case Some(p) => ({p.id}, false)
        case None =>
          if !SharedSource(parts) then ({}, false)
          else
            var readers := Readers(packages, parts);
            (readers, readers == {})
  }

  /** Goes through the changed paths in any order and collects what they touch. */
  method CollectChanges(packages: seq<Package>, root: Path, dirty: set<Path>)
    returns (changed: set<PackageId>, everything: bool)
    ensures forall id :: id in changed <==> exists path | path in dirty :: id in Touched(packages, root, path).0
    ensures everything <==> exists path | path in dirty :: Touched(packages, root, path).1
  {
    changed, everything := {}, false;
    var rest := dirty;
    while rest != {}
      invariant rest <= dirty
      invariant forall id :: id in changed <==> exists path | path in dirty - rest :: id in Touched(packages, root, path).0
      invariant everything <==> exists path | path in dirty - rest :: Touched(packages, root, path).1
      decreases |rest|
    {
      var path :| path in rest;
      ghost var seen := dirty - rest;
      rest := rest - {path};
      assert dirty - rest == seen + {path};
      var touched, global := TouchedBy(packages, root, path);
      changed := changed + touched;
      everything := everything || global;
    }
    assert dirty - rest == dirty;
  }

  method TouchedBy(packages: seq<Package>, root: Path, path: Path) returns (touched: set<PackageId>, global: bool)
    ensures (touched, global) == Touched(packages, root, path)
  {
    if !(root <= path) {
      return {}, false;
    }
    var parts := path[|root|..];
    if GlobalInput(parts) {
      return {}, true;
    }
    var owner := FindOwner(packages, path);
    if owner.Some? {
      return {owner.value.id}, false;
    }
    if !SharedSource(parts) {
      return {}, false;
    }
    var readers := Readers(packages, parts);
    return readers, readers == {};
  }

  // ---- The selection ----

  datatype SelectionError = UnknownImage | MissingPackage

  function TargetIds(packages: seq<Package>, image: Image): set<PackageId> {
    set p | p in packages && p.name in image.packages :: p.id
  }

  predicate Complete(packages: seq<Package>, image: Image) {
    forall name | name in image.packages :: exists p | p in packages :: p.name == name
  }

  /** An image is affected by a change to everything, or by a changed package its targets reach. */
  ghost predicate Affected(packages: seq<Package>, deps: Dependencies, root: Path, dirty: set<Path>, image: Image) {
    || (exists path | path in dirty :: Touched(packages, root, path).1)
    || (exists path, id | path in dirty && id in Touched(packages, root, path).0 ::
          Reachable(deps, TargetIds(packages, image), id))
  }

  /** The affected images among the requested ones, in the order of `images`; no request means all. */
  ghost function Selection(images: seq<Image>, packages: seq<Package>, deps: Dependencies, root: Path, dirty: set<Path>,
                           requested: set<string>): seq<string>
  {
    if images == [] then []
    else
      var last := images[|images| - 1];
      Selection(images[..|images| - 1], packages, deps, root, dirty, requested)
      + if (requested == {} || last.name in requested) && Affected(packages, deps, root, dirty, last) then [last.name] else []
  }

  /** The packages an image is built from. */
  function ImageTargets(packages: seq<Package>, image: Image): set<PackageId> {
    set p | p in packages && p.name in image.packages :: p.id
  }

  /** Inputs of every build: a few files at the root, and two directories. */
  predicate BuildWide(parts: Path) {
    || parts == ["Cargo.toml"] || parts == ["Cargo.lock"] || parts == [".dockerignore"]
    || parts == ["rust-toolchain"] || parts == ["rust-toolchain.toml"]
    || (|parts| > 0 && (parts[0] == ".cargo" || parts[0] == "patches"))
  }

  /** A workspace package whose sources mention the contracts directory that a changed path lies in. */
  predicate Reads(p: Package, parts: Path) {
    p.inWorkspace && |parts| >= 3 && parts[0] == "contracts" && ("contracts", parts[1]) in p.readsShared
  }

  /** A changed path concerns an image: everybody, if it is a build-wide input; through its owner, if it
      has one; through the readers of the contract it is part of, or everybody if nobody reads it. */
  ghost predicate PathConcerns(packages: seq<Package>, deps: Dependencies, root: Path, path: Path, image: Image) {
    && root <= path
    && var parts := path[|root|..];
       || BuildWide(parts)
       || (!BuildWide(parts)
           && exists p | p in packages :: Owner(packages, path) == Some(p) && Reachable(deps, ImageTargets(packages, image), p.id))
       || (!BuildWide(parts) && (forall p | p in packages :: !(p.directory <= path))
           && |parts| >= 3 && parts[0] == "contracts"
           && (|| (forall p | p in packages :: !Reads(p, parts))
               || (exists p | p in packages :: Reads(p, parts) && Reachable(deps, ImageTargets(packages, image), p.id))))
  }

  ghost predicate Concerned(packages: seq<Package>, deps: Dependencies, root: Path, dirty: set<Path>, image: Image) {
    exists path | path in dirty :: PathConcerns(packages, deps, root, path, image)
  }

  lemma ReadersExactly(packages: seq<Package>, parts: Path)
    requires SharedSource(parts)
    ensures forall id :: id in Readers(packages, parts) <==> exists p | p in packages :: Reads(p, parts) && p.id == id
  {
  }

  lemma BuildWideExactly(parts: Path)
    ensures GlobalInput(parts) <==> BuildWide(parts)
  {
    if |parts| == 1 { assert parts == [parts[0]]; }
  }

  lemma ConcernsThroughReaders(packages: seq<Package>, deps: Dependencies, parts: Path, start: set<PackageId>)
    requires SharedSource(parts)
    ensures Readers(packages, parts) == {} <==> forall p | p in packages :: !Reads(p, parts)
    ensures (exists id :: id in Readers(packages, parts) && Reachable(deps, start, id)) <==>
              (exists p | p in packages :: Reads(p, parts) && Reachable(deps, start, p.id))
  {
    ReadersExactly(packages, parts);
    if id :| id in Readers(packages, parts) && Reachable(deps, start, id) {
      var p :| p in packages && Reads(p, parts) && p.id == id;
    }
    if p :| p in packages && Reads(p, parts) && Reachable(deps, start, p.id) {
      assert p.id in Readers(packages, parts);
    }
    if p :| p in packages && Reads(p, parts) {
      assert p.id in Readers(packages, parts);
    }
    if Readers(packages, parts) != {} {
      var id :| id in Readers(packages, parts);
      var p :| p in packages && Reads(p, parts) && p.id == id;
    }
  }

  /** What a path touches is what it concerns images through. */
  lemma TouchedExactly(packages: seq<Package>, deps: Dependencies, root: Path, path: Path, image: Image)
    ensures PathConcerns(packages, deps, root, path, image) <==>
              || Touched(packages, root, path).1
              || exists id :: id in Touched(packages, root, path).0 && Reachable(deps, TargetIds(packages, image), id)
  {
    assert ImageTargets(packages, image) == TargetIds(packages, image);
    OwnerIsDeepest(packages, path);
    if root <= path {
      BuildWideExactly(path[|root|..]);
      if SharedSource(path[|root|..]) {
        ConcernsThroughReaders(packages, deps, path[|root|..], TargetIds(packages, image));
      }
      if Owner(packages, path).Some? {
        assert Owner(packages, path).value in packages;
        assert Owner(packages, path).value.id in {Owner(packages, path).value.id};
      }
    }
  }

  lemma AffectedExactly(packages: seq<Package>, deps: Dependencies, root: Path, dirty: set<Path>, image: Image)
    ensures Affected(packages, deps, root, dirty, image) <==> Concerned(packages, deps, root, dirty, image)
  {
    forall path | path in dirty
      ensures PathConcerns(packages, deps, root, path, image) <==>
                || Touched(packages, root, path).1
                || exists id :: id in Touched(packages, root, path).0 && Reachable(deps, TargetIds(packages, image), id)
    {
      TouchedExactly(packages, deps, root, path, image);
    }
  }

  /** A name is selected exactly if it is asked for and belongs to an image that a changed path concerns. */
  lemma {:induction false} SelectedExactly(images: seq<Image>, packages: seq<Package>, deps: Dependencies, root: Path,
                                           dirty: set<Path>, requested: set<string>, name: string)
    ensures name in Selection(images, packages, deps, root, dirty, requested) <==>
              exists image | image in images ::
                image.name == name && (requested == {} || name in requested) && Concerned(packages, deps, root, dirty, image)
  {
    if images != [] {
      var init, last := images[..|images| - 1], images[|images| - 1];
      SelectedExactly(init, packages, deps, root, dirty, requested, name);
      AffectedExactly(packages, deps, root, dirty, last);
      assert images == init + [last];
    }
  }

  method SelectImages(packages: seq<Package>, deps: Dependencies, root: Path, dirty: set<Path>, requested: set<string>)
    returns (r: Result<seq<string>, SelectionError>)
    ensures r == Err(UnknownImage) <==> !(requested <= set image | image in TARGETS :: image.name)
    ensures r == Err(MissingPackage) <==>
              requested <= (set image | image in TARGETS :: image.name) && exists image | image in TARGETS :: !Complete(packages, image)
    ensures r.Ok? ==> r.value == Selection(TARGETS, packages, deps, root, dirty, requested)
    ensures r.Ok? ==> forall name :: name in r.value <==>
              exists image | image in TARGETS ::
                image.name == name && (requested == {} || name in requested) && Concerned(packages, deps, root, dirty, image)
  {
    if !(requested <= set image | image in TARGETS :: image.name) {
      return Err(UnknownImage);
    }
    var changed, everything := CollectChanges(packages, root, dirty);
    if exists image | image in TARGETS :: !Complete(packages, image) {
      return Err(MissingPackage);
    }
    var affected := SelectAffected(TARGETS, packages, deps, root, dirty, requested, changed, everything);
    forall name
      ensures name in affected <==>
                exists image | image in TARGETS ::
                  image.name == name && (requested == {} || name in requested) && Concerned(packages, deps, root, dirty, image)
    {
      SelectedExactly(TARGETS, packages, deps, root, dirty, requested, name);
    }
    return Ok(affected);
  }

  /** Goes through the images in their order and keeps the requested ones that are affected. */
  method SelectAffected(images: seq<Image>, packages: seq<Package>, deps: Dependencies, root: Path, dirty: set<Path>,
                        requested: set<string>, changed: set<PackageId>, everything: bool)
    returns (affected: seq<string>)
    requires forall id :: id in changed <==> exists path | path in dirty :: id in Touched(packages, root, path).0
    requires everything <==> exists path | path in dirty :: Touched(packages, root, path).1
    ensures affected == Selection(images, packages, deps, root, dirty, requested)
  {
    affected := [];
    var i := 0;
    while i < |images|
      invariant 0 <= i <= |images|
      invariant affected == Selection(images[..i], packages, deps, root, dirty, requested)
    {
      var image := images[i];
      assert images[..i + 1][..i] == images[..i];
      var selected := IsSelected(packages, deps, root, dirty, image, changed, everything);
      if (requested == {} || image.name in requested) && selected {
        affected := affected + [image.name];
      }
      i := i + 1;
    }
    assert images[..i] == images;
  }

  method IsSelected(packages: seq<Package>, deps: Dependencies, root: Path, dirty: set<Path>, image: Image,
                    changed: set<PackageId>, everything: bool) returns (selected: bool)
    requires forall id :: id in changed <==> exists path | path in dirty :: id in Touched(packages, root, path).0
    requires everything <==> exists path | path in dirty :: Touched(packages, root, path).1
    ensures selected <==> Affected(packages, deps, root, dirty, image)
  {
    var closure := Closure(deps, TargetIds(packages, image));
    selected := everything || closure * changed != {};
    if closure * changed != {} {
      var id :| id in closure * changed;
      assert Reachable(deps, TargetIds(packages, image), id);
    }
    if Affected(packages, deps, root, dirty, image) && !everything {
      var path, id :| path in dirty && id in Touched(packages, root, path).0 && Reachable(deps, TargetIds(packages, image), id);
      assert id in closure * changed;
    }
  }

  /** The request filter only filters: asking for some images never changes the verdict on any. */
  lemma {:induction false} RequestOnlyFilters(images: seq<Image>, packages: seq<Package>, deps: Dependencies, root: Path,
                                              dirty: set<Path>, requested: set<string>, name: string)
    requires requested != {}
    ensures name in Selection(images, packages, deps, root, dirty, requested) <==>
              name in requested && name in Selection(images, packages, deps, root, dirty, {})
  {
    if images != [] {
      RequestOnlyFilters(images[..|images| - 1], packages, deps, root, dirty, requested, name);
    }
  }
}
