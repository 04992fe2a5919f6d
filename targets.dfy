/**
 * The cargo workspace as the service sees it, the documented-library filter
 * that decides which targets the index lists, and the documentation directory.
 */
module DocTargets {

  import opened Errors
  import opened Paths

  /** `cargo::core::TargetKind`, without the crate types a library carries. */
  datatype TargetKind = Lib | Bin | Test | Bench | ExampleLib | ExampleBin | CustomBuild

  /** The parts of a `cargo::core::Target` the filter and the index use. */
  datatype Target = Target(name: string, kind: TargetKind, documented: bool)

  /** A workspace member and the targets of its manifest, in manifest order. */
  datatype Package = Package(name: string, targets: seq<Target>)

  /** `t.documented() && t.is_lib()`; an example library is not `is_lib`. */
  predicate Listed(t: Target)
  {
    t.documented && t.kind == Lib
  }

  /** The `filter_map` over one manifest's targets. */
  function ListedTargets(targets: seq<Target>): (r: seq<Target>)
    ensures forall t :: t in r <==> t in targets && Listed(t)
    ensures |r| <= |targets|
  {
    if targets == [] then []
    else (if Listed(targets[0]) then [targets[0]] else []) + ListedTargets(targets[1..])
  }

  /**
   * The `flat_map` over the workspace members: a target is listed exactly when
   * it is documented, is a library and belongs to some member.
   */
  function DocumentedLibs(members: seq<Package>): (r: seq<Target>)
    ensures forall t :: t in r ==> Listed(t)
    ensures forall t :: t in r <==> Listed(t) && exists p :: p in members && t in p.targets
  {
    if members == [] then []
    else
      var head := ListedTargets(members[0].targets);
      var rest := DocumentedLibs(members[1..]);
      assert forall p :: p in members <==> p == members[0] || p in members[1..];
      head + rest
  }

  /** Lemma: the filter keeps manifest order, it neither sorts nor reorders. */
  lemma {:induction false} ListedTargetsAppend(a: seq<Target>, b: seq<Target>)
    ensures ListedTargets(a + b) == ListedTargets(a) + ListedTargets(b)
  {
    if a == [] {
      assert a + b == b;
    } else {
      assert (a + b)[0] == a[0];
      assert (a + b)[1..] == a[1..] + b;
      ListedTargetsAppend(a[1..], b);
    }
  }

  /** Lemma: member order then manifest order — the members' lists are concatenated. */
  lemma {:induction false} DocumentedLibsAppend(a: seq<Package>, b: seq<Package>)
    ensures DocumentedLibs(a + b) == DocumentedLibs(a) + DocumentedLibs(b)
  {
    if a == [] {
      assert a + b == b;
    } else {
      assert (a + b)[0] == a[0];
      assert (a + b)[1..] == a[1..] + b;
      DocumentedLibsAppend(a[1..], b);
    }
  }

  /** Lemma: one member contributes exactly its own listed targets, in manifest order. */
  lemma DocumentedLibsSingle(p: Package)
    ensures DocumentedLibs([p]) == ListedTargets(p.targets)
  {
    assert [p][1..] == [];
  }

  const DefaultTargetDir: Path := "./target"

  /**
   * `target_dir.join("doc")`, where the target directory is the configured one
   * or `./target` when none is configured.
   */
  function DocDir(targetDir: Option<Path>): (r: Path)
    ensures targetDir.None? ==> r == "./target/doc"
    ensures targetDir.Some? ==>
      r == targetDir.value + (if NeedsSeparator(targetDir.value) then "/doc" else "doc")
    ensures |r| >= 3 && r[|r| - 3..] == "doc"
  {
    Join(if targetDir.Some? then targetDir.value else DefaultTargetDir, "doc")
  }
}
