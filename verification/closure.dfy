/**
 * scripts/import-closure.ts: every file an entry reaches through imports, and
 * every path any of them names, by a worklist over a graph that may have cycles.
 */
module Closure {
  import opened Lists
  import opened Orders

  /** One string literal of a file that may name a path: where it points, and the source or other file found there. */
  datatype Ref = Ref(base: string, resolved: Option<string>)

  /** The head as it is read: each file that parses, with its references in order. */
  datatype Repo = Repo(files: map<string, seq<Ref>>)

  predicate EndsWith(s: string, end: string) {
    |s| >= |end| && s[|s| - |end|..] == end
  }

  /** `.js`, `.ts`, their `c` and `m` forms, and each with an `x`. */
  predicate IsSource(file: string) {
    || EndsWith(file, ".js") || EndsWith(file, ".ts") || EndsWith(file, ".jsx") || EndsWith(file, ".tsx")
    || EndsWith(file, ".cjs") || EndsWith(file, ".cts") || EndsWith(file, ".cjsx") || EndsWith(file, ".ctsx")
    || EndsWith(file, ".mjs") || EndsWith(file, ".mts") || EndsWith(file, ".mjsx") || EndsWith(file, ".mtsx")
  }

  predicate IsImport(ref: Ref) {
    ref.resolved.Some? && IsSource(ref.resolved.value)
  }

  function ImportsOf(refs: seq<Ref>): seq<string> {
    if refs == [] then []
    else (if IsImport(refs[0]) then [refs[0].resolved.value] else []) + ImportsOf(refs[1..])
  }

  function NamesOf(refs: seq<Ref>): seq<string> {
    if refs == [] then []
    else (if IsImport(refs[0]) then [] else [refs[0].base]) + NamesOf(refs[1..])
  }

  // ------------------------------------------------------------------ what is reached

  ghost predicate Imports(repo: Repo, a: string, b: string) {
    a in repo.files && b in ImportsOf(repo.files[a])
  }

  /** A chain of imports between source files. */
  ghost predicate Chain(repo: Repo, path: seq<string>) {
    && path != [] && (forall i :: 0 <= i < |path| ==> IsSource(path[i]))
    && forall i :: 0 <= i < |path| - 1 ==> Imports(repo, path[i], path[i + 1])
  }

  ghost predicate Reaches(repo: Repo, entry: string, file: string) {
    exists path :: Chain(repo, path) && path[0] == entry && path[|path| - 1] == file
  }

  ghost predicate Names(repo: Repo, entry: string, name: string) {
    exists file :: Reaches(repo, entry, file) && file in repo.files && name in NamesOf(repo.files[file])
  }

  /** What `dependenciesOf` is to return. */
  ghost predicate DependsOn(repo: Repo, entry: string, path: string) {
    (Reaches(repo, entry, path) && path != entry) || Names(repo, entry, path)
  }

  /** Every file reached reads: otherwise the worklist throws. */
  ghost predicate AllRead(repo: Repo, entry: string) {
    forall file :: Reaches(repo, entry, file) ==> file in repo.files
  }

  lemma {:induction false} ReachesOn(repo: Repo, entry: string, a: string, b: string)
    requires Reaches(repo, entry, a) && Imports(repo, a, b) && IsSource(b)
    ensures Reaches(repo, entry, b)
  {
    var path :| Chain(repo, path) && path[0] == entry && path[|path| - 1] == a;
    var more := path + [b];
    forall i | 0 <= i < |more| - 1 ensures Imports(repo, more[i], more[i + 1]) {
      if i < |path| - 1 {
        assert more[i] == path[i] && more[i + 1] == path[i + 1];
      } else {
        assert more[i] == a && more[i + 1] == b;
      }
    }
    assert Chain(repo, more) && more[0] == entry && more[|more| - 1] == b;
  }

  lemma {:induction false} ReachesSelf(repo: Repo, entry: string)
    requires IsSource(entry)
    ensures Reaches(repo, entry, entry)
  {
    assert Chain(repo, [entry]);
    assert [entry][0] == entry && [entry][|[entry]| - 1] == entry;
  }

  /** A set with the entry that imports never leave holds everything reached. */
  lemma {:induction false} ClosedHoldsAll(repo: Repo, entry: string, seen: seq<string>, path: seq<string>)
    requires Chain(repo, path) && path[0] == entry && (IsSource(entry) ==> entry in seen)
    requires forall a, b :: a in seen && Imports(repo, a, b) && IsSource(b) ==> b in seen
    ensures path[|path| - 1] in seen
    decreases |path|
  {
    if |path| > 1 {
      var before := path[..|path| - 1];
      assert Chain(repo, before);
      ClosedHoldsAll(repo, entry, seen, before);
      assert Imports(repo, path[|path| - 2], path[|path| - 1]);
    }
  }

  /** Adding a file to `seen` leaves fewer to see. */
  lemma {:induction false} FewerLeft(files: map<string, seq<Ref>>, seen: seq<string>, file: string)
    requires file in files && file !in seen
    ensures |Unseen(files, seen + [file])| < |Unseen(files, seen)|
  {
    assert Unseen(files, seen + [file]) == Unseen(files, seen) - {file};
  }

  function Unseen(files: map<string, seq<Ref>>, seen: seq<string>): set<string> {
    set f | f in files && f !in seen
  }

  // ------------------------------------------------------------------ the worklist

  lemma {:induction false} SiftOne(refs: seq<Ref>, i: nat)
    requires i < |refs|
    ensures ImportsOf(refs[i..]) == (if IsImport(refs[i]) then [refs[i].resolved.value] else []) + ImportsOf(refs[i + 1..])
    ensures NamesOf(refs[i..]) == (if IsImport(refs[i]) then [] else [refs[i].base]) + NamesOf(refs[i + 1..])
  {
    assert refs[i..][1..] == refs[i + 1..] && refs[i..][0] == refs[i];
  }

  method Sift(refs: seq<Ref>) returns (imports: seq<string>, names: seq<string>)
    ensures imports == ImportsOf(refs) && names == NamesOf(refs)
  {
    imports, names := [], [];
    assert refs[0..] == refs;
    for i := 0 to |refs|
      invariant imports + ImportsOf(refs[i..]) == ImportsOf(refs)
      invariant names + NamesOf(refs[i..]) == NamesOf(refs)
    {
      SiftOne(refs, i);
      if IsImport(refs[i]) {
        imports := imports + [refs[i].resolved.value];
      } else {
        names := names + [refs[i].base];
      }
    }
    assert refs[|refs|..] == [];
  }

  /** `parsed` keeps what each file read says, across entries. */
  class Reader {
    const repo: Repo
    var parsed: map<string, (seq<string>, seq<string>)>

    ghost predicate Valid()
      reads this
    {
      forall f :: f in parsed ==> f in repo.files && parsed[f] == (ImportsOf(repo.files[f]), NamesOf(repo.files[f]))
    }

    constructor (repo: Repo)
      ensures Valid() && this.repo == repo
    {
      this.repo, parsed := repo, map[];
    }

    /** What one file imports and names; none when it does not read. */
    method Direct(file: string) returns (read: Option<(seq<string>, seq<string>)>)
      requires Valid()
      modifies this`parsed
      ensures Valid()
      ensures read == if file in repo.files then Some((ImportsOf(repo.files[file]), NamesOf(repo.files[file]))) else None
    {
      if file in parsed {
        return Some(parsed[file]);
      }
      if file !in repo.files {
        return None;
      }
      var imports, names := Sift(repo.files[file]);
      parsed := parsed[file := (imports, names)];
      read := Some((imports, names));
    }

    /**
     * On any graph, cycles and all: exactly the files reached but the entry, and
     * every path any file reached names; none exactly when a file reached does
     * not read.
     */
    method DependenciesOf(entry: string) returns (found: Option<seq<string>>)
      requires Valid()
      modifies this`parsed
      ensures Valid()
      ensures found.Some? <==> AllRead(repo, entry)
      ensures found.Some? ==> Distinct(found.value) && SortedBy(StringLeq, found.value)
                              && forall path :: path in found.value <==> DependsOn(repo, entry, path)
    {
      var seen, named: seq<string> := [], [];
      var queue := [entry];
      if IsSource(entry) {
        ReachesSelf(repo, entry);
      }
      while queue != []
        invariant Valid()
        invariant forall f :: f in seen ==> Reaches(repo, entry, f) && f in repo.files
        invariant forall q :: q in queue && IsSource(q) ==> Reaches(repo, entry, q)
        invariant IsSource(entry) ==> entry in seen || entry in queue
        invariant forall a, b :: a in seen && Imports(repo, a, b) && IsSource(b) ==> b in seen || b in queue
        invariant forall n :: n in named <==> exists f :: f in seen && n in NamesOf(repo.files[f])
        decreases |Unseen(repo.files, seen)|, |queue|
      {
        var file := queue[|queue| - 1];
        ghost var waiting := queue;
        queue := queue[..|queue| - 1];
        assert waiting == queue + [file];
        if file in seen || !IsSource(file) {
          continue;
        }
        var read := Direct(file);
        if read.None? {
          return None;
        }
        FewerLeft(repo.files, seen, file);
        forall b | Imports(repo, file, b) && IsSource(b) ensures Reaches(repo, entry, b) {
          ReachesOn(repo, entry, file, b);
        }
        seen, queue, named := seen + [file], queue + read.value.0, named + read.value.1;
      }
      forall f ensures f in seen <==> Reaches(repo, entry, f) {
        if Reaches(repo, entry, f) {
          var path :| Chain(repo, path) && path[0] == entry && path[|path| - 1] == f;
          ClosedHoldsAll(repo, entry, seen, path);
        }
      }
      var others := Filter(f => f != entry, seen);
      forall f ensures f in others <==> f in seen && f != entry {
        FilterMembers(x => x != entry, seen, f);
      }
      SortedStrings(Unique(others + named));
      found := Some(Sort(StringLeq, Unique(others + named)));
    }
  }
}
