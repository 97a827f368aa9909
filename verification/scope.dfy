/**
 * scripts/ci-scope.ts and ci-areas.ts: which named suites a pull request runs,
 * from what each suite reaches or names.
 */
module Scope {
  import opened Lists
  import opened Text
  import opened Closure
  import Runs
  import Shards

  predicate StartsWith(s: string, prefix: string) {
    |s| >= |prefix| && s[..|prefix|] == prefix
  }

  lemma {:induction false} StartsWithMeans(s: string, prefix: string)
    ensures StartsWith(s, prefix) <==> exists rest :: s == prefix + rest
  {
    if StartsWith(s, prefix) {
      assert s == prefix + s[|prefix|..];
    }
  }

  predicate StartsAny(s: string, prefixes: seq<string>) {
    exists i :: 0 <= i < |prefixes| && StartsWith(s, prefixes[i])
  }

  // ------------------------------------------------------------------ areas

  function WithoutDots(s: string): string {
    if s != [] && s[0] == '.' then WithoutDots(s[1..]) else s
  }

  function Slashes(path: string): string {
    if path == [] then [] else [if path[0] == '\\' then '/' else path[0]] + Slashes(path[1..])
  }

  function Relative(path: string): string {
    if |path| >= 2 && path[0] == '.' && path[1] == '/' then path[2..] else path
  }

  function Segments(path: string): (segments: seq<string>)
    ensures segments != []
  {
    Split(Relative(Slashes(path)), '/')
  }

  predicate BadSegment(segment: string) {
    segment == "" || segment == "." || segment == ".."
  }

  predicate AnyBad(segments: seq<string>) {
    exists i :: 0 <= i < |segments| && BadSegment(segments[i])
  }

  /** The area of a path of these segments; none when one of them is no repository path's. */
  function AreaIn(segments: seq<string>): Option<string>
    requires segments != []
  {
    if AnyBad(segments) then None
    else if |segments| == 1 then Some("root")
    else if segments[0] in {"tests", "apps", "packages"} && |segments| > 2 then Some(segments[0] + "-" + segments[1])
    else Some(WithoutDots(segments[0]))
  }

  /** A path's area, from the path alone; none for what is no repository path. */
  function AreaOf(path: string): Option<string> {
    if path == "" then None else AreaIn(Segments(path))
  }

  /** Every leading dot goes, and nothing else. */
  lemma {:induction false} WithoutDotsIs(s: string)
    ensures var left := WithoutDots(s);
            && |left| <= |s| && s[|s| - |left|..] == left && (left != "" ==> left[0] != '.')
            && forall i :: 0 <= i < |s| - |left| ==> s[i] == '.'
  {
    if s != [] && s[0] == '.' {
      WithoutDotsIs(s[1..]);
      var left := WithoutDots(s[1..]);
      assert s[1..][|s| - 1 - |left|..] == s[|s| - |left|..];
      assert forall i :: 1 <= i < |s| - |left| ==> s[i] == s[1..][i - 1];
    }
  }

  /** Every slash turned, and nothing else. */
  lemma {:induction false} SlashesAre(path: string)
    ensures |Slashes(path)| == |path|
    ensures forall i :: 0 <= i < |path| ==> Slashes(path)[i] == if path[i] == '\\' then '/' else path[i]
  {
    if path != [] {
      SlashesAre(path[1..]);
    }
  }

  lemma {:induction false} SlashesTwice(path: string)
    ensures Slashes(Slashes(path)) == Slashes(path) && (Slashes(path) == "" <==> path == "")
  {
    if path != [] {
      SlashesTwice(path[1..]);
      assert Slashes(path)[1..] == Slashes(path[1..]);
    }
  }

  lemma {:induction false} NoSlashToTurn(path: string)
    requires '\\' !in path
    ensures Slashes(path) == path
  {
    if path != [] {
      NoSlashToTurn(path[1..]);
    }
  }

  /** The segments of a repository path: none empty or a dot or two, none with a slash of either kind. */
  predicate RepositoryPath(segments: seq<string>) {
    && segments != []
    && forall s :: s in segments ==> s != "" && s != "." && s != ".." && '/' !in s && '\\' !in s
  }

  lemma {:induction false} JoinHolds(segments: seq<string>, c: char)
    requires segments != [] && c != '/' && forall s :: s in segments ==> c !in s
    ensures c !in JoinWith(segments, '/')
    decreases |segments|
  {
    assert segments[0] in segments;
    if |segments| > 1 {
      JoinHolds(segments[1..], c);
    }
  }

  /** What area a path of these segments has: the root's, two segments' of the three that hold many, or the first's without its dots. */
  function AreaOfSegments(segments: seq<string>): string
    requires segments != []
  {
    if |segments| == 1 then "root"
    else if |segments| > 2 && (segments[0] == "tests" || segments[0] == "apps" || segments[0] == "packages") then segments[0] + "-" + segments[1]
    else WithoutDots(segments[0])
  }

  lemma {:induction false} JoinedStarts(segments: seq<string>)
    requires segments != []
    ensures var path := JoinWith(segments, '/'); |path| >= |segments[0]| && path[..|segments[0]|] == segments[0]
  {
  }

  /** A path whose first segment is neither empty nor a dot does not start `./`. */
  lemma {:induction false} NotRelative(first: string, path: string)
    requires first != "" && first != "." && '/' !in first && |path| >= |first| && path[..|first|] == first
    ensures Relative(path) == path
  {
    assert path[..|first|][0] == path[0];
    if |first| == 1 {
      assert first == [first[0]];
    } else {
      assert path[..|first|][1] == path[1] && first[1] in first;
    }
  }

  lemma {:induction false} SegmentsOfJoined(segments: seq<string>)
    requires RepositoryPath(segments)
    ensures Segments(JoinWith(segments, '/')) == segments && Segments("./" + JoinWith(segments, '/')) == segments
  {
    var path := JoinWith(segments, '/');
    assert segments[0] in segments;
    assert Slashes(path) == path && Slashes("./" + path) == "./" + path by {
      JoinHolds(segments, '\\');
      NoSlashToTurn(path);
      NoSlashToTurn("./" + path);
    }
    assert Relative(path) == path by {
      JoinedStarts(segments);
      NotRelative(segments[0], path);
    }
    assert Relative("./" + path) == path;
    JoinedSplits(segments, '/');
  }

  lemma {:induction false} AreaFrom(path: string, segments: seq<string>)
    requires path != "" && Segments(path) == segments && RepositoryPath(segments)
    ensures AreaOf(path) == Some(AreaOfSegments(segments))
  {
    assert forall i :: 0 <= i < |segments| ==> segments[i] in segments;
  }

  /** Every repository path has the area its segments say, said from here or not; and a path that has one is of such segments. */
  lemma {:induction false} AreaIsItsSegments(segments: seq<string>)
    requires RepositoryPath(segments)
    ensures AreaOf(JoinWith(segments, '/')) == Some(AreaOfSegments(segments))
    ensures AreaOf("./" + JoinWith(segments, '/')) == Some(AreaOfSegments(segments))
  {
    SegmentsOfJoined(segments);
    JoinedStarts(segments);
    assert segments[0] in segments;
    AreaFrom(JoinWith(segments, '/'), segments);
    AreaFrom("./" + JoinWith(segments, '/'), segments);
  }

  lemma {:induction false} TurnedHoldNone(path: string)
    ensures '\\' !in Slashes(path)
  {
    if path != [] {
      TurnedHoldNone(path[1..]);
    }
  }

  lemma {:induction false} FieldsHold(fields: seq<string>, c: char)
    requires fields != [] && c !in JoinWith(fields, '/')
    ensures forall f :: f in fields ==> c !in f
    decreases |fields|
  {
    if |fields| > 1 {
      FieldsHold(fields[1..], c);
      assert JoinWith(fields, '/') == fields[0] + ['/'] + JoinWith(fields[1..], '/');
    }
  }

  /** Its slashes turned, the path is these segments put together, behind `./` or not. */
  ghost predicate IsPathOf(path: string, segments: seq<string>) {
    RepositoryPath(segments) && (Slashes(path) == JoinWith(segments, '/') || Slashes(path) == "./" + JoinWith(segments, '/'))
  }

  lemma {:induction false} AreaHasSegments(path: string)
    requires AreaOf(path).Some?
    ensures IsPathOf(path, Segments(path))
  {
    var relative, segments := Relative(Slashes(path)), Segments(path);
    SplitJoins(relative, '/');
    assert '\\' !in relative by {
      TurnedHoldNone(path);
    }
    FieldsHold(segments, '\\');
    forall s | s in segments ensures !BadSegment(s) && '/' !in s {
      var i :| 0 <= i < |segments| && segments[i] == s;
    }
  }

  lemma {:induction false} SegmentsHaveArea(path: string, segments: seq<string>)
    requires IsPathOf(path, segments)
    ensures AreaOf(path).Some?
  {
    AreaIsItsSegments(segments);
    AreaTurned(path);
  }

  lemma {:induction false} AreaTurned(path: string)
    ensures AreaOf(Slashes(path)) == AreaOf(path)
  {
    SlashesTwice(path);
    assert Segments(Slashes(path)) == Segments(path);
  }

  /** A path has an area exactly when, its slashes turned, it is such segments put together, behind `./` or not. */
  lemma {:induction false} HasAreaExactlyWhen(path: string)
    ensures AreaOf(path).Some? <==> exists segments :: IsPathOf(path, segments)
  {
    if AreaOf(path).Some? {
      AreaHasSegments(path);
    } else if segments :| IsPathOf(path, segments) {
      SegmentsHaveArea(path, segments);
      assert false;
    }
  }

  // ------------------------------------------------------------------ what a path reaches

  datatype Kind = File | Directory

  function WithoutSlashes(s: string): string {
    if s != [] && s[|s| - 1] == '/' then WithoutSlashes(s[..|s| - 1]) else s
  }

  /** Every slash at the end goes, and nothing else. */
  lemma {:induction false} WithoutSlashesIs(s: string)
    ensures var left := WithoutSlashes(s);
            && |left| <= |s| && s[..|left|] == left && (left != "" ==> left[|left| - 1] != '/')
            && forall i :: |left| <= i < |s| ==> s[i] == '/'
  {
    if s != [] && s[|s| - 1] == '/' {
      WithoutSlashesIs(s[..|s| - 1]);
    }
  }

  /** A named path covers itself; a directory, or a path the head no longer has, all under it. */
  predicate Covers(kinds: map<string, Kind>, dep: string, path: string) {
    || (dep == path && (dep !in kinds || kinds[dep] == File))
    || ((dep !in kinds || kinds[dep] == Directory) && StartsWith(path, WithoutSlashes(dep) + "/"))
  }

  /** The suite itself, a file it reaches or a path it names covers `path`. */
  ghost predicate SuiteReaches(repo: Repo, kinds: map<string, Kind>, suite: string, path: string) {
    exists dep :: (dep == suite || DependsOn(repo, suite, dep)) && Covers(kinds, dep, path)
  }

  datatype Dependents = Dependents(files: map<string, set<string>>, directories: seq<(string, string)>)

  const NO_DEPENDENTS := Dependents(map[], [])

  function AreasUnder(directories: seq<(string, string)>, path: string): set<string> {
    if directories == [] then {}
    else (if StartsWith(path, directories[0].0) then {directories[0].1} else {}) + AreasUnder(directories[1..], path)
  }

  /** The areas of the suites that depend on a path. */
  function AreasAt(d: Dependents, path: string): set<string> {
    (if path in d.files then d.files[path] else {}) + AreasUnder(d.directories, path)
  }

  function Add(kinds: map<string, Kind>, d: Dependents, dep: string, area: string): Dependents {
    var gone := dep !in kinds;
    var directory := gone || kinds[dep] == Directory;
    var directories := if directory then d.directories + [(WithoutSlashes(dep) + "/", area)] else d.directories;
    var files := if gone || !directory then d.files[dep := (if dep in d.files then d.files[dep] else {}) + {area}] else d.files;
    Dependents(files, directories)
  }

  lemma {:induction false} AreasUnderMore(directories: seq<(string, string)>, more: (string, string), path: string)
    ensures AreasUnder(directories + [more], path)
         == AreasUnder(directories, path) + if StartsWith(path, more.0) then {more.1} else {}
  {
    if directories != [] {
      AreasUnderMore(directories[1..], more, path);
      assert (directories + [more])[1..] == directories[1..] + [more];
    } else {
      assert directories + [more] == [more] && [more][1..] == [];
    }
  }

  lemma {:induction false} AddCovers(kinds: map<string, Kind>, d: Dependents, dep: string, area: string, path: string)
    ensures AreasAt(Add(kinds, d, dep, area), path) == AreasAt(d, path) + if Covers(kinds, dep, path) then {area} else {}
  {
    AreasUnderMore(d.directories, (WithoutSlashes(dep) + "/", area), path);
  }

  ghost predicate AddedSuite(repo: Repo, kinds: map<string, Kind>, before: Dependents, after: Dependents, suite: string) {
    forall path, area :: area in AreasAt(after, path) <==>
      area in AreasAt(before, path) || (AreaOf(suite) == Some(area) && SuiteReaches(repo, kinds, suite, path))
  }

  /** A suite of this area reaches the path. */
  ghost predicate ReachedIn(repo: Repo, kinds: map<string, Kind>, suites: seq<string>, path: string, area: string) {
    exists s :: s in suites && AreaOf(s) == Some(area) && SuiteReaches(repo, kinds, s, path)
  }

  /** The areas at each path are exactly those of the suites that reach it. */
  ghost predicate Built(repo: Repo, kinds: map<string, Kind>, suites: seq<string>, d: Dependents) {
    forall path, area :: area in AreasAt(d, path) <==> ReachedIn(repo, kinds, suites, path, area)
  }

  lemma {:induction false} ReachedInMore(repo: Repo, kinds: map<string, Kind>, suites: seq<string>, suite: string, path: string, area: string)
    ensures ReachedIn(repo, kinds, suites + [suite], path, area) <==>
              ReachedIn(repo, kinds, suites, path, area) || (AreaOf(suite) == Some(area) && SuiteReaches(repo, kinds, suite, path))
  {
    var more := suites + [suite];
    assert suite in more && forall s :: s in more <==> s in suites || s == suite;
    if ReachedIn(repo, kinds, suites, path, area) {
      var s :| s in suites && AreaOf(s) == Some(area) && SuiteReaches(repo, kinds, s, path);
      assert s in more;
    }
  }

  method AddDeps(kinds: map<string, Kind>, before: Dependents, deps: seq<string>, area: string) returns (d: Dependents)
    ensures forall path, a :: a in AreasAt(d, path) <==>
              a in AreasAt(before, path) || (a == area && exists k :: 0 <= k < |deps| && Covers(kinds, deps[k], path))
  {
    d := before;
    for j := 0 to |deps|
      invariant forall path, a :: a in AreasAt(d, path) <==>
                  a in AreasAt(before, path) || (a == area && exists k :: 0 <= k < j && Covers(kinds, deps[k], path))
    {
      forall path ensures AreasAt(Add(kinds, d, deps[j], area), path)
                       == AreasAt(d, path) + if Covers(kinds, deps[j], path) then {area} else {} {
        AddCovers(kinds, d, deps[j], area, path);
      }
      d := Add(kinds, d, deps[j], area);
    }
  }

  method AddSuite(reader: Reader, kinds: map<string, Kind>, before: Dependents, suite: string) returns (d: Option<Dependents>)
    requires reader.Valid()
    modifies reader`parsed
    ensures reader.Valid()
    ensures d.Some? <==> AreaOf(suite).Some? && AllRead(reader.repo, suite)
    ensures d.Some? ==> AddedSuite(reader.repo, kinds, before, d.value, suite)
  {
    if AreaOf(suite).None? {
      return None;
    }
    var found := reader.DependenciesOf(suite);
    if found.None? {
      return None;
    }
    var deps := [suite] + found.value;
    var added := AddDeps(kinds, before, deps, AreaOf(suite).value);
    forall path ensures (exists k :: 0 <= k < |deps| && Covers(kinds, deps[k], path)) <==> SuiteReaches(reader.repo, kinds, suite, path) {
      if SuiteReaches(reader.repo, kinds, suite, path) {
        var dep :| (dep == suite || DependsOn(reader.repo, suite, dep)) && Covers(kinds, dep, path);
        assert dep in deps;
      }
    }
    d := Some(added);
  }

  /** From every suite's closure; none when a suite has no area, or a file one reaches does not read. */
  method DependentsOf(reader: Reader, kinds: map<string, Kind>, suites: seq<string>) returns (d: Option<Dependents>)
    requires reader.Valid()
    modifies reader`parsed
    ensures reader.Valid()
    ensures d.Some? <==> forall s :: s in suites ==> AreaOf(s).Some? && AllRead(reader.repo, s)
    ensures d.Some? ==> Built(reader.repo, kinds, suites, d.value)
  {
    var built := NO_DEPENDENTS;
    assert forall path :: AreasAt(built, path) == {};
    for i := 0 to |suites|
      invariant reader.Valid()
      invariant forall s :: s in suites[..i] ==> AreaOf(s).Some? && AllRead(reader.repo, s)
      invariant Built(reader.repo, kinds, suites[..i], built)
    {
      var added := AddSuite(reader, kinds, built, suites[i]);
      assert suites[i] in suites;
      if added.None? {
        return None;
      }
      BuiltMore(reader.repo, kinds, suites[..i], built, added.value, suites[i]);
      assert suites[..i + 1] == suites[..i] + [suites[i]];
      built := added.value;
    }
    assert suites[..|suites|] == suites;
    d := Some(built);
  }

  lemma {:induction false} BuiltMore(repo: Repo, kinds: map<string, Kind>, suites: seq<string>, before: Dependents, after: Dependents, suite: string)
    requires Built(repo, kinds, suites, before) && AddedSuite(repo, kinds, before, after, suite)
    ensures Built(repo, kinds, suites + [suite], after)
  {
    forall path, area ensures area in AreasAt(after, path) <==> ReachedIn(repo, kinds, suites + [suite], path, area) {
      ReachedInMore(repo, kinds, suites, suite, path, area);
    }
  }

  // ------------------------------------------------------------------ the scope

  datatype ScopeMap = ScopeMap(scopable: seq<string>, runsEverything: seq<string>, visualDrift: seq<string>)

  datatype Scope = Everything | Narrow(areas: set<string>)

  const PULL_REQUEST := "pull_request"

  predicate MayNarrow(map_: ScopeMap, path: string) {
    !StartsAny(path, map_.runsEverything) && StartsAny(path, map_.scopable)
  }

  predicate Narrows(event: string, changed: seq<string>, map_: ScopeMap) {
    event == PULL_REQUEST && changed != [] && forall i :: 0 <= i < |changed| ==> MayNarrow(map_, changed[i])
  }

  function AllAreas(d: Dependents, changed: seq<string>): set<string> {
    if changed == [] then {} else AreasAt(d, changed[0]) + AllAreas(d, changed[1..])
  }

  function ScopeFor(event: string, changed: seq<string>, map_: ScopeMap, d: Dependents): Scope {
    if Narrows(event, changed, map_) then Narrow(AllAreas(d, changed)) else Everything
  }

  method ScopeOf(event: string, changed: seq<string>, map_: ScopeMap, d: Dependents) returns (scope: Scope)
    ensures scope == ScopeFor(event, changed, map_, d)
  {
    if event != PULL_REQUEST || changed == [] {
      return Everything;
    }
    var areas: set<string> := {};
    for i := 0 to |changed|
      invariant forall j :: 0 <= j < i ==> MayNarrow(map_, changed[j])
      invariant areas + AllAreas(d, changed[i..]) == AllAreas(d, changed)
    {
      assert changed[i..][1..] == changed[i + 1..];
      if StartsAny(changed[i], map_.runsEverything) || !StartsAny(changed[i], map_.scopable) {
        return Everything;
      }
      areas := areas + AreasAt(d, changed[i]);
    }
    assert changed[|changed|..] == [];
    scope := Narrow(areas);
  }

  predicate InScope(scope: Scope, suite: string) {
    scope.Everything? || (AreaOf(suite).Some? && AreaOf(suite).value in scope.areas)
  }

  /** The suites selected, as the manifest orders them. */
  function SuitesInScope(scope: Scope, named: seq<string>): seq<string> {
    Filter((s: string) => InScope(scope, s), named)
  }

  datatype Check = DatabaseConformance | IsolationTests | VisualDrift

  function CheckRuns(check: Check, scope: Scope, changed: seq<string>, map_: ScopeMap, named: seq<string>): bool {
    if scope.Everything? then true
    else if check == VisualDrift then exists i :: 0 <= i < |changed| && StartsAny(changed[i], map_.visualDrift)
    else SuitesInScope(scope, named) != []
  }

  lemma {:induction false} AllAreasAt(d: Dependents, changed: seq<string>, area: string)
    ensures area in AllAreas(d, changed) <==> exists i :: 0 <= i < |changed| && area in AreasAt(d, changed[i])
  {
    if changed != [] {
      AllAreasAt(d, changed[1..], area);
      if exists i :: 0 <= i < |changed| && area in AreasAt(d, changed[i]) {
        var i :| 0 <= i < |changed| && area in AreasAt(d, changed[i]);
        assert i > 0 ==> changed[1..][i - 1] == changed[i];
      }
    }
  }

  /** Some changed path reaches a suite of this suite's area. */
  ghost predicate AreaReached(repo: Repo, kinds: map<string, Kind>, named: seq<string>, changed: seq<string>, suite: string) {
    exists i, s :: 0 <= i < |changed| && s in named && AreaOf(s) == AreaOf(suite) && SuiteReaches(repo, kinds, s, changed[i])
  }

  /** A change that narrows selects exactly the suites in an area some changed path reaches; any other, all. */
  lemma {:induction false} SelectsExactly(repo: Repo, kinds: map<string, Kind>, named: seq<string>, d: Dependents,
                                          event: string, changed: seq<string>, map_: ScopeMap, suite: string)
    requires Built(repo, kinds, named, d) && suite in named && AreaOf(suite).Some?
    ensures suite in SuitesInScope(ScopeFor(event, changed, map_, d), named) <==>
              !Narrows(event, changed, map_) || AreaReached(repo, kinds, named, changed, suite)
  {
    var scope := ScopeFor(event, changed, map_, d);
    FilterMembers((s: string) => InScope(scope, s), named, suite);
    if scope.Narrow? {
      var area := AreaOf(suite).value;
      AllAreasAt(d, changed, area);
      if area in scope.areas {
        var i :| 0 <= i < |changed| && area in AreasAt(d, changed[i]);
        assert ReachedIn(repo, kinds, named, changed[i], area);
        var s :| s in named && AreaOf(s) == Some(area) && SuiteReaches(repo, kinds, s, changed[i]);
        assert AreaReached(repo, kinds, named, changed, suite);
      }
      if AreaReached(repo, kinds, named, changed, suite) {
        var i, s :| 0 <= i < |changed| && s in named && AreaOf(s) == AreaOf(suite) && SuiteReaches(repo, kinds, s, changed[i]);
        assert ReachedIn(repo, kinds, named, changed[i], area);
      }
    }
  }

  /** A suite whose own file changed runs, whatever else did. */
  lemma {:induction false} ChangedSuiteRuns(repo: Repo, kinds: map<string, Kind>, named: seq<string>, d: Dependents,
                                            event: string, changed: seq<string>, map_: ScopeMap, suite: string)
    requires Built(repo, kinds, named, d) && suite in named && AreaOf(suite).Some?
    requires suite in changed && (suite !in kinds || kinds[suite] == File)
    ensures suite in SuitesInScope(ScopeFor(event, changed, map_, d), named)
  {
    SelectsExactly(repo, kinds, named, d, event, changed, map_, suite);
    var i :| 0 <= i < |changed| && changed[i] == suite;
    assert Covers(kinds, suite, suite);
    assert SuiteReaches(repo, kinds, suite, changed[i]);
  }

  /** More changed paths, in whatever order, never drop a suite or a check. */
  lemma {:induction false} MorePathsDropNothing(d: Dependents, event: string, changed: seq<string>, more: seq<string>, map_: ScopeMap,
                                                named: seq<string>, suite: string, check: Check)
    requires changed != [] && forall p :: p in changed ==> p in more
    ensures suite in SuitesInScope(ScopeFor(event, changed, map_, d), named) ==>
              suite in SuitesInScope(ScopeFor(event, more, map_, d), named)
    ensures CheckRuns(check, ScopeFor(event, changed, map_, d), changed, map_, named) ==>
              CheckRuns(check, ScopeFor(event, more, map_, d), more, map_, named)
  {
    var small, large := ScopeFor(event, changed, map_, d), ScopeFor(event, more, map_, d);
    ScopeGrows(d, event, changed, more, map_);
    forall s ensures s in SuitesInScope(small, named) ==> s in SuitesInScope(large, named) {
      FilterMembers((x: string) => InScope(small, x), named, s);
      FilterMembers((x: string) => InScope(large, x), named, s);
    }
    if large.Narrow? {
      if check == VisualDrift && CheckRuns(check, small, changed, map_, named) {
        var i :| 0 <= i < |changed| && StartsAny(changed[i], map_.visualDrift);
        assert changed[i] in more;
      }
      if SuitesInScope(small, named) != [] {
        assert SuitesInScope(small, named)[0] in SuitesInScope(large, named);
      }
    }
  }

  lemma {:induction false} ScopeGrows(d: Dependents, event: string, changed: seq<string>, more: seq<string>, map_: ScopeMap)
    requires changed != [] && forall p :: p in changed ==> p in more
    ensures var small, large := ScopeFor(event, changed, map_, d), ScopeFor(event, more, map_, d);
            large.Narrow? ==> small.Narrow? && small.areas <= large.areas
  {
    if Narrows(event, more, map_) {
      forall i | 0 <= i < |changed| ensures MayNarrow(map_, changed[i]) {
        assert changed[i] in more;
      }
      forall area | area in AllAreas(d, changed) ensures area in AllAreas(d, more) {
        AllAreasAt(d, changed, area);
        AllAreasAt(d, more, area);
        var i :| 0 <= i < |changed| && area in AreasAt(d, changed[i]);
        assert changed[i] in more;
      }
    }
  }

  /** Adding the first path is no growth: with none read, everything runs. */
  lemma {:induction false} NoPathRunsEverything(event: string, map_: ScopeMap, d: Dependents)
    ensures ScopeFor(event, [], map_, d) == Everything
  {
  }

  /** Each case of an in-scope suite runs once across the shards, and no other suite's case runs. */
  lemma {:induction false} ScopedCasesRunOnce(scope: Scope, named: seq<string>, parts: Runs.Parts, seconds: Shards.Timings, count: nat,
                                              suite: string, c: nat)
    requires Distinct(named) && (forall s :: s in named ==> '#' !in s) && count > 0
    requires Runs.PlanItems(SuitesInScope(scope, named), parts).Some?
    ensures var items := Runs.PlanItems(SuitesInScope(scope, named), parts).value;
            Runs.TimesRun(Shards.Assigned(seconds, items, count), suite, c)
            == if suite in named && InScope(scope, suite) then 1.0 else 0.0
  {
    var scoped := SuitesInScope(scope, named);
    FilterDistinct((s: string) => InScope(scope, s), named);
    forall s ensures s in scoped <==> s in named && InScope(scope, s) {
      FilterMembers((x: string) => InScope(scope, x), named, s);
    }
    var items := Runs.PlanItems(scoped, parts).value;
    Shards.AssignedIsPartition(seconds, items, count);
    SumByPermutes(Runs.Runs(suite, c), Flatten(Shards.Assigned(seconds, items, count)), items);
    Runs.PlanRunsOnce(scoped, parts, suite, c);
  }
}
