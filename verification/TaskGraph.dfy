/** Validation of a task's dependency graph (`ValidateGraph`): structural checks in the
    order the code makes them, then Kahn's algorithm over mutable in-degrees. */
module TaskGraph {
  import opened Sorting
  import opened Text
  import opened Options

  const MAX_GRAPH_NODES := 256
  const MAX_GRAPH_EDGES := 4096

  datatype TaskRevision = TaskRevision(projectID: string, taskID: string, revision: int, graphRevision: int)
  datatype Member = Member(workPackageID: string, definitionRecordID: string, definitionDigest: string)
  datatype GraphRevision = GraphRevision(
    projectID: string, taskID: string, taskRevision: int, revision: int,
    members: seq<Member>, dependencySetDigest: string, barriers: seq<string>)
  datatype WorkPackageRecord = WorkPackageRecord(
    recordID: string, projectID: string, taskID: string, taskRevision: int, graphRevision: int,
    dependencies: seq<string>)
  datatype Definition = Definition(record: WorkPackageRecord, recordDigest: string)
  datatype Graph = Graph(task: TaskRevision, revision: GraphRevision, definitions: map<string, Definition>)

  datatype GraphError =
    | IdentityConflict
    | MemberCount
    | MissingDefinition(id: string)
    | ForeignDefinition(id: string)
    | DefinitionConflict(id: string)
    | DuplicateMember(id: string)
    | TooManyEdges
    | SelfDependency(id: string)
    | DuplicateEdge(id: string, dependency: string)
    | MissingDependency(id: string, dependency: string)
    | DigestConflict
    | DependencyCycle

  // ---------------------------------------------------------------- declarative side

  function MemberID(g: Graph, i: int): string
    requires 0 <= i < |g.revision.members|
  {
    g.revision.members[i].workPackageID
  }

  function IDsBefore(g: Graph, n: nat): set<string>
    requires n <= |g.revision.members|
  {
    set i | 0 <= i < n :: MemberID(g, i)
  }

  function MemberIDs(g: Graph): set<string> {
    IDsBefore(g, |g.revision.members|)
  }

  lemma IDsStep(g: Graph, i: nat)
    requires i < |g.revision.members|
    ensures IDsBefore(g, i + 1) == IDsBefore(g, i) + {MemberID(g, i)}
  {
  }

  function DependenciesOf(definitions: map<string, Definition>, id: string): seq<string> {
    if id in definitions then definitions[id].record.dependencies else []
  }

  function Deps(g: Graph, id: string): seq<string> { DependenciesOf(g.definitions, id) }

  predicate IdentityOk(g: Graph) {
    && g.task.projectID != "" && g.task.projectID == g.revision.projectID
    && g.task.taskID == g.revision.taskID && g.task.revision == g.revision.taskRevision
    && g.task.graphRevision == g.revision.revision
  }

  predicate SizeOk(g: Graph) {
    0 < |g.revision.members| <= MAX_GRAPH_NODES && |g.definitions| == |g.revision.members|
  }

  /** What is wrong with member `i`, given the members before it. */
  function MemberDefect(g: Graph, i: int): Option<GraphError>
    requires 0 <= i < |g.revision.members|
  {
    var m := g.revision.members[i];
    var id := m.workPackageID;
    if id !in g.definitions then Some(MissingDefinition(id)) else
    var d := g.definitions[id];
    if d.record.projectID != g.task.projectID || d.record.taskID != g.task.taskID
       || d.record.taskRevision != g.task.revision || d.record.graphRevision != g.revision.revision
    then Some(ForeignDefinition(id))
    else if d.record.recordID != m.definitionRecordID || d.recordDigest != m.definitionDigest
    then Some(DefinitionConflict(id))
    else if id in IDsBefore(g, i) then Some(DuplicateMember(id))
    else None
  }

  predicate MembersOk(g: Graph) {
    forall i | 0 <= i < |g.revision.members| :: MemberDefect(g, i).None?
  }

  function EdgesBefore(g: Graph, i: nat): nat
    requires i <= |g.revision.members|
  {
    if i == 0 then 0 else EdgesBefore(g, i - 1) + |Deps(g, MemberID(g, i - 1))|
  }

  /** What is wrong with the `k`th dependency of member `i`, given the edges before it. */
  function EdgeDefect(g: Graph, i: int, k: int): Option<GraphError>
    requires 0 <= i < |g.revision.members| && 0 <= k < |Deps(g, MemberID(g, i))|
  {
    var id := MemberID(g, i);
    var deps := Deps(g, id);
    if EdgesBefore(g, i) + k + 1 > MAX_GRAPH_EDGES then Some(TooManyEdges)
    else if deps[k] == id then Some(SelfDependency(id))
    else if deps[k] in deps[..k] then Some(DuplicateEdge(id, deps[k]))
    else if deps[k] !in MemberIDs(g) then Some(MissingDependency(id, deps[k]))
    else None
  }

  predicate EdgesOkUpTo(g: Graph, i: int, k: int)
    requires 0 <= i <= |g.revision.members|
    requires i < |g.revision.members| ==> 0 <= k <= |Deps(g, MemberID(g, i))|
    requires i == |g.revision.members| ==> k == 0
  {
    && (forall i', k' | 0 <= i' < i && 0 <= k' < |Deps(g, MemberID(g, i'))| :: EdgeDefect(g, i', k').None?)
    && (forall k' | 0 <= k' < k :: EdgeDefect(g, i, k').None?)
  }

  predicate EdgesOk(g: Graph) {
    EdgesOkUpTo(g, |g.revision.members|, 0)
  }

  /** `order` lists every member once, each after everything it depends on. */
  ghost predicate IsTopologicalOrder(g: Graph, order: seq<string>) {
    && Distinct(order) && (forall x :: x in order <==> x in MemberIDs(g))
    && DependenciesFirst(g, order)
  }

  ghost predicate DependenciesFirst(g: Graph, order: seq<string>) {
    forall i, d | 0 <= i < |order| && d in Deps(g, order[i]) :: d in order[..i]
  }

  ghost predicate HasTopologicalOrder(g: Graph) {
    exists order: seq<string> :: IsTopologicalOrder(g, order)
  }

  /** Each element of `c` depends on the next one, and the last on the first. */
  ghost predicate IsCycle(g: Graph, c: seq<string>) {
    && c != []
    && (forall i | 0 <= i < |c| :: c[i] in MemberIDs(g))
    && IsChain(g, c)
    && c[0] in Deps(g, c[|c| - 1])
  }

  ghost predicate IsChain(g: Graph, w: seq<string>) {
    forall i, j | 0 <= i < |w| && j == i + 1 < |w| :: w[j] in Deps(g, w[i])
  }

  ghost predicate DependsInto(g: Graph, x: string, targets: set<string>) {
    exists d :: d in Deps(g, x) && d in targets
  }

  lemma {:induction false} CycleRefutesOrder(g: Graph, c: seq<string>, order: seq<string>, k: nat)
    requires IsCycle(g, c) && IsTopologicalOrder(g, order) && k < |c|
    ensures false
    decreases |order|, Position(order, c[k]), 0
  {
    var next := if k + 1 < |c| then k + 1 else 0;
    assert c[next] in Deps(g, c[k]);
    var i := Position(order, c[k]);
    assert c[next] in order[..i];
    PositionBefore(order, i, c[next]);
    CycleRefutesOrder(g, c, order, next);
  }

  ghost function Position(order: seq<string>, x: string): (i: nat)
    ensures x in order ==> i < |order| && order[i] == x
  {
    if x in order then var i: nat :| i < |order| && order[i] == x; i else 0
  }

  lemma PositionBefore(order: seq<string>, i: nat, x: string)
    requires Distinct(order) && i <= |order| && x in order[..i]
    ensures Position(order, x) < i
  {
    var j :| 0 <= j < i && order[..i][j] == x;
    assert order[j] == x;
  }

  /** In a finite set where everything depends on something in the set, there is a cycle. */
  lemma {:induction false} NoEscapeHasCycle(g: Graph, stuck: set<string>) returns (c: seq<string>)
    requires stuck != {} && stuck <= MemberIDs(g)
    requires forall x {:trigger DependsInto(g, x, stuck)} | x in stuck :: DependsInto(g, x, stuck)
    ensures IsCycle(g, c) && (forall x | x in c :: x in stuck)
  {
    var start :| start in stuck;
    var w := Walk(g, stuck, start, |stuck|);
    if Distinct(w) {
      DistinctCount(w);
      SubsetSize((set x | x in w), stuck);
      assert false;
    }
    var i, j :| 0 <= i < j < |w| && w[i] == w[j];
    c := w[i..j];
    assert w[j] in Deps(g, w[j - 1]);
  }

  lemma {:induction false} Walk(g: Graph, stuck: set<string>, start: string, n: nat) returns (w: seq<string>)
    requires start in stuck
    requires forall x {:trigger DependsInto(g, x, stuck)} | x in stuck :: DependsInto(g, x, stuck)
    ensures |w| == n + 1 && (forall i | 0 <= i < |w| :: w[i] in stuck) && IsChain(g, w)
  {
    if n == 0 {
      w := [start];
    } else {
      var shorter := Walk(g, stuck, start, n - 1);
      assert DependsInto(g, shorter[n - 1], stuck);
      var d :| d in Deps(g, shorter[n - 1]) && d in stuck;
      w := shorter + [d];
      forall i, j | 0 <= i < |w| && j == i + 1 < |w| ensures w[j] in Deps(g, w[i]) {
        if j < n { assert w[i] == shorter[i] && w[j] == shorter[j]; }
      }
    }
  }

  // ---------------------------------------------------------------- digest

  /** One hashed line: a package and its dependencies in sorted order. */
  function Row(definitions: map<string, Definition>, id: string): seq<string> {
    [id] + SortStrings(DependenciesOf(definitions, id))
  }

  function Rows(definitions: map<string, Definition>, ids: seq<string>): seq<seq<string>> {
    seq(|ids|, i requires 0 <= i < |ids| => Row(definitions, ids[i]))
  }

  function Terminated(fields: seq<string>): string {
    if fields == [] then "" else fields[0] + ([0 as char] + Terminated(fields[1..]))
  }

  function Encode(rows: seq<seq<string>>): string {
    if rows == [] then ""
    else Encode(rows[..|rows| - 1]) + (Terminated(rows[|rows| - 1]) + [0xff as char])
  }

  ghost function SortedKeys<T>(m: map<string, T>): (r: seq<string>)
    ensures forall id :: id in r <==> id in m
  {
    var l := Listing(m.Keys);
    assert forall id :: id in l <==> id in m;
    SameElements(l, SortStrings(l));
    SortStrings(l)
  }

  /** However the map is enumerated, sorting gives `SortedKeys`. */
  lemma SortedKeysUnique<T>(m: map<string, T>, listed: seq<string>)
    requires Distinct(listed) && forall id :: id in listed <==> id in m
    ensures SortStrings(listed) == SortedKeys(m)
  {
    LessIsStrictWeak();
    LessDiscriminates(listed);
    DistinctSameElements(listed, Listing(m.Keys));
    SortForgetsOrder(Less, listed, Listing(m.Keys));
  }

  /** The bytes `DependencySetDigest` hashes. */
  ghost function DigestInput(definitions: map<string, Definition>): string {
    Encode(Rows(definitions, SortedKeys(definitions)))
  }

  method ListKeys<T>(m: map<string, T>) returns (ids: seq<string>)
    ensures Distinct(ids) && forall id :: id in ids <==> id in m
  {
    ids := [];
    var rest := m.Keys;
    while rest != {}
      invariant rest <= m.Keys && Distinct(ids)
      invariant forall id :: id in ids <==> id in m && id !in rest
      decreases |rest|
    {
      var id :| id in rest;
      ids := ids + [id];
      rest := rest - {id};
    }
  }

  lemma {:induction false} TerminatedAppend(fields: seq<string>, x: string)
    ensures Terminated(fields + [x]) == Terminated(fields) + (x + [0 as char])
  {
    if fields == [] {
      assert [x][1..] == [];
    } else {
      assert (fields + [x])[1..] == fields[1..] + [x];
      TerminatedAppend(fields[1..], x);
    }
  }

  method WriteLine(id: string, deps: seq<string>) returns (line: string)
    ensures line == Terminated([id] + SortStrings(deps)) + [0xff as char]
  {
    var dependencies := SortStrings(deps);
    TerminatedAppend([], id);
    line := id + [0 as char];
    for k := 0 to |dependencies|
      invariant line == Terminated([id] + dependencies[..k])
    {
      TerminatedAppend([id] + dependencies[..k], dependencies[k]);
      assert [id] + dependencies[..k + 1] == [id] + dependencies[..k] + [dependencies[k]];
      line := line + (dependencies[k] + [0 as char]);
    }
    assert dependencies[..|dependencies|] == dependencies;
    line := line + [0xff as char];
  }

  lemma EncodeNext(rows: seq<seq<string>>, i: nat)
    requires i < |rows|
    ensures Encode(rows[..i + 1]) == Encode(rows[..i]) + (Terminated(rows[i]) + [0xff as char])
  {
    assert rows[..i + 1][..i] == rows[..i];
  }

  method DependencySetDigest(sha: string -> string, definitions: map<string, Definition>) returns (digest: string)
    ensures digest == sha(DigestInput(definitions))
  {
    var listed := ListKeys(definitions);
    var ids := SortStrings(listed);
    SortedKeysUnique(definitions, listed);
    var written := "";
    ghost var rows := Rows(definitions, ids);
    for i := 0 to |ids|
      invariant written == Encode(rows[..i])
    {
      var line := WriteLine(ids[i], DependenciesOf(definitions, ids[i]));
      EncodeNext(rows, i);
      written := written + line;
    }
    assert rows[..|ids|] == rows;
    digest := sha(written);
  }

  /** Identifiers hold neither separator; the record validators only admit such names. */
  predicate Plain(x: string) {
    (0 as char) !in x && (0xff as char) !in x
  }

  predicate PlainFields(fields: seq<string>) {
    forall i | 0 <= i < |fields| :: Plain(fields[i])
  }

  predicate PlainRows(rows: seq<seq<string>>) {
    forall i | 0 <= i < |rows| :: PlainFields(rows[i])
  }

  lemma FirstFieldSplits(x: string, rest1: string, y: string, rest2: string)
    requires x + ([0 as char] + rest1) == y + ([0 as char] + rest2) && Plain(x) && Plain(y)
    ensures x == y && rest1 == rest2
  {
    var whole := x + ([0 as char] + rest1);
    assert whole[|x|] == whole[|y|] == 0 as char;
    assert |x| == |y|;
    assert x == whole[..|x|] == y;
    assert rest1 == whole[|x| + 1..] == rest2;
  }

  /** NUL-terminated fields decode uniquely. */
  lemma {:induction false} TerminatedInjective(a: seq<string>, b: seq<string>)
    requires PlainFields(a) && PlainFields(b) && Terminated(a) == Terminated(b)
    ensures a == b
  {
    if a != [] && b != [] {
      FirstFieldSplits(a[0], Terminated(a[1..]), b[0], Terminated(b[1..]));
      TerminatedInjective(a[1..], b[1..]);
    }
  }

  lemma {:induction false} TerminatedPlain(a: seq<string>)
    requires PlainFields(a)
    ensures (0xff as char) !in Terminated(a)
  {
    if a != [] {
      TerminatedPlain(a[1..]);
      assert Plain(a[0]);
      assert (0xff as char) !in [0 as char] + Terminated(a[1..]);
    }
  }

  lemma FrontEndsInside(front1: string, line1: string, front2: string, line2: string)
    requires front1 + (line1 + [0xff as char]) == front2 + (line2 + [0xff as char])
    requires |front1| < |front2| && front2[|front2| - 1] == 0xff as char
    ensures (0xff as char) in line1
  {
    var k := |front2| - 1 - |front1|;
    assert (front1 + (line1 + [0xff as char]))[|front2| - 1] == line1[k];
  }

  /** The 0xff before the last line can only be the end of the line before it. */
  lemma LastLineSplits(front1: string, line1: string, front2: string, line2: string)
    requires front1 + (line1 + [0xff as char]) == front2 + (line2 + [0xff as char])
    requires (0xff as char) !in line1 && (0xff as char) !in line2
    requires front1 == [] || front1[|front1| - 1] == 0xff as char
    requires front2 == [] || front2[|front2| - 1] == 0xff as char
    ensures front1 == front2 && line1 == line2
  {
    var whole := front1 + (line1 + [0xff as char]);
    if |front1| < |front2| { FrontEndsInside(front1, line1, front2, line2); }
    if |front2| < |front1| { FrontEndsInside(front2, line2, front1, line1); }
    assert front1 == whole[..|front1|] == front2;
    assert line1 == whole[|front1|..|whole| - 1] == line2;
  }

  lemma {:induction false} EncodeInjective(r1: seq<seq<string>>, r2: seq<seq<string>>)
    requires PlainRows(r1) && PlainRows(r2) && Encode(r1) == Encode(r2)
    ensures r1 == r2
    decreases |r1|
  {
    if r1 != [] && r2 != [] {
      var init1, init2 := r1[..|r1| - 1], r2[..|r2| - 1];
      var last1, last2 := r1[|r1| - 1], r2[|r2| - 1];
      TerminatedPlain(last1);
      TerminatedPlain(last2);
      LastLineSplits(Encode(init1), Terminated(last1), Encode(init2), Terminated(last2));
      TerminatedInjective(last1, last2);
      EncodeInjective(init1, init2);
      assert r1 == init1 + [last1] && r2 == init2 + [last2];
    }
  }

  ghost predicate SameDependencies(d1: map<string, Definition>, d2: map<string, Definition>) {
    && d1.Keys == d2.Keys
    && forall id :: multiset(DependenciesOf(d1, id)) == multiset(DependenciesOf(d2, id))
  }

  lemma RowsPlain(definitions: map<string, Definition>, ids: seq<string>)
    requires forall id | id in ids :: Plain(id) && PlainFields(DependenciesOf(definitions, id))
    ensures PlainRows(Rows(definitions, ids))
  {
    forall i | 0 <= i < |ids| ensures PlainFields(Row(definitions, ids[i])) {
      var deps := DependenciesOf(definitions, ids[i]);
      assert Plain(ids[i]);
      SameElements(deps, SortStrings(deps));
      forall k | 0 <= k < |deps| ensures Plain(SortStrings(deps)[k]) { assert SortStrings(deps)[k] in deps; }
    }
  }

  /** The hashed bytes pin down the whole dependency relation, whatever the map order and
      whatever order each package lists its dependencies in. */
  lemma {:induction false} DigestBindsDependencies(d1: map<string, Definition>, d2: map<string, Definition>)
    requires forall id | id in d1 :: Plain(id) && PlainFields(DependenciesOf(d1, id))
    requires forall id | id in d2 :: Plain(id) && PlainFields(DependenciesOf(d2, id))
    ensures DigestInput(d1) == DigestInput(d2) <==> SameDependencies(d1, d2)
  {
    if DigestInput(d1) == DigestInput(d2) {
      RowsPlain(d1, SortedKeys(d1));
      RowsPlain(d2, SortedKeys(d2));
      EncodeInjective(Rows(d1, SortedKeys(d1)), Rows(d2, SortedKeys(d2)));
      RowsDetermine(d1, SortedKeys(d1), d2, SortedKeys(d2));
    } else if SameDependencies(d1, d2) {
      SortedKeysAgree(d1, d2);
      RowsCongruent(d1, d2, SortedKeys(d1));
    }
  }

  lemma SortedKeysAgree<T>(m1: map<string, T>, m2: map<string, T>)
    requires m1.Keys == m2.Keys
    ensures SortedKeys(m1) == SortedKeys(m2)
  {
  }

  lemma RowsDetermine(d1: map<string, Definition>, ids1: seq<string>, d2: map<string, Definition>, ids2: seq<string>)
    requires Rows(d1, ids1) == Rows(d2, ids2)
    requires (forall id :: id in ids1 <==> id in d1) && (forall id :: id in ids2 <==> id in d2)
    ensures SameDependencies(d1, d2)
  {
    assert |ids1| == |Rows(d1, ids1)| == |ids2|;
    forall i | 0 <= i < |ids1|
      ensures ids1[i] == ids2[i] && multiset(DependenciesOf(d1, ids1[i])) == multiset(DependenciesOf(d2, ids1[i]))
    {
      var row := Rows(d1, ids1)[i];
      assert row == Row(d1, ids1[i]) == Row(d2, ids2[i]);
      assert row[0] == ids1[i] == ids2[i];
      assert row[1..] == SortStrings(DependenciesOf(d1, ids1[i])) == SortStrings(DependenciesOf(d2, ids1[i]));
    }
    assert ids1 == ids2;
    forall id ensures id in d1 <==> id in d2 { assert id in ids1 <==> id in d1; }
    forall id ensures multiset(DependenciesOf(d1, id)) == multiset(DependenciesOf(d2, id)) {
      if id in d1 {
        var i :| 0 <= i < |ids1| && ids1[i] == id;
      }
    }
  }

  lemma {:induction false} RowsCongruent(d1: map<string, Definition>, d2: map<string, Definition>, ids: seq<string>)
    requires SameDependencies(d1, d2)
    ensures Rows(d1, ids) == Rows(d2, ids)
  {
    forall i | 0 <= i < |ids| ensures Row(d1, ids[i]) == Row(d2, ids[i]) {
      LessIsStrictWeak();
      LessDiscriminates(DependenciesOf(d1, ids[i]));
      SortForgetsOrder(Less, DependenciesOf(d1, ids[i]), DependenciesOf(d2, ids[i]));
    }
  }

  // ---------------------------------------------------------------- imperative side

  function Count(m: map<string, nat>, k: string): nat { if k in m then m[k] else 0 }
  function Bucket(m: map<string, seq<string>>, k: string): seq<string> { if k in m then m[k] else [] }

  method CheckMembers(g: Graph) returns (err: Option<GraphError>, members: set<string>)
    ensures err.None? ==> MembersOk(g) && members == MemberIDs(g) && |members| == |g.revision.members|
    ensures err.Some? ==> exists i | 0 <= i < |g.revision.members| ::
              MemberDefect(g, i) == err && forall j | 0 <= j < i :: MemberDefect(g, j).None?
  {
    members := {};
    for i := 0 to |g.revision.members|
      invariant members == IDsBefore(g, i)
      invariant |members| == i
      invariant forall j | 0 <= j < i :: MemberDefect(g, j).None?
    {
      var m := g.revision.members[i];
      var id := m.workPackageID;
      ghost var defect := MemberDefect(g, i);
      if id !in g.definitions { return Some(MissingDefinition(id)), members; }
      var d := g.definitions[id];
      if d.record.projectID != g.task.projectID || d.record.taskID != g.task.taskID
         || d.record.taskRevision != g.task.revision || d.record.graphRevision != g.revision.revision {
        return Some(ForeignDefinition(id)), members;
      }
      if d.record.recordID != m.definitionRecordID || d.recordDigest != m.definitionDigest {
        return Some(DefinitionConflict(id)), members;
      }
      if id in members { return Some(DuplicateMember(id)), members; }
      IDsStep(g, i);
      members := members + {id};
    }
    err := None;
  }

  /** The edge tables agree with the declared dependencies. */
  ghost predicate EdgeTables(g: Graph, indegree: map<string, nat>, dependents: map<string, seq<string>>) {
    && (forall id | id in MemberIDs(g) :: Count(indegree, id) == |Deps(g, id)|)
    && (forall d :: Distinct(Bucket(dependents, d)))
    && (forall d, id :: id in Bucket(dependents, d) <==> id in MemberIDs(g) && d in Deps(g, id))
  }

  ghost predicate PartialTables(
    g: Graph, indegree: map<string, nat>, dependents: map<string, seq<string>>, i: int, k: int)
    requires 0 <= i <= |g.revision.members|
    requires i < |g.revision.members| ==> 0 <= k <= |Deps(g, MemberID(g, i))|
    requires i == |g.revision.members| ==> k == 0
  {
    && (forall j | 0 <= j < |g.revision.members| ::
          Count(indegree, MemberID(g, j)) == if j < i then |Deps(g, MemberID(g, j))| else if j == i then k else 0)
    && (forall d :: Distinct(Bucket(dependents, d)))
    && (forall d, id :: id in Bucket(dependents, d) <==>
          || (id in IDsBefore(g, i) && d in Deps(g, id))
          || (i < |g.revision.members| && id == MemberID(g, i) && d in Deps(g, id)[..k]))
  }

  lemma MembersDiffer(g: Graph, i: int, j: int)
    requires MembersOk(g) && 0 <= j < i < |g.revision.members|
    ensures MemberID(g, i) != MemberID(g, j)
  {
    assert MemberDefect(g, i).None?;
    assert MemberID(g, j) in IDsBefore(g, i);
  }

  method BuildEdges(g: Graph, members: set<string>)
    returns (err: Option<GraphError>, indegree: map<string, nat>, dependents: map<string, seq<string>>)
    requires MembersOk(g) && members == MemberIDs(g)
    ensures err.None? ==> EdgesOk(g) && EdgeTables(g, indegree, dependents)
    ensures err.Some? ==> exists i, k | 0 <= i < |g.revision.members| && 0 <= k < |Deps(g, MemberID(g, i))| ::
              EdgeDefect(g, i, k) == err && EdgesOkUpTo(g, i, k)
  {
    var edges := 0;
    indegree := map[];
    dependents := map[];
    for i := 0 to |g.revision.members|
      invariant edges == EdgesBefore(g, i)
      invariant EdgesOkUpTo(g, i, 0)
      invariant PartialTables(g, indegree, dependents, i, 0)
    {
      var id := MemberID(g, i);
      assert MemberDefect(g, i).None?;
      var deps := Deps(g, id);
      var seen: set<string> := {};
      for k := 0 to |deps|
        invariant edges == EdgesBefore(g, i) + k
        invariant seen == (set x | x in deps[..k])
        invariant EdgesOkUpTo(g, i, k)
        invariant PartialTables(g, indegree, dependents, i, k)
      {
        var d := deps[k];
        edges := edges + 1;
        if edges > MAX_GRAPH_EDGES { return Some(TooManyEdges), indegree, dependents; }
        if d == id { return Some(SelfDependency(id)), indegree, dependents; }
        if d in seen { return Some(DuplicateEdge(id, d)), indegree, dependents; }
        seen := seen + {d};
        if d !in members { return Some(MissingDependency(id, d)), indegree, dependents; }
        TablesStep(g, indegree, dependents, i, k);
        indegree := indegree[id := Count(indegree, id) + 1];
        dependents := dependents[d := Bucket(dependents, d) + [id]];
        assert EdgeDefect(g, i, k).None?;
      }
      TablesNextMember(g, indegree, dependents, i);
    }
    err := None;
    TablesDone(g, indegree, dependents);
  }

  lemma TablesStep(g: Graph, indegree: map<string, nat>, dependents: map<string, seq<string>>, i: int, k: int)
    requires MembersOk(g) && 0 <= i < |g.revision.members| && 0 <= k < |Deps(g, MemberID(g, i))|
    requires PartialTables(g, indegree, dependents, i, k)
    requires Deps(g, MemberID(g, i))[k] !in Deps(g, MemberID(g, i))[..k]
    ensures var id := MemberID(g, i); var d := Deps(g, id)[k];
            PartialTables(g, indegree[id := Count(indegree, id) + 1],
                          dependents[d := Bucket(dependents, d) + [id]], i, k + 1)
  {
    var id := MemberID(g, i);
    var deps := Deps(g, id);
    var d := deps[k];
    var dependents' := dependents[d := Bucket(dependents, d) + [id]];
    assert deps[..k + 1] == deps[..k] + [d];
    assert MemberDefect(g, i).None?;
    assert id !in Bucket(dependents, d);
    forall j | 0 <= j < |g.revision.members| && j != i ensures MemberID(g, j) != id {
      if j < i { MembersDiffer(g, i, j); } else { MembersDiffer(g, j, i); }
    }
    forall e ensures Distinct(Bucket(dependents', e)) {
      assert Distinct(Bucket(dependents, e));
    }
    forall e, x
      ensures x in Bucket(dependents', e) <==>
                || (x in IDsBefore(g, i) && e in Deps(g, x))
                || (x == id && e in Deps(g, x)[..k + 1])
    {
      assert x in Bucket(dependents', e) <==> x in Bucket(dependents, e) || (e == d && x == id);
    }
  }

  lemma TablesNextMember(g: Graph, indegree: map<string, nat>, dependents: map<string, seq<string>>, i: int)
    requires 0 <= i < |g.revision.members|
    requires PartialTables(g, indegree, dependents, i, |Deps(g, MemberID(g, i))|)
    ensures PartialTables(g, indegree, dependents, i + 1, 0)
  {
    var deps := Deps(g, MemberID(g, i));
    assert deps[..|deps|] == deps;
    IDsStep(g, i);
  }

  lemma TablesDone(g: Graph, indegree: map<string, nat>, dependents: map<string, seq<string>>)
    requires PartialTables(g, indegree, dependents, |g.revision.members|, 0)
    ensures EdgeTables(g, indegree, dependents)
  {
  }

  // ---------------------------------------------------------------- Kahn's traversal

  ghost function Visited(order: seq<string>): set<string> {
    set x | x in order
  }

  ghost function Unmet(g: Graph, id: string, done: set<string>): set<string> {
    set d | d in Deps(g, id) && d !in done
  }

  /** Facts about the edges that the structural checks establish. */
  ghost predicate CleanEdges(g: Graph) {
    forall id {:trigger CleanNode(g, id)} | id in MemberIDs(g) :: CleanNode(g, id)
  }

  ghost predicate CleanNode(g: Graph, id: string) {
    Distinct(Deps(g, id)) && id !in Deps(g, id) && forall d | d in Deps(g, id) :: d in MemberIDs(g)
  }

  lemma EdgesOkAreClean(g: Graph)
    requires EdgesOk(g)
    ensures CleanEdges(g)
  {
    forall id | id in MemberIDs(g) ensures CleanNode(g, id) {
      var i :| 0 <= i < |g.revision.members| && MemberID(g, i) == id;
      var deps := Deps(g, id);
      forall k | 0 <= k < |deps|
        ensures deps[k] != id && deps[k] in MemberIDs(g) && deps[k] !in deps[..k]
      {
        assert EdgeDefect(g, i, k).None?;
      }
      forall j, k | 0 <= j < k < |deps| ensures deps[j] != deps[k] {
        assert deps[..k][j] == deps[j];
      }
    }
  }

  /** What every round of the traversal keeps: in-degrees count unmet dependencies, the
      queue is exactly the unvisited nodes with none, and nothing is queued twice. */
  ghost predicate Frontier(g: Graph, indegree: map<string, nat>, order: seq<string>, ready: seq<string>) {
    var done := Visited(order);
    && Distinct(order) && Distinct(ready) && done <= MemberIDs(g)
    && DependenciesFirst(g, order)
    && (forall id | id in MemberIDs(g) :: Count(indegree, id) == |Unmet(g, id, done)|)
    && (forall id :: id in ready <==> id in MemberIDs(g) && id !in done && Unmet(g, id, done) == {})
  }

  /** The same facts part-way through lowering the in-degrees of `id`'s dependents. */
  ghost predicate MidRound(g: Graph, indegree: map<string, nat>, order: seq<string>, id: string,
                           lowered: seq<string>, ready: seq<string>)
  {
    var before, after := Visited(order), Visited(order) + {id};
    && Distinct(ready)
    && (forall x | x in MemberIDs(g) ::
          Count(indegree, x) == if x in lowered then |Unmet(g, x, after)| else |Unmet(g, x, before)|)
    && (forall x :: x in ready <==>
          && x in MemberIDs(g) && x !in after
          && (Unmet(g, x, before) == {} || (x in lowered && Unmet(g, x, after) == {})))
  }

  lemma UnmetStep(g: Graph, x: string, done: set<string>, id: string)
    requires id !in done
    ensures id in Deps(g, x) ==> |Unmet(g, x, done + {id})| == |Unmet(g, x, done)| - 1
    ensures id !in Deps(g, x) ==> Unmet(g, x, done + {id}) == Unmet(g, x, done)
  {
    if id in Deps(g, x) {
      assert Unmet(g, x, done) == Unmet(g, x, done + {id}) + {id};
    }
  }

  lemma RoundStarts(g: Graph, indegree: map<string, nat>, order: seq<string>, ready: seq<string>)
    requires Frontier(g, indegree, order, ready) && ready != []
    ensures ready[0] in MemberIDs(g) && ready[0] !in order
    ensures MidRound(g, indegree, order, ready[0], [], ready[1..])
  {
    var done := Visited(order);
    assert ready == [ready[0]] + ready[1..];
    forall x ensures x in ready[1..] <==> x in ready && x != ready[0] { }
  }

  lemma LowerOne(g: Graph, indegree: map<string, nat>, order: seq<string>, id: string,
                 lowered: seq<string>, ready: seq<string>, x: string)
    requires CleanEdges(g) && MidRound(g, indegree, order, id, lowered, ready)
    requires id !in order && x in MemberIDs(g) && id in Deps(g, x) && x !in lowered
    requires DependenciesFirst(g, order)
    ensures Count(indegree, x) > 0
    ensures var n: nat := Count(indegree, x) - 1;
            MidRound(g, indegree[x := n], order, id, lowered + [x], if n == 0 then ready + [x] else ready)
  {
    var before := Visited(order);
    var after := before + {id};
    UnmetStep(g, x, before, id);
    assert id in Unmet(g, x, before);
    var n: nat := Count(indegree, x) - 1;
    var ready' := if n == 0 then ready + [x] else ready;
    assert CleanNode(g, x);
    assert x != id && x !in before;
    assert x !in ready;
    forall y ensures y in ready' <==>
          && y in MemberIDs(g) && y !in after
          && (Unmet(g, y, before) == {} || (y in lowered + [x] && Unmet(g, y, after) == {}))
    {
      if y == x {
        assert n == 0 <==> Unmet(g, x, after) == {};
      } else {
        assert y in ready' <==> y in ready;
        assert y in lowered + [x] <==> y in lowered;
      }
    }
  }

  lemma RoundEnds(g: Graph, indegree: map<string, nat>, order: seq<string>, id: string,
                  lowered: seq<string>, ready: seq<string>)
    requires MidRound(g, indegree, order, id, lowered, ready)
    requires Distinct(order) && id !in order && id in MemberIDs(g) && DependenciesFirst(g, order)
    requires Visited(order) <= MemberIDs(g)
    requires Unmet(g, id, Visited(order)) == {}
    requires forall x :: x in lowered <==> x in MemberIDs(g) && id in Deps(g, x)
    ensures Frontier(g, indegree, order + [id], ready)
  {
    var before := Visited(order);
    var order' := order + [id];
    assert Visited(order') == before + {id};
    forall x ensures x !in lowered && x in MemberIDs(g) ==> Unmet(g, x, before + {id}) == Unmet(g, x, before) {
      UnmetStep(g, x, before, id);
    }
    forall i, d | 0 <= i < |order'| && d in Deps(g, order'[i]) ensures d in order'[..i] {
      if i < |order| {
        assert order'[..i] == order[..i];
      } else {
        assert order'[..i] == order;
        assert d !in Unmet(g, id, before);
      }
    }
  }

  /** `order` visits distinct members, dependencies first, and cannot be extended. */
  ghost predicate MaximalPrefix(g: Graph, order: seq<string>) {
    && Distinct(order) && DependenciesFirst(g, order) && Visited(order) <= MemberIDs(g)
    && forall x | x in MemberIDs(g) && x !in Visited(order) :: Unmet(g, x, Visited(order)) != {}
  }

  method CountVisited(g: Graph, members: set<string>, indegree0: map<string, nat>, dependents: map<string, seq<string>>)
    returns (visited: nat, ghost order: seq<string>)
    requires CleanEdges(g) && members == MemberIDs(g) && EdgeTables(g, indegree0, dependents)
    ensures visited == |order| && MaximalPrefix(g, order)
    ensures visited == |members| <==> HasTopologicalOrder(g)
  {
    var indegree: map<string, nat> := indegree0;
    var ready := InitialReady(g, members, indegree);
    visited := 0;
    order := [];
    while ready != []
      invariant visited == |order|
      invariant Frontier(g, indegree, order, ready)
      decreases |members| - |order|
    {
      RoundStarts(g, indegree, order, ready);
      var id := ready[0];
      ready := ready[1..];
      visited := visited + 1;
      var waiting := Bucket(dependents, id);
      indegree, ready := LowerDependents(g, indegree, order, id, waiting, ready);
      RoundEnds(g, indegree, order, id, waiting, ready);
      order := order + [id];
      FrontierResorted(g, indegree, order, ready);
      ready := SortStrings(ready);
      DistinctCount(order);
      SubsetSize(Visited(order), members);
    }
    TraversalDecides(g, order);
  }

  /** One round: each dependent of `id` waits for one dependency fewer. */
  method LowerDependents(g: Graph, indegree0: map<string, nat>, ghost order: seq<string>, id: string,
                         waiting: seq<string>,
                         ready0: seq<string>) returns (indegree: map<string, nat>, ready: seq<string>)
    requires CleanEdges(g) && MidRound(g, indegree0, order, id, [], ready0) && id !in order
    requires DependenciesFirst(g, order)
    requires Distinct(waiting) && forall x | x in waiting :: x in MemberIDs(g) && id in Deps(g, x)
    ensures MidRound(g, indegree, order, id, waiting, ready)
  {
    indegree, ready := indegree0, ready0;
    for k := 0 to |waiting|
      invariant MidRound(g, indegree, order, id, waiting[..k], ready)
    {
      var x := waiting[k];
      assert waiting[..k + 1] == waiting[..k] + [x];
      LowerOne(g, indegree, order, id, waiting[..k], ready, x);
      indegree := indegree[x := Count(indegree, x) - 1];
      if indegree[x] == 0 { ready := ready + [x]; }
    }
    assert waiting[..|waiting|] == waiting;
  }

  method InitialReady(g: Graph, members: set<string>, indegree: map<string, nat>) returns (ready: seq<string>)
    requires CleanEdges(g) && members == MemberIDs(g)
    requires forall id | id in members :: Count(indegree, id) == |Deps(g, id)|
    ensures Frontier(g, indegree, [], ready)
  {
    ready := [];
    var rest := members;
    while rest != {}
      invariant rest <= members && Distinct(ready)
      invariant forall id :: id in ready <==> id in members && id !in rest && Count(indegree, id) == 0
      decreases |rest|
    {
      var id :| id in rest;
      if Count(indegree, id) == 0 { ready := ready + [id]; }
      rest := rest - {id};
    }
    forall id | id in members ensures |Deps(g, id)| == |Unmet(g, id, {})| {
      assert CleanNode(g, id);
      DistinctCount(Deps(g, id));
      assert Unmet(g, id, {}) == set d | d in Deps(g, id);
    }
    assert Visited([]) == {};
    FrontierResorted(g, indegree, [], ready);
    ready := SortStrings(ready);
  }

  lemma FrontierResorted(g: Graph, indegree: map<string, nat>, order: seq<string>, ready: seq<string>)
    requires Frontier(g, indegree, order, ready)
    ensures Frontier(g, indegree, order, SortStrings(ready))
  {
    SameElements(ready, SortStrings(ready));
    DistinctPermutes(ready, SortStrings(ready));
  }

  /** `ValidateGraph` accepts exactly the well-formed graphs that can be topologically
      ordered; the cycle error means an actual cycle of members. */
  /** Every check passes and the dependencies have an order. */
  ghost predicate AcceptedGraph(sha: string -> string, g: Graph) {
    Checked(sha, g) && HasTopologicalOrder(g)
  }

  ghost predicate Checked(sha: string -> string, g: Graph) {
    && IdentityOk(g) && SizeOk(g) && MembersOk(g) && EdgesOk(g)
    && sha(DigestInput(g.definitions)) == g.revision.dependencySetDigest
  }

  ghost predicate FirstMemberDefect(g: Graph, err: Option<GraphError>) {
    exists i | 0 <= i < |g.revision.members| ::
      MemberDefect(g, i) == err && err.Some? && forall j | 0 <= j < i :: MemberDefect(g, j).None?
  }

  ghost predicate FirstEdgeDefect(g: Graph, err: Option<GraphError>) {
    exists i, k | 0 <= i < |g.revision.members| && 0 <= k < |Deps(g, MemberID(g, i))| ::
      EdgeDefect(g, i, k) == err && err.Some? && EdgesOkUpTo(g, i, k)
  }

  /** What is known of the outcome of validation. */
  ghost predicate Diagnosed(sha: string -> string, g: Graph, err: Option<GraphError>) {
    && (err.None? ==> AcceptedGraph(sha, g))
    && (!IdentityOk(g) ==> err == Some(IdentityConflict))
    && (IdentityOk(g) && !SizeOk(g) ==> err == Some(MemberCount))
    && (IdentityOk(g) && SizeOk(g) && !MembersOk(g) ==> FirstMemberDefect(g, err))
    && (IdentityOk(g) && SizeOk(g) && MembersOk(g) && !EdgesOk(g) ==> FirstEdgeDefect(g, err))
    && (IdentityOk(g) && SizeOk(g) && MembersOk(g) && EdgesOk(g) && !Checked(sha, g) ==> err == Some(DigestConflict))
    && (Checked(sha, g) && err.Some? ==> err == Some(DependencyCycle) && exists c :: IsCycle(g, c))
  }

  method ValidateGraph(sha: string -> string, g: Graph) returns (err: Option<GraphError>)
    ensures err.None? <==> AcceptedGraph(sha, g)
    ensures err == Some(DependencyCycle) <==> Checked(sha, g) && exists c :: IsCycle(g, c)
    ensures err == Some(IdentityConflict) <==> !IdentityOk(g)
    ensures err == Some(MemberCount) <==> IdentityOk(g) && !SizeOk(g)
    ensures err == Some(DigestConflict) <==>
      IdentityOk(g) && SizeOk(g) && MembersOk(g) && EdgesOk(g) && !Checked(sha, g)
    ensures IdentityOk(g) && SizeOk(g) && !MembersOk(g) ==> FirstMemberDefect(g, err)
    ensures IdentityOk(g) && SizeOk(g) && MembersOk(g) && !EdgesOk(g) ==> FirstEdgeDefect(g, err)
    ensures Diagnosed(sha, g, err)
  {
    if !IdentityOk(g) { return Some(IdentityConflict); }
    if !SizeOk(g) { return Some(MemberCount); }
    var members;
    err, members := CheckMembers(g);
    if err.Some? { return; }
    var indegree, dependents;
    err, indegree, dependents := BuildEdges(g, members);
    if err.Some? { return; }
    var digest := DependencySetDigest(sha, g.definitions);
    if digest != g.revision.dependencySetDigest { return Some(DigestConflict); }
    EdgesOkAreClean(g);
    var visited, order := CountVisited(g, members, indegree, dependents);
    TraversalDecides(g, order);
    err := if visited != |members| then Some(DependencyCycle) else None;
  }

  /** A maximal dependency-first listing is complete exactly when an order exists, and
      otherwise what it misses contains a cycle. */
  lemma {:induction false} TraversalDecides(g: Graph, order: seq<string>)
    requires CleanEdges(g) && MaximalPrefix(g, order)
    ensures |order| == |MemberIDs(g)| <==> HasTopologicalOrder(g)
    ensures |order| == |MemberIDs(g)| <==> !exists c :: IsCycle(g, c)
  {
    if |order| == |MemberIDs(g)| {
      CompleteIsOrder(g, order);
      forall c ensures !IsCycle(g, c) {
        if IsCycle(g, c) { CycleRefutesOrder(g, c, order, 0); }
      }
    } else {
      var c := IncompleteHasCycle(g, order);
      forall other: seq<string> ensures !IsTopologicalOrder(g, other) {
        if IsTopologicalOrder(g, other) { CycleRefutesOrder(g, c, other, 0); }
      }
    }
  }

  lemma CompleteIsOrder(g: Graph, order: seq<string>)
    requires MaximalPrefix(g, order) && |order| == |MemberIDs(g)|
    ensures IsTopologicalOrder(g, order)
  {
    DistinctCount(order);
    SubsetEqual(Visited(order), MemberIDs(g));
    forall x ensures x in order <==> x in MemberIDs(g) { assert x in order <==> x in Visited(order); }
  }

  lemma StuckDepends(g: Graph, order: seq<string>, x: string)
    requires CleanEdges(g) && MaximalPrefix(g, order) && x in MemberIDs(g) - Visited(order)
    ensures DependsInto(g, x, MemberIDs(g) - Visited(order))
  {
    var d :| d in Unmet(g, x, Visited(order));
    assert CleanNode(g, x);
    assert d in Deps(g, x) && d in MemberIDs(g) - Visited(order);
  }

  lemma IncompleteHasCycle(g: Graph, order: seq<string>) returns (c: seq<string>)
    requires CleanEdges(g) && MaximalPrefix(g, order) && |order| != |MemberIDs(g)|
    ensures IsCycle(g, c)
  {
    var stuck := MemberIDs(g) - Visited(order);
    DistinctCount(order);
    assert Visited(order) != MemberIDs(g) && Visited(order) + stuck == MemberIDs(g);
    forall x | x in stuck ensures DependsInto(g, x, stuck) { StuckDepends(g, order, x); }
    c := NoEscapeHasCycle(g, stuck);
  }

  lemma SubsetEqual<T>(a: set<T>, b: set<T>)
    requires a <= b && |a| == |b|
    ensures a == b
  {
    if x :| x in b && x !in a { SubsetSize(a, b - {x}); }
  }
}
