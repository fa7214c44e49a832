/** What it means for a graph to be accepted or refused, said of its records alone. */
module GraphBinding {
  import opened Sorting
  import opened Options
  import opened TaskGraph

  // ---------------------------------------------------------------- what a refusal says

  predicate Listed(g: Graph, id: string) { exists m :: m in g.revision.members && m.workPackageID == id }

  /** What is the matter with the graph when `e` is reported, in the terms of its records. */
  ghost predicate Explains(sha: string -> string, g: Graph, e: GraphError) {
    match e
    case IdentityConflict =>
      || g.task.projectID == "" || g.task.projectID != g.revision.projectID || g.task.taskID != g.revision.taskID
      || g.task.revision != g.revision.taskRevision || g.task.graphRevision != g.revision.revision
    case MemberCount =>
      g.revision.members == [] || |g.revision.members| > 256 || |g.definitions| != |g.revision.members|
    case MissingDefinition(id) => Listed(g, id) && id !in g.definitions
    case ForeignDefinition(id) =>
      && Listed(g, id) && id in g.definitions
      && var r := g.definitions[id].record;
         (r.projectID, r.taskID, r.taskRevision, r.graphRevision)
         != (g.task.projectID, g.task.taskID, g.task.revision, g.revision.revision)
    case DefinitionConflict(id) =>
      && id in g.definitions
      && exists m :: m in g.revision.members && m.workPackageID == id
           && (m.definitionRecordID, m.definitionDigest)
              != (g.definitions[id].record.recordID, g.definitions[id].recordDigest)
    case DuplicateMember(id) =>
      exists i, j :: 0 <= i < j < |g.revision.members| && MemberID(g, i) == id == MemberID(g, j)
    case TooManyEdges => EdgesBefore(g, |g.revision.members|) > 4096
    case SelfDependency(id) => Listed(g, id) && id in Deps(g, id)
    case DuplicateEdge(id, d) => Listed(g, id) && multiset(Deps(g, id))[d] > 1
    case MissingDependency(id, d) => Listed(g, id) && d in Deps(g, id) && !Listed(g, d)
    case DigestConflict => sha(DigestInput(g.definitions)) != g.revision.dependencySetDigest
    case DependencyCycle => exists c :: IsCycle(g, c)
  }

  lemma ListedIsMember(g: Graph, id: string)
    ensures Listed(g, id) <==> id in MemberIDs(g)
  {
    if Listed(g, id) {
      var m :| m in g.revision.members && m.workPackageID == id;
      var i :| 0 <= i < |g.revision.members| && g.revision.members[i] == m;
      assert MemberID(g, i) == id;
    }
    if id in MemberIDs(g) {
      var i :| 0 <= i < |g.revision.members| && MemberID(g, i) == id;
      assert g.revision.members[i] in g.revision.members;
    }
  }

  lemma MemberDefectExplained(sha: string -> string, g: Graph, i: nat)
    requires i < |g.revision.members| && MemberDefect(g, i).Some?
    ensures Explains(sha, g, MemberDefect(g, i).value)
  {
    var m := g.revision.members[i];
    assert m in g.revision.members && Listed(g, m.workPackageID);
    if MemberDefect(g, i).value.DuplicateMember? {
      var j :| 0 <= j < i && MemberID(g, j) == m.workPackageID;
      assert MemberID(g, i) == m.workPackageID;
    }
  }

  lemma {:induction false} EdgesGrow(g: Graph, i: nat, k: nat)
    requires i <= k <= |g.revision.members|
    ensures EdgesBefore(g, i) <= EdgesBefore(g, k)
    decreases k
  {
    if i < k { EdgesGrow(g, i, k - 1); }
  }

  lemma EdgeDefectExplained(sha: string -> string, g: Graph, i: nat, k: nat)
    requires i < |g.revision.members| && k < |Deps(g, MemberID(g, i))| && EdgeDefect(g, i, k).Some?
    ensures Explains(sha, g, EdgeDefect(g, i, k).value)
  {
    var id, deps := MemberID(g, i), Deps(g, MemberID(g, i));
    assert g.revision.members[i] in g.revision.members && Listed(g, id);
    EdgesGrow(g, i + 1, |g.revision.members|);
    ListedIsMember(g, deps[k]);
    if deps[k] in deps[..k] {
      var j :| 0 <= j < k && deps[j] == deps[k];
      RepeatMultiplicity(deps, j, k);
    }
  }

  /** No member and no edge is at fault exactly when nothing can be said against them. */
  lemma {:induction false} CleanMembersSayNothing(sha: string -> string, g: Graph, e: GraphError)
    requires MembersOk(g) && EdgesOk(g) && Explains(sha, g, e)
    ensures e in {IdentityConflict, MemberCount, DigestConflict, DependencyCycle}
  {
    EdgesWithinLimit(g, |g.revision.members|);
    match e
    case MissingDefinition(id) => ListedIsSound(g, id);
    case ForeignDefinition(id) => ListedIsSound(g, id);
    case DefinitionConflict(id) => ConflictIsFound(g, id);
    case DuplicateMember(id) => DuplicateIsFound(g, id);
    case SelfDependency(id) => EdgeIsSound(g, id, id);
    case DuplicateEdge(id, d) => EdgeIsSound(g, id, d);
    case MissingDependency(id, d) => EdgeIsSound(g, id, d);
    case _ =>
  }

  lemma ListedIsSound(g: Graph, id: string)
    requires MembersOk(g) && Listed(g, id)
    ensures id in g.definitions
    ensures var r := g.definitions[id].record;
            (r.projectID, r.taskID, r.taskRevision, r.graphRevision)
            == (g.task.projectID, g.task.taskID, g.task.revision, g.revision.revision)
  {
    ListedIsMember(g, id);
    var i :| 0 <= i < |g.revision.members| && MemberID(g, i) == id;
    assert MemberDefect(g, i).None?;
  }

  lemma ConflictIsFound(g: Graph, id: string)
    requires MembersOk(g) && id in g.definitions
    ensures forall m | m in g.revision.members && m.workPackageID == id ::
              (m.definitionRecordID, m.definitionDigest)
              == (g.definitions[id].record.recordID, g.definitions[id].recordDigest)
  {
    forall m | m in g.revision.members && m.workPackageID == id
      ensures (m.definitionRecordID, m.definitionDigest)
           == (g.definitions[id].record.recordID, g.definitions[id].recordDigest)
    {
      var i :| 0 <= i < |g.revision.members| && g.revision.members[i] == m;
      assert MemberDefect(g, i).None?;
    }
  }

  lemma DuplicateIsFound(g: Graph, id: string)
    requires MembersOk(g)
    ensures !exists i, j :: 0 <= i < j < |g.revision.members| && MemberID(g, i) == id == MemberID(g, j)
  {
    forall i, j | 0 <= i < j < |g.revision.members| ensures MemberID(g, i) != MemberID(g, j) { MembersDiffer(g, j, i); }
  }

  lemma EdgeIsSound(g: Graph, id: string, d: string)
    requires EdgesOk(g) && Listed(g, id)
    ensures id !in Deps(g, id) && multiset(Deps(g, id))[d] <= 1 && (d in Deps(g, id) ==> Listed(g, d))
  {
    ListedIsMember(g, id);
    ListedIsMember(g, d);
    var i :| 0 <= i < |g.revision.members| && MemberID(g, i) == id;
    var deps := Deps(g, id);
    forall k | 0 <= k < |deps| ensures deps[k] != id && deps[k] !in deps[..k] && deps[k] in MemberIDs(g) {
      assert EdgeDefect(g, i, k).None?;
    }
    assert Distinct(deps) by {
      forall a, b | 0 <= a < b < |deps| ensures deps[a] != deps[b] { assert deps[..b][a] == deps[a]; }
    }
    DistinctMultiplicity(deps, d);
  }

  lemma {:induction false} EdgesWithinLimit(g: Graph, n: nat)
    requires EdgesOk(g) && n <= |g.revision.members|
    ensures EdgesBefore(g, n) <= 4096
    decreases n
  {
    if n > 0 {
      EdgesWithinLimit(g, n - 1);
      var last := |Deps(g, MemberID(g, n - 1))|;
      if last > 0 { assert EdgeDefect(g, n - 1, last - 1).None?; }
    }
  }

  lemma AcceptedHasNoCycle(g: Graph)
    requires HasTopologicalOrder(g)
    ensures !exists c :: IsCycle(g, c)
  {
    var order: seq<string> :| IsTopologicalOrder(g, order);
    forall c ensures !IsCycle(g, c) {
      if IsCycle(g, c) { CycleRefutesOrder(g, c, order, 0); }
    }
  }

  /** Nothing can be said against an accepted graph. */
  lemma {:induction false} AcceptedIsFaultless(sha: string -> string, g: Graph, e: GraphError)
    requires AcceptedGraph(sha, g)
    ensures !Explains(sha, g, e)
  {
    if e in {IdentityConflict, MemberCount, DigestConflict, DependencyCycle} {
      WholeIsSound(sha, g, e);
    } else if Explains(sha, g, e) {
      CleanMembersSayNothing(sha, g, e);
    }
  }

  lemma WholeIsSound(sha: string -> string, g: Graph, e: GraphError)
    requires IdentityOk(g) && SizeOk(g) && HasTopologicalOrder(g)
    requires sha(DigestInput(g.definitions)) == g.revision.dependencySetDigest
    requires e in {IdentityConflict, MemberCount, DigestConflict, DependencyCycle}
    ensures !Explains(sha, g, e)
  {
    AcceptedHasNoCycle(g);
  }

  /** No error can be held against the graph. */
  ghost predicate Faultless(sha: string -> string, g: Graph) {
    forall e {:trigger Explains(sha, g, e)} :: !Explains(sha, g, e)
  }

  lemma {:induction false} DiagnosisHolds(sha: string -> string, g: Graph, err: Option<GraphError>)
    requires Diagnosed(sha, g, err)
    ensures err.Some? ==> Explains(sha, g, err.value)
    ensures err.None? ==> Faultless(sha, g)
  {
    if err.None? {
      forall e ensures !Explains(sha, g, e) { AcceptedIsFaultless(sha, g, e); }
    } else if !IdentityOk(g) || !SizeOk(g) {
    } else if !MembersOk(g) {
      MembersExplained(sha, g, err);
    } else if !EdgesOk(g) {
      EdgesExplained(sha, g, err);
    }
  }

  lemma {:induction false} FaultlessIsAccepted(sha: string -> string, g: Graph, err: Option<GraphError>)
    requires Diagnosed(sha, g, err) && Faultless(sha, g)
    ensures err.None?
  {
    DiagnosisHolds(sha, g, err);
  }

  /** What is reported is the matter, and a graph against which nothing can be said is accepted. */
  method Validate(sha: string -> string, g: Graph) returns (err: Option<GraphError>)
    ensures err.Some? ==> Explains(sha, g, err.value)
    ensures err.None? <==> Faultless(sha, g)
  {
    err := ValidateGraph(sha, g);
    DiagnosisHolds(sha, g, err);
    if Faultless(sha, g) { FaultlessIsAccepted(sha, g, err); }
  }

  lemma MembersExplained(sha: string -> string, g: Graph, err: Option<GraphError>)
    requires FirstMemberDefect(g, err)
    ensures err.Some? && Explains(sha, g, err.value)
  {
    var i :| 0 <= i < |g.revision.members| && MemberDefect(g, i) == err && err.Some?;
    MemberDefectExplained(sha, g, i);
  }

  lemma EdgesExplained(sha: string -> string, g: Graph, err: Option<GraphError>)
    requires FirstEdgeDefect(g, err)
    ensures err.Some? && Explains(sha, g, err.value)
  {
    var i, k :| 0 <= i < |g.revision.members| && 0 <= k < |Deps(g, MemberID(g, i))|
                && EdgeDefect(g, i, k) == err && err.Some?;
    EdgeDefectExplained(sha, g, i, k);
  }

  // ---------------------------------------------------------------- what an accepted graph binds

  /** The two definitions are the same record, apart from how dependencies are listed. */
  predicate SameRecord(a: Definition, b: Definition) {
    && a.recordDigest == b.recordDigest && a.record.recordID == b.record.recordID
    && a.record.projectID == b.record.projectID && a.record.taskID == b.record.taskID
    && a.record.taskRevision == b.record.taskRevision && a.record.graphRevision == b.record.graphRevision
  }

  lemma {:induction false} DefinitionsAreMembers(sha: string -> string, g: Graph)
    requires AcceptedGraph(sha, g)
    ensures g.definitions.Keys == MemberIDs(g)
  {
    forall i | 0 <= i < |g.revision.members| ensures MemberID(g, i) in g.definitions {
      assert MemberDefect(g, i).None?;
    }
    MemberCountIs(g, |g.revision.members|);
    SubsetEqual(MemberIDs(g), g.definitions.Keys);
  }

  lemma {:induction false} MemberCountIs(g: Graph, n: nat)
    requires MembersOk(g) && n <= |g.revision.members|
    ensures |IDsBefore(g, n)| == n
  {
    if n == 0 {
      assert IDsBefore(g, 0) == {};
    } else {
      MemberCountIs(g, n - 1);
      IDsStep(g, n - 1);
      assert MemberDefect(g, n - 1).None?;
    }
  }

  lemma {:induction false} SameIDs(g: Graph, h: Graph, n: nat)
    requires g.revision == h.revision && n <= |g.revision.members|
    ensures IDsBefore(g, n) == IDsBefore(h, n)
  {
    if n == 0 {
      assert IDsBefore(g, 0) == {} && IDsBefore(h, 0) == {};
    } else {
      SameIDs(g, h, n - 1);
      IDsStep(g, n - 1);
      IDsStep(h, n - 1);
    }
  }

  lemma MemberBinds(g: Graph, h: Graph, i: nat)
    requires MembersOk(g) && MembersOk(h) && g.task == h.task && g.revision == h.revision && i < |g.revision.members|
    ensures var id := MemberID(g, i);
            id in g.definitions && id in h.definitions && SameRecord(g.definitions[id], h.definitions[id])
  {
    assert MemberDefect(g, i).None? && MemberDefect(h, i).None?;
  }

  /** A task and a graph revision admit one set of definitions: every identifier, digest and
      revision in them is fixed. */
  lemma {:induction false} RevisionBindsDefinitions(sha: string -> string, g: Graph, h: Graph)
    requires AcceptedGraph(sha, g) && AcceptedGraph(sha, h) && g.task == h.task && g.revision == h.revision
    ensures g.definitions.Keys == h.definitions.Keys
    ensures forall id | id in g.definitions :: SameRecord(g.definitions[id], h.definitions[id])
  {
    DefinitionsAreMembers(sha, g);
    DefinitionsAreMembers(sha, h);
    SameIDs(g, h, |g.revision.members|);
    forall id | id in g.definitions ensures SameRecord(g.definitions[id], h.definitions[id]) {
      RecordBinds(g, h, id);
    }
  }

  lemma RecordBinds(g: Graph, h: Graph, id: string)
    requires MembersOk(g) && MembersOk(h) && g.task == h.task && g.revision == h.revision && id in MemberIDs(g)
    ensures id in g.definitions && id in h.definitions && SameRecord(g.definitions[id], h.definitions[id])
  {
    ListedIsMember(g, id);
    var i :| 0 <= i < |g.revision.members| && MemberID(g, i) == id;
    MemberBinds(g, h, i);
  }

  /** Where digests tell encodings apart and names are plain, it fixes their dependencies too. */
  lemma {:induction false} RevisionBindsDependencies(sha: string -> string, g: Graph, h: Graph)
    requires AcceptedGraph(sha, g) && AcceptedGraph(sha, h) && g.task == h.task && g.revision == h.revision
    requires forall x, y :: sha(x) == sha(y) ==> x == y
    requires forall id | id in g.definitions :: Plain(id) && PlainFields(DependenciesOf(g.definitions, id))
    requires forall id | id in h.definitions :: Plain(id) && PlainFields(DependenciesOf(h.definitions, id))
    ensures SameDependencies(g.definitions, h.definitions)
  {
    DigestBindsDependencies(g.definitions, h.definitions);
  }

  /** Tampering with any one definition of an accepted graph gets the graph refused. */
  lemma {:induction false} TamperedDefinitionIsRefused(sha: string -> string, g: Graph, id: string, d: Definition)
    requires AcceptedGraph(sha, g) && id in g.definitions && !SameRecord(g.definitions[id], d)
    ensures !AcceptedGraph(sha, g.(definitions := g.definitions[id := d]))
  {
    var h := g.(definitions := g.definitions[id := d]);
    if AcceptedGraph(sha, h) { RevisionBindsDefinitions(sha, g, h); }
  }

  /** The definitions fix the members, and the revision fixes the task. */
  lemma {:induction false} DefinitionsBindMembers(sha: string -> string, g: Graph, h: Graph)
    requires AcceptedGraph(sha, g) && AcceptedGraph(sha, h) && g.definitions == h.definitions
    ensures forall m :: m in g.revision.members <==> m in h.revision.members
    ensures g.revision.projectID == h.revision.projectID && g.revision.taskID == h.revision.taskID
    ensures g.revision.taskRevision == h.revision.taskRevision && g.revision.revision == h.revision.revision
    ensures g.revision.dependencySetDigest == h.revision.dependencySetDigest && g.task == h.task
  {
    DefinitionsAreMembers(sha, g);
    DefinitionsAreMembers(sha, h);
    forall m | m in g.revision.members ensures m in h.revision.members { SameMember(g, h, m); }
    forall m | m in h.revision.members ensures m in g.revision.members { SameMember(h, g, m); }
    assert MemberDefect(g, 0).None? && MemberDefect(h, 0).None?;
    SameMember(g, h, g.revision.members[0]);
  }

  lemma SameMember(g: Graph, h: Graph, m: Member)
    requires MembersOk(g) && MembersOk(h) && g.definitions == h.definitions
    requires g.definitions.Keys == MemberIDs(g) == MemberIDs(h) && m in g.revision.members
    ensures m in h.revision.members && g.task.projectID == h.task.projectID && g.task.taskID == h.task.taskID
    ensures g.task.revision == h.task.revision && g.revision.revision == h.revision.revision
  {
    var i :| 0 <= i < |g.revision.members| && g.revision.members[i] == m;
    assert MemberDefect(g, i).None?;
    var j :| 0 <= j < |h.revision.members| && MemberID(h, j) == m.workPackageID;
    assert MemberDefect(h, j).None?;
    assert h.revision.members[j] == m;
  }
}
