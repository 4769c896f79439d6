/** From a reviewed task map to the ordinal map of a migration. */
module TaskMaps {
  import opened Wrappers
  import opened Anki
  import opened Effects
  import opened EffectLaws
  import opened Prediction

  type Task = nat

  datatype Kind = Vocabulary | Grammar

  datatype TaskEntry = TaskEntry(source: Ordinal, task: Task, target: Ordinal)

  /** A reviewed map: the kind of model it is for, and the source model it was reviewed against. */
  datatype TaskMap = TaskMap(kind: Kind, sourceModel: string, entries: seq<TaskEntry>)

  const MAX_TASKS := 3

  /** The reviewed map on its own: one to three entries, no source or task twice, each task at the ordinal its
      kind of model fixes for it. */
  ghost predicate ValidTaskMap(entries: seq<TaskEntry>, fixed: map<Task, Ordinal>) {
    && 1 <= |entries| <= MAX_TASKS
    && (forall e <- entries :: e.task in fixed && fixed[e.task] == e.target)
    && (forall i, j | 0 <= i < j < |entries| ::
        entries[i].source != entries[j].source && entries[i].task != entries[j].task)
  }

  /** The map against the document and the live collection: it is for this kind of model and the model the
      note has now, the target model has each task there, no target is used twice, and every card is mapped. */
  ghost predicate Applicable(reviewed: TaskMap, kind: Kind, live: map<Task, Ordinal>, note: ObservedNote) {
    && reviewed.kind == kind && reviewed.sourceModel == note.manifest && TargetsLive(reviewed.entries, live)
    && (forall c <- note.cards :: exists e <- reviewed.entries :: e.source == note.cards[c].ord)
  }

  method CheckTaskMap(entries: seq<TaskEntry>, fixed: map<Task, Ordinal>) returns (ok: bool)
    ensures ok <==> ValidTaskMap(entries, fixed)
  {
    if !(1 <= |entries| <= MAX_TASKS) { return false; }
    var sources: set<Ordinal>, tasks: set<Task> := {}, {};
    for i := 0 to |entries|
      invariant sources == (set e | e in entries[..i] :: e.source) && tasks == (set e | e in entries[..i] :: e.task)
      invariant forall e <- entries[..i] :: e.task in fixed && fixed[e.task] == e.target
      invariant forall j, k | 0 <= j < k < i ::
                entries[j].source != entries[k].source && entries[j].task != entries[k].task
    {
      var e := entries[i];
      assert entries[..i + 1] == entries[..i] + [e];
      if e.task !in fixed || fixed[e.task] != e.target { assert e in entries; return false; }
      if e.source in sources || e.task in tasks {
        ghost var d :| d in entries[..i] && (d.source == e.source || d.task == e.task);
        ghost var j :| 0 <= j < i && entries[j] == d;
        return false;
      }
      forall j | 0 <= j < i ensures entries[j].source != e.source && entries[j].task != e.task {
        assert entries[j] in entries[..i];
      }
      sources, tasks := sources + {e.source}, tasks + {e.task};
    }
    assert entries[..|entries|] == entries;
    return true;
  }

  ghost predicate TargetsLive(entries: seq<TaskEntry>, live: map<Task, Ordinal>) {
    && (forall e <- entries :: e.task in live && live[e.task] == e.target)
    && (forall i, j | 0 <= i < j < |entries| :: entries[i].target != entries[j].target)
  }

  /** The loop over the entries, with the set of targets seen. */
  method MapTargets(entries: seq<TaskEntry>, live: map<Task, Ordinal>) returns (r: Option<seq<Mapping>>)
    ensures r.Some? <==> TargetsLive(entries, live)
    ensures r.Some? ==> |r.value| == |entries|
                        && forall k | 0 <= k < |entries| :: r.value[k] == Mapping(entries[k].source, entries[k].target)
  {
    var targets: set<Ordinal>, ordinals: seq<Mapping> := {}, [];
    for i := 0 to |entries|
      invariant targets == set e | e in entries[..i] :: e.target
      invariant |ordinals| == i && forall k | 0 <= k < i :: ordinals[k] == Mapping(entries[k].source, entries[k].target)
      invariant TargetsLive(entries[..i], live)
    {
      var e := entries[i];
      assert entries[..i + 1] == entries[..i] + [e];
      if e.task !in live || live[e.task] != e.target { assert e in entries; return None; }
      if e.target in targets {
        ghost var d :| d in entries[..i] && d.target == e.target;
        ghost var j :| 0 <= j < i && entries[j] == d;
        return None;
      }
      forall j | 0 <= j < i ensures entries[j].target != e.target { assert entries[j] in entries[..i]; }
      targets, ordinals := targets + {e.target}, ordinals + [Mapping(e.source, e.target)];
    }
    assert entries[..|entries|] == entries;
    return Some(ordinals);
  }

  /** The migration a reviewed map stands for; what it yields, the native validator accepts and the prediction
      can follow. */
  method MigrationPlan(found: Option<TaskMap>, kind: Kind, fixed: map<Task, Ordinal>, live: map<Task, Ordinal>,
                       note: ObservedNote, targetModel: ModelId, targetName: string) returns (r: Option<Migration>)
    ensures r.Some? <==> found.Some? && ValidTaskMap(found.value.entries, fixed)
                         && Applicable(found.value, kind, live, note)
    ensures r.Some? ==>
              && ValidMigration(r) && !DropsCard(note, r) && r.value.sourceModel == note.mid
              && r.value.targetModel == targetModel && r.value.targetName == targetName
              && forall s, t :: Mapping(s, t) in r.value.ordinals
                                <==> exists e <- found.value.entries :: e.source == s && e.target == t
  {
    if found.None? { return None; }
    var entries := found.value.entries;
    var valid := CheckTaskMap(entries, fixed);
    if !valid || found.value.kind != kind || found.value.sourceModel != note.manifest { return None; }
    var ordinals := MapTargets(entries, live);
    if ordinals.None? { return None; }
    MapsLikeEntries(entries, ordinals.value);
    if exists c <- note.cards :: !Maps(ordinals.value, note.cards[c].ord) { return None; }
    r := Some(Migration(note.mid, targetModel, targetName, ordinals.value));
    MappingIsInjective(entries, fixed, live, ordinals.value);
  }

  lemma MappingIsInjective(entries: seq<TaskEntry>, fixed: map<Task, Ordinal>, live: map<Task, Ordinal>,
                           ordinals: seq<Mapping>)
    requires ValidTaskMap(entries, fixed) && TargetsLive(entries, live)
    requires |ordinals| == |entries|
             && forall k | 0 <= k < |entries| :: ordinals[k] == Mapping(entries[k].source, entries[k].target)
    ensures InjectiveMap(ordinals)
  {}

  lemma MapsLikeEntries(entries: seq<TaskEntry>, ordinals: seq<Mapping>)
    requires |ordinals| == |entries|
             && forall k | 0 <= k < |entries| :: ordinals[k] == Mapping(entries[k].source, entries[k].target)
    ensures forall o: Ordinal :: Maps(ordinals, o) <==> exists e <- entries :: e.source == o
    ensures forall s, t :: Mapping(s, t) in ordinals <==> exists e <- entries :: e.source == s && e.target == t
  {
    forall s, t ensures Mapping(s, t) in ordinals <==> exists e <- entries :: e.source == s && e.target == t {
      if Mapping(s, t) in ordinals {
        var k :| 0 <= k < |ordinals| && ordinals[k] == Mapping(s, t);
        assert entries[k] in entries;
      }
      if e :| e in entries && e.source == s && e.target == t {
        var k :| 0 <= k < |entries| && entries[k] == e;
        assert ordinals[k] == Mapping(s, t);
      }
    }
    forall o: Ordinal ensures Maps(ordinals, o) <==> exists e <- entries :: e.source == o {
      if Maps(ordinals, o) { var m :| m in ordinals && m.source == o; assert Mapping(m.source, m.target) in ordinals; }
      if e :| e in entries && e.source == o { assert Mapping(o, e.target) in ordinals; }
    }
  }
}
