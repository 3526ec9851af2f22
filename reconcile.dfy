/**
  The reconciliation the scanner performs, as functions on values: the table
  from container identifier to registered source, and the registry calls an
  added or removed pod causes. Each registry call is recorded together with
  the container it was made for (a `Notice`), so that the life of every
  container can be read off the call history.

  The functions walk the containers from the back (the state after a prefix
  plus one more container), which is how a loop over the containers reaches
  each intermediate state.
 */
module Reconcile {
  import opened Wrappers
  import opened Kubelet
  import opened Tagger
  import opened Config
  import opened KubernetesSource

  type Table = map<string, LogSource>

  /** A registry call with the container identifier it was made for. */
  datatype Notice = Notice(containerID: string, call: Call)

  /** The table after a reconciliation, and the calls that reconciliation made. */
  datatype Step = Step(table: Table, notices: seq<Notice>)

  /** A pod event delivered by the pod provider. */
  datatype PodEvent = Added(pod: Pod) | Removed(pod: Pod)

  /** Where one container stands, replaying the calls made for it. */
  datatype TrackState = Absent | Tracked(source: LogSource) | Broken

  function IDs(containers: seq<ContainerStatus>): set<string>
  {
    set c | c in containers :: c.id
  }

  lemma IDsSnoc(containers: seq<ContainerStatus>, c: ContainerStatus)
    ensures IDs(containers + [c]) == IDs(containers) + {c.id}
  {
    assert forall d :: d in containers + [c] <==> d in containers || d == c;
  }

  /** The position of the first container carrying `id`. */
  function FirstIndex(containers: seq<ContainerStatus>, id: string): (i: nat)
    requires id in IDs(containers)
    ensures i < |containers| && containers[i].id == id
    ensures id !in IDs(containers[..i])
    decreases |containers|
  {
    var n := |containers|;
    var init := containers[..n - 1];
    assert containers == init + [containers[n - 1]];
    IDsSnoc(init, containers[n - 1]);
    if id in IDs(init) then
      var i := FirstIndex(init, id);
      assert containers[..i] == init[..i];
      i
    else
      n - 1
  }

  /** The registry calls, in order, that `notices` stand for. */
  function CallsOf(notices: seq<Notice>): (calls: seq<Call>)
    decreases |notices|
  {
    if notices == [] then []
    else CallsOf(notices[..|notices| - 1]) + [notices[|notices| - 1].call]
  }

  /** The calls, in order, made for container `id`. */
  function CallsFor(notices: seq<Notice>, id: string): seq<Call>
    decreases |notices|
  {
    if notices == [] then []
    else
      var last := notices[|notices| - 1];
      CallsFor(notices[..|notices| - 1], id) + (if last.containerID == id then [last.call] else [])
  }

  /**
    The life of one container: it starts absent, an addition makes it
    tracked by the added source, and a removal of exactly that source makes
    it absent again. Any other call breaks the discipline.
   */
  function ContainerState(calls: seq<Call>): TrackState
    decreases |calls|
  {
    if calls == [] then Absent
    else
      match (ContainerState(calls[..|calls| - 1]), calls[|calls| - 1])
      case (Absent, AddCall(s)) => Tracked(s)
      case (Tracked(s), RemoveCall(r)) => if s == r then Absent else Broken
      case _ => Broken
  }

  /** The state a table says container `id` is in. */
  function Expected(table: Table, id: string): TrackState
  {
    if id in table then Tracked(table[id]) else Absent
  }

  /** Every container's call history agrees with its entry in the table. */
  ghost predicate Reconciled(table: Table, trace: seq<Notice>)
  {
    forall id :: ContainerState(CallsFor(trace, id)) == Expected(table, id)
  }

  /** The table's sources, counted with multiplicity. */
  ghost function Values(table: Table): multiset<LogSource>
    decreases |table.Keys|
  {
    if table == map[] then multiset{}
    else
      var k :| k in table;
      assert (table - {k}).Keys == table.Keys - {k};
      Values(table - {k}) + multiset{table[k]}
  }

  /**
    The two invariants the scanner keeps: each container's call history
    agrees with its entry, and the live sources are exactly the table's.
   */
  ghost predicate Invariants(table: Table, trace: seq<Notice>)
  {
    Reconciled(table, trace) && Live(CallsOf(trace)) == Values(table)
  }

  /** How a pod's containers become descriptors. */
  type Builder = ContainerStatus -> LogSource

  /** The descriptors of the containers of `pod`, with tags from `tagger`. */
  function PodBuilder(pod: Pod, tagger: Tagger): Builder
  {
    c => GetSource(pod, c, tagger)
  }

  /**
    One container of an added pod: if it is not tracked yet, its descriptor
    is built with `build`, stored, and added to the registry.
   */
  function AddOne(prev: Step, c: ContainerStatus, build: Builder): Step
  {
    if c.id in prev.table then prev
    else
      var source := build(c);
      Step(prev.table[c.id := source], prev.notices + [Notice(c.id, AddCall(source))])
  }

  /** The reconciliation of an added pod, over its containers `containers`. */
  function AddContainers(table: Table, containers: seq<ContainerStatus>, build: Builder): Step
    decreases |containers|
  {
    if containers == [] then Step(table, [])
    else AddOne(AddContainers(table, containers[..|containers| - 1], build), containers[|containers| - 1], build)
  }

  /**
    One container of a removed pod: if it is tracked, its entry is deleted
    and the stored source is removed from the registry.
   */
  function RemoveOne(prev: Step, c: ContainerStatus): Step
  {
    if c.id in prev.table then
      Step(prev.table - {c.id}, prev.notices + [Notice(c.id, RemoveCall(prev.table[c.id]))])
    else prev
  }

  /** The reconciliation of a removed pod, over its containers `containers`. */
  function RemoveContainers(table: Table, containers: seq<ContainerStatus>): Step
    decreases |containers|
  {
    if containers == [] then Step(table, [])
    else RemoveOne(RemoveContainers(table, containers[..|containers| - 1]), containers[|containers| - 1])
  }

  /** Handling one pod event. */
  function HandleEvent(table: Table, event: PodEvent, tagger: Tagger): Step
  {
    match event
    case Added(pod) => AddContainers(table, pod.status.containers, PodBuilder(pod, tagger))
    case Removed(pod) => RemoveContainers(table, pod.status.containers)
  }

  /** Handling a sequence of pod events, one after another. */
  function ProcessEvents(table: Table, events: seq<PodEvent>, tagger: Tagger): Step
    decreases |events|
  {
    if events == [] then Step(table, [])
    else
      var prev := ProcessEvents(table, events[..|events| - 1], tagger);
      var step := HandleEvent(prev.table, events[|events| - 1], tagger);
      Step(step.table, prev.notices + step.notices)
  }

  // Sequences of notices and calls

  lemma {:induction false} CallsOfAppend(a: seq<Notice>, b: seq<Notice>)
    ensures CallsOf(a + b) == CallsOf(a) + CallsOf(b)
    decreases |b|
  {
    if b == [] {
      assert a + b == a;
    } else {
      var init := b[..|b| - 1];
      assert (a + b)[..|a + b| - 1] == a + init;
      CallsOfAppend(a, init);
    }
  }

  /** A registry log and a trace, each extended by one more notice. */
  lemma RecordSnoc(calls: seq<Call>, trace: seq<Notice>, notices: seq<Notice>, notice: Notice)
    ensures trace + notices + [notice] == trace + (notices + [notice])
    ensures calls + CallsOf(notices) + [notice.call] == calls + CallsOf(notices + [notice])
  {
    CallsOfSnoc(notices, notice);
  }

  /** A registry log and a trace, each extended by two batches of notices in order. */
  lemma RecordAppend(calls: seq<Call>, trace: seq<Notice>, a: seq<Notice>, b: seq<Notice>)
    ensures trace + a + b == trace + (a + b)
    ensures calls + CallsOf(a) + CallsOf(b) == calls + CallsOf(a + b)
  {
    CallsOfAppend(a, b);
    ConcatAssoc(trace, a, b);
    ConcatAssoc(calls, CallsOf(a), CallsOf(b));
  }

  lemma ConcatAssoc<T>(x: seq<T>, y: seq<T>, z: seq<T>)
    ensures x + y + z == x + (y + z)
  {
  }

  lemma {:induction false} CallsForAppend(a: seq<Notice>, b: seq<Notice>, id: string)
    ensures CallsFor(a + b, id) == CallsFor(a, id) + CallsFor(b, id)
    decreases |b|
  {
    if b == [] {
      assert a + b == a;
    } else {
      var init := b[..|b| - 1];
      assert (a + b)[..|a + b| - 1] == a + init;
      CallsForAppend(a, init, id);
    }
  }

  lemma CallsOfSnoc(notices: seq<Notice>, notice: Notice)
    ensures CallsOf(notices + [notice]) == CallsOf(notices) + [notice.call]
  {
    assert (notices + [notice])[..|notices|] == notices;
  }

  lemma LiveAdd(calls: seq<Call>, source: LogSource)
    ensures Live(calls + [AddCall(source)]) == Live(calls) + multiset{source}
  {
    assert (calls + [AddCall(source)])[..|calls|] == calls;
  }

  lemma LiveRemove(calls: seq<Call>, source: LogSource)
    ensures Live(calls + [RemoveCall(source)]) == Live(calls) - multiset{source}
  {
    assert (calls + [RemoveCall(source)])[..|calls|] == calls;
  }

  /** A container whose history is in order holds no source, or exactly the one it is tracked by. */
  lemma {:induction false} StateLive(calls: seq<Call>)
    requires ContainerState(calls) != Broken
    ensures ContainerState(calls) == Absent ==> Live(calls) == multiset{}
    ensures ContainerState(calls).Tracked? ==> Live(calls) == multiset{ContainerState(calls).source}
    decreases |calls|
  {
    if calls != [] {
      StateLive(calls[..|calls| - 1]);
    }
  }

  // The multiset of a table's sources

  lemma {:induction false} ValuesPick(table: Table, k: string)
    requires k in table
    ensures Values(table) == Values(table - {k}) + multiset{table[k]}
    decreases |table.Keys|
  {
    var j :| j in table && Values(table) == Values(table - {j}) + multiset{table[j]};
    if j != k {
      var withoutJ, withoutK := table - {j}, table - {k};
      var core := withoutJ - {k};
      assert withoutJ.Keys == table.Keys - {j};
      assert withoutK.Keys == table.Keys - {k};
      assert core == withoutK - {j};
      ValuesPick(withoutJ, k);
      ValuesPick(withoutK, j);
      assert Values(withoutJ) == Values(core) + multiset{table[k]};
      assert Values(withoutK) == Values(core) + multiset{table[j]};
    }
  }

  lemma ValuesInsert(table: Table, k: string, source: LogSource)
    requires k !in table
    ensures Values(table[k := source]) == Values(table) + multiset{source}
  {
    ValuesPick(table[k := source], k);
    assert table[k := source] - {k} == table;
  }

  lemma ValuesRemove(table: Table, k: string)
    requires k in table
    ensures Values(table - {k}) == Values(table) - multiset{table[k]}
  {
    ValuesPick(table, k);
  }

  // Adding a pod

  /**
    After an added pod, container `id` is in the table exactly when it was
    already there or is a container of the pod; an entry already present
    keeps its source; a new entry holds the descriptor built for the first
    container of the pod with that identifier.
   */
  lemma {:induction false} AddEntry(table: Table, containers: seq<ContainerStatus>, build: Builder, id: string)
    ensures var r := AddContainers(table, containers, build).table;
            && (id in r <==> id in table || id in IDs(containers))
            && (id in table ==> r[id] == table[id])
            && (id in r && id !in table ==> r[id] == build(containers[FirstIndex(containers, id)]))
    decreases |containers|
  {
    if containers != [] {
      var n := |containers|;
      var init, c := containers[..n - 1], containers[n - 1];
      assert containers == init + [c];
      IDsSnoc(init, c);
      AddEntry(table, init, build, id);
      if id in IDs(init) {
        assert FirstIndex(containers, id) == FirstIndex(init, id);
      }
    }
  }

  /**
    An added pod makes exactly one registry addition for container `id` if
    it was not tracked and is in the pod, with the descriptor stored for it,
    and no call for it otherwise.
   */
  lemma {:induction false} AddCalls(table: Table, containers: seq<ContainerStatus>, build: Builder, id: string)
    ensures var r := AddContainers(table, containers, build);
            CallsFor(r.notices, id) == if id in r.table && id !in table then [AddCall(r.table[id])] else []
    decreases |containers|
  {
    if containers != [] {
      var n := |containers|;
      var init, c := containers[..n - 1], containers[n - 1];
      var prev := AddContainers(table, init, build);
      AddCalls(table, init, build, id);
      AddOneCalls(prev, c, build, id);
      var r := AddOne(prev, c, build);
      if c.id == id && id !in prev.table {
        if id in table {
          AddKeepsEntry(table, init, build, id);
        }
        assert r.table[id] == build(c) && id !in table;
      } else {
        assert (id in r.table && id !in table) == (id in prev.table && id !in table);
        assert id in r.table ==> r.table[id] == prev.table[id];
      }
    }
  }

  /** An entry already in the table survives an added pod unchanged. */
  lemma {:induction false} AddKeepsEntry(table: Table, containers: seq<ContainerStatus>, build: Builder, id: string)
    requires id in table
    ensures var r := AddContainers(table, containers, build).table;
            id in r && r[id] == table[id]
    decreases |containers|
  {
    if containers != [] {
      AddKeepsEntry(table, containers[..|containers| - 1], build, id);
    }
  }

  lemma AddOneCalls(prev: Step, c: ContainerStatus, build: Builder, id: string)
    ensures CallsFor(AddOne(prev, c, build).notices, id)
         == CallsFor(prev.notices, id) + (if c.id == id && id !in prev.table then [AddCall(build(c))] else [])
  {
    if c.id !in prev.table {
      var notice := Notice(c.id, AddCall(build(c)));
      assert (prev.notices + [notice])[..|prev.notices|] == prev.notices;
    }
  }

  /** A pod whose containers are all tracked changes nothing and makes no call. */
  lemma {:induction false} AddTrackedIsNoop(table: Table, containers: seq<ContainerStatus>, build: Builder)
    requires IDs(containers) <= table.Keys
    ensures AddContainers(table, containers, build) == Step(table, [])
    decreases |containers|
  {
    if containers != [] {
      var n := |containers|;
      var init, c := containers[..n - 1], containers[n - 1];
      assert containers == init + [c];
      IDsSnoc(init, c);
      AddTrackedIsNoop(table, init, build);
    }
  }

  /** Adding the same pod twice: the second addition changes nothing and makes no call. */
  lemma AddIdempotent(table: Table, containers: seq<ContainerStatus>, build: Builder)
    ensures var r := AddContainers(table, containers, build);
            AddContainers(r.table, containers, build) == Step(r.table, [])
  {
    var r := AddContainers(table, containers, build);
    forall id | id in IDs(containers)
      ensures id in r.table
    {
      AddEntry(table, containers, build, id);
    }
    AddTrackedIsNoop(r.table, containers, build);
  }

  /**
    A container whose tag lookup fails still gets its source: when the
    tagger answers with an error and no tags, an added pod that brings the
    untracked container `c` registers exactly one source for it, a file
    source with no tags.
   */
  lemma AddDespiteTagError(table: Table, pod: Pod, tagger: Tagger, c: ContainerStatus, reason: string)
    requires c in pod.status.containers && c.id !in table
    requires tagger(c.id, true) == TagReply([], Some(reason))
    ensures var r := AddContainers(table, pod.status.containers, PodBuilder(pod, tagger));
            && c.id in r.table
            && CallsFor(r.notices, c.id) == [AddCall(r.table[c.id])]
            && r.table[c.id].config.kind == FileType
            && r.table[c.id].config.tags == []
  {
    var containers := pod.status.containers;
    AddEntry(table, containers, PodBuilder(pod, tagger), c.id);
    AddCalls(table, containers, PodBuilder(pod, tagger), c.id);
    var first := containers[FirstIndex(containers, c.id)];
    assert first.id == c.id;
  }

  // Removing a pod

  /**
    After a removed pod, container `id` is in the table exactly when it was
    there and is not a container of the pod, with its source unchanged.
   */
  lemma {:induction false} RemoveEntry(table: Table, containers: seq<ContainerStatus>, id: string)
    ensures var r := RemoveContainers(table, containers).table;
            && (id in r <==> id in table && id !in IDs(containers))
            && (id in r ==> r[id] == table[id])
    decreases |containers|
  {
    if containers != [] {
      var n := |containers|;
      var init, c := containers[..n - 1], containers[n - 1];
      assert containers == init + [c];
      IDsSnoc(init, c);
      RemoveEntry(table, init, id);
    }
  }

  lemma RemoveOneCalls(prev: Step, c: ContainerStatus, id: string)
    ensures CallsFor(RemoveOne(prev, c).notices, id)
         == CallsFor(prev.notices, id) + (if c.id == id && id in prev.table then [RemoveCall(prev.table[id])] else [])
  {
    if c.id in prev.table {
      var notice := Notice(c.id, RemoveCall(prev.table[c.id]));
      assert (prev.notices + [notice])[..|prev.notices|] == prev.notices;
    }
  }

  /**
    A removed pod makes exactly one registry removal for container `id` if
    it was tracked and is in the pod, with the source that was stored for
    it, and no call for it otherwise.
   */
  lemma {:induction false} RemoveCalls(table: Table, containers: seq<ContainerStatus>, id: string)
    ensures var r := RemoveContainers(table, containers);
            CallsFor(r.notices, id) == if id in table && id in IDs(containers) then [RemoveCall(table[id])] else []
    decreases |containers|
  {
    if containers != [] {
      var n := |containers|;
      var init, c := containers[..n - 1], containers[n - 1];
      assert containers == init + [c];
      IDsSnoc(init, c);
      RemoveCalls(table, init, id);
      RemoveEntry(table, init, id);
      RemoveOneCalls(RemoveContainers(table, init), c, id);
    }
  }

  /** A pod none of whose containers is tracked changes nothing and makes no call. */
  lemma {:induction false} RemoveUntrackedIsNoop(table: Table, containers: seq<ContainerStatus>)
    requires IDs(containers) !! table.Keys
    ensures RemoveContainers(table, containers) == Step(table, [])
    decreases |containers|
  {
    if containers != [] {
      var n := |containers|;
      var init, c := containers[..n - 1], containers[n - 1];
      assert containers == init + [c];
      IDsSnoc(init, c);
      RemoveUntrackedIsNoop(table, init);
    }
  }

  /** Removing the same pod twice: the second removal changes nothing and makes no call. */
  lemma RemoveIdempotent(table: Table, containers: seq<ContainerStatus>)
    ensures var r := RemoveContainers(table, containers);
            RemoveContainers(r.table, containers) == Step(r.table, [])
  {
    var r := RemoveContainers(table, containers);
    forall id | id in IDs(containers)
      ensures id !in r.table
    {
      RemoveEntry(table, containers, id);
    }
    RemoveUntrackedIsNoop(r.table, containers);
  }

  // Adding and then removing a pod

  /**
    Removing a pod right after adding it leaves exactly the entries of the
    containers outside the pod, as they were before the addition.
   */
  lemma AddThenRemove(table: Table, containers: seq<ContainerStatus>, build: Builder)
    ensures RemoveContainers(AddContainers(table, containers, build).table, containers).table
         == map id | id in table && id !in IDs(containers) :: table[id]
  {
    var added := AddContainers(table, containers, build).table;
    var removed := RemoveContainers(added, containers).table;
    forall id
      ensures id in removed <==> id in table && id !in IDs(containers)
      ensures id in removed ==> removed[id] == table[id]
    {
      AddEntry(table, containers, build, id);
      RemoveEntry(added, containers, id);
    }
  }

  // The invariants every event keeps

  lemma AddKeepsReconciled(table: Table, trace: seq<Notice>, containers: seq<ContainerStatus>, build: Builder)
    requires Reconciled(table, trace)
    ensures var r := AddContainers(table, containers, build);
            Reconciled(r.table, trace + r.notices)
  {
    var r := AddContainers(table, containers, build);
    forall id
      ensures ContainerState(CallsFor(trace + r.notices, id)) == Expected(r.table, id)
    {
      AddEntry(table, containers, build, id);
      AddCalls(table, containers, build, id);
      CallsForAppend(trace, r.notices, id);
      var history := CallsFor(trace, id);
      assert ContainerState(history) == Expected(table, id);
      if id in r.table && id !in table {
        assert (history + [AddCall(r.table[id])])[..|history|] == history;
      } else {
        assert history + [] == history;
      }
    }
  }

  lemma RemoveKeepsReconciled(table: Table, trace: seq<Notice>, containers: seq<ContainerStatus>)
    requires Reconciled(table, trace)
    ensures var r := RemoveContainers(table, containers);
            Reconciled(r.table, trace + r.notices)
  {
    var r := RemoveContainers(table, containers);
    forall id
      ensures ContainerState(CallsFor(trace + r.notices, id)) == Expected(r.table, id)
    {
      RemoveEntry(table, containers, id);
      RemoveCalls(table, containers, id);
      CallsForAppend(trace, r.notices, id);
      var history := CallsFor(trace, id);
      assert ContainerState(history) == Expected(table, id);
      if id in table && id in IDs(containers) {
        assert (history + [RemoveCall(table[id])])[..|history|] == history;
      } else {
        assert history + [] == history;
      }
    }
  }

  lemma AddOneKeepsLive(prev: Step, trace: seq<Notice>, c: ContainerStatus, build: Builder)
    requires Live(CallsOf(trace + prev.notices)) == Values(prev.table)
    ensures var r := AddOne(prev, c, build);
            Live(CallsOf(trace + r.notices)) == Values(r.table)
  {
    if c.id !in prev.table {
      var notice := Notice(c.id, AddCall(build(c)));
      var done := trace + prev.notices;
      assert trace + (prev.notices + [notice]) == done + [notice];
      CallsOfSnoc(done, notice);
      LiveAdd(CallsOf(done), build(c));
      ValuesInsert(prev.table, c.id, build(c));
    }
  }

  lemma RemoveOneKeepsLive(prev: Step, trace: seq<Notice>, c: ContainerStatus)
    requires Live(CallsOf(trace + prev.notices)) == Values(prev.table)
    ensures var r := RemoveOne(prev, c);
            Live(CallsOf(trace + r.notices)) == Values(r.table)
  {
    if c.id in prev.table {
      var source := prev.table[c.id];
      var notice := Notice(c.id, RemoveCall(source));
      var done := trace + prev.notices;
      assert trace + (prev.notices + [notice]) == done + [notice];
      CallsOfSnoc(done, notice);
      LiveRemove(CallsOf(done), source);
      ValuesRemove(prev.table, c.id);
    }
  }

  lemma {:induction false} AddKeepsLive(table: Table, trace: seq<Notice>, containers: seq<ContainerStatus>, build: Builder)
    requires Live(CallsOf(trace)) == Values(table)
    ensures var r := AddContainers(table, containers, build);
            Live(CallsOf(trace + r.notices)) == Values(r.table)
    decreases |containers|
  {
    if containers == [] {
      assert trace + [] == trace;
    } else {
      var init := containers[..|containers| - 1];
      AddKeepsLive(table, trace, init, build);
      AddOneKeepsLive(AddContainers(table, init, build), trace, containers[|containers| - 1], build);
    }
  }

  lemma {:induction false} RemoveKeepsLive(table: Table, trace: seq<Notice>, containers: seq<ContainerStatus>)
    requires Live(CallsOf(trace)) == Values(table)
    ensures var r := RemoveContainers(table, containers);
            Live(CallsOf(trace + r.notices)) == Values(r.table)
    decreases |containers|
  {
    if containers == [] {
      assert trace + [] == trace;
    } else {
      var init := containers[..|containers| - 1];
      RemoveKeepsLive(table, trace, init);
      RemoveOneKeepsLive(RemoveContainers(table, init), trace, containers[|containers| - 1]);
    }
  }

  /** Adding a pod's containers keeps both invariants. */
  lemma AddKeepsInvariants(table: Table, trace: seq<Notice>, containers: seq<ContainerStatus>, build: Builder)
    requires Invariants(table, trace)
    ensures var r := AddContainers(table, containers, build);
            Invariants(r.table, trace + r.notices)
  {
    AddKeepsReconciled(table, trace, containers, build);
    AddKeepsLive(table, trace, containers, build);
  }

  /** Removing a pod's containers keeps both invariants. */
  lemma RemoveKeepsInvariants(table: Table, trace: seq<Notice>, containers: seq<ContainerStatus>)
    requires Invariants(table, trace)
    ensures var r := RemoveContainers(table, containers);
            Invariants(r.table, trace + r.notices)
  {
    RemoveKeepsReconciled(table, trace, containers);
    RemoveKeepsLive(table, trace, containers);
  }

  /** One pod event keeps both invariants. */
  lemma HandleEventKeepsInvariants(table: Table, trace: seq<Notice>, event: PodEvent, tagger: Tagger)
    requires Invariants(table, trace)
    ensures var r := HandleEvent(table, event, tagger);
            Invariants(r.table, trace + r.notices)
  {
    match event
    case Added(pod) =>
      AddKeepsInvariants(table, trace, pod.status.containers, PodBuilder(pod, tagger));
    case Removed(pod) =>
      RemoveKeepsInvariants(table, trace, pod.status.containers);
  }

  /**
    Over any sequence of pod events, the registry's live sources stay
    exactly the table's sources, and every container's call history stays in
    step with its table entry.
   */
  lemma {:induction false} ProcessEventsKeepsInvariants(table: Table, trace: seq<Notice>, events: seq<PodEvent>, tagger: Tagger)
    requires Invariants(table, trace)
    ensures var r := ProcessEvents(table, events, tagger);
            Invariants(r.table, trace + r.notices)
    decreases |events|
  {
    if events == [] {
      assert trace + [] == trace;
    } else {
      var init, event := events[..|events| - 1], events[|events| - 1];
      var prev := ProcessEvents(table, init, tagger);
      var step := HandleEvent(prev.table, event, tagger);
      assert ProcessEvents(table, events, tagger).notices == prev.notices + step.notices;
      assert trace + (prev.notices + step.notices) == (trace + prev.notices) + step.notices;
      ProcessEventsKeepsInvariants(table, trace, init, tagger);
      HandleEventKeepsInvariants(prev.table, trace + prev.notices, event, tagger);
    }
  }

  /**
    No container ever has two live sources: the sources live in the registry
    for one container are its table entry's source, or none.
   */
  lemma AtMostOneLive(table: Table, trace: seq<Notice>, id: string)
    requires Reconciled(table, trace)
    ensures Live(CallsFor(trace, id)) == if id in table then multiset{table[id]} else multiset{}
    ensures |Live(CallsFor(trace, id))| <= 1
  {
    assert ContainerState(CallsFor(trace, id)) == Expected(table, id);
    StateLive(CallsFor(trace, id));
  }
}
