/**
  The Kubernetes scanner: it keeps one log source per running container.
  Added pods register a source for each container not yet tracked, removed
  pods unregister the source of each tracked container, and the table
  `sourcesByContainer` records which source each container holds.
 */
module KubernetesScanner {
  import opened Kubelet
  import opened Tagger
  import opened Config
  import opened KubernetesSource
  import opened Reconcile

  class Scanner {
    /** The registry the scanner adds sources to and removes them from. */
    const sources: LogSources
    /** The source registered for each tracked container identifier. */
    var sourcesByContainer: Table
    /** The calls the registry had received before this scanner was made. */
    ghost const before: seq<Call>
    /** Every registry call this scanner made, with the container it was made for. */
    ghost var trace: seq<Notice>

    /**
      The registry has received exactly the scanner's calls since the
      scanner was made; of those, the sources still live are exactly the
      table's sources; and each container's calls agree with its entry.
     */
    ghost predicate Valid()
      reads this, sources
    {
      sources.calls == before + CallsOf(trace) && Invariants(sourcesByContainer, trace)
    }

    constructor (sources: LogSources)
      ensures this.sources == sources && Valid()
      ensures sourcesByContainer == map[] && trace == [] && before == sources.calls
    {
      this.sources := sources;
      sourcesByContainer := map[];
      before := sources.calls;
      trace := [];
    }

    /** Registers a log source for each container of `pod` that is not tracked yet. */
    method AddSources(pod: Pod, tagger: Tagger)
      requires Valid()
      modifies this, sources
      ensures Valid()
      ensures var r := AddContainers(old(sourcesByContainer), pod.status.containers, PodBuilder(pod, tagger));
              && sourcesByContainer == r.table
              && trace == old(trace) + r.notices
              && sources.calls == old(sources.calls) + CallsOf(r.notices)
      ensures forall c :: c in pod.status.containers ==> c.id in sourcesByContainer
      ensures forall id :: id in old(sourcesByContainer) ==>
                id in sourcesByContainer && sourcesByContainer[id] == old(sourcesByContainer)[id]
      ensures forall id :: id !in IDs(pod.status.containers) ==>
                (id in sourcesByContainer <==> id in old(sourcesByContainer))
    {
      ghost var table, notices := sourcesByContainer, trace;
      var containers := pod.status.containers;
      ghost var build := PodBuilder(pod, tagger);
      for i := 0 to |containers|
        invariant var r := AddContainers(table, containers[..i], build);
                  && sourcesByContainer == r.table
                  && trace == notices + r.notices
                  && sources.calls == old(sources.calls) + CallsOf(r.notices)
      {
        assert containers[..i + 1][..i] == containers[..i];
        ghost var prev := AddContainers(table, containers[..i], build);
        var container := containers[i];
        var containerID := container.id;
        if containerID in sourcesByContainer {
          continue;
        }
        var source := GetSource(pod, container, tagger);
        assert source == build(container);
        sourcesByContainer := sourcesByContainer[containerID := source];
        sources.AddSource(source);
        RecordSnoc(old(sources.calls), notices, prev.notices, Notice(containerID, AddCall(source)));
        trace := trace + [Notice(containerID, AddCall(source))];
      }
      assert containers[..|containers|] == containers;
      ghost var r := AddContainers(table, containers, build);
      AddKeepsInvariants(table, notices, containers, build);
      RecordAppend(before, notices, notices, r.notices);
      forall id
        ensures id in sourcesByContainer <==> id in table || id in IDs(containers)
        ensures id in table ==> sourcesByContainer[id] == table[id]
      {
        AddEntry(table, containers, build, id);
      }
    }

    /** Unregisters the log source of each container of `pod` that is tracked. */
    method RemoveSources(pod: Pod)
      requires Valid()
      modifies this, sources
      ensures Valid()
      ensures var r := RemoveContainers(old(sourcesByContainer), pod.status.containers);
              && sourcesByContainer == r.table
              && trace == old(trace) + r.notices
              && sources.calls == old(sources.calls) + CallsOf(r.notices)
      ensures forall c :: c in pod.status.containers ==> c.id !in sourcesByContainer
      ensures forall id :: id !in IDs(pod.status.containers) ==>
                (id in sourcesByContainer <==> id in old(sourcesByContainer))
      ensures forall id :: id in sourcesByContainer ==> sourcesByContainer[id] == old(sourcesByContainer)[id]
    {
      ghost var table, notices := sourcesByContainer, trace;
      var containers := pod.status.containers;
      for i := 0 to |containers|
        invariant var r := RemoveContainers(table, containers[..i]);
                  && sourcesByContainer == r.table
                  && trace == notices + r.notices
                  && sources.calls == old(sources.calls) + CallsOf(r.notices)
      {
        assert containers[..i + 1][..i] == containers[..i];
        ghost var prev := RemoveContainers(table, containers[..i]);
        var containerID := containers[i].id;
        if containerID in sourcesByContainer {
          var source := sourcesByContainer[containerID];
          sourcesByContainer := sourcesByContainer - {containerID};
          sources.RemoveSource(source);
          RecordSnoc(old(sources.calls), notices, prev.notices, Notice(containerID, RemoveCall(source)));
          trace := trace + [Notice(containerID, RemoveCall(source))];
        }
      }
      assert containers[..|containers|] == containers;
      ghost var r := RemoveContainers(table, containers);
      RemoveKeepsInvariants(table, notices, containers);
      RecordAppend(before, notices, notices, r.notices);
      forall id
        ensures id in sourcesByContainer <==> id in table && id !in IDs(containers)
        ensures id in sourcesByContainer ==> sourcesByContainer[id] == table[id]
      {
        RemoveEntry(table, containers, id);
      }
    }

    /**
      Handles pod events one after another, as they arrive: an added pod
      registers sources, a removed pod unregisters them.
     */
    method Run(events: seq<PodEvent>, tagger: Tagger)
      requires Valid()
      modifies this, sources
      ensures Valid()
      ensures var r := ProcessEvents(old(sourcesByContainer), events, tagger);
              && sourcesByContainer == r.table
              && trace == old(trace) + r.notices
              && sources.calls == old(sources.calls) + CallsOf(r.notices)
    {
      for i := 0 to |events|
        invariant Valid()
        invariant var r := ProcessEvents(old(sourcesByContainer), events[..i], tagger);
                  && sourcesByContainer == r.table
                  && trace == old(trace) + r.notices
                  && sources.calls == old(sources.calls) + CallsOf(r.notices)
      {
        assert events[..i + 1][..i] == events[..i];
        ghost var prev := ProcessEvents(old(sourcesByContainer), events[..i], tagger);
        ghost var step := HandleEvent(sourcesByContainer, events[i], tagger);
        assert ProcessEvents(old(sourcesByContainer), events[..i + 1], tagger)
            == Step(step.table, prev.notices + step.notices);
        match events[i] {
          case Added(pod) =>
            AddSources(pod, tagger);
          case Removed(pod) =>
            RemoveSources(pod);
        }
        assert && sourcesByContainer == step.table
               && trace == old(trace) + prev.notices + step.notices
               && sources.calls == old(sources.calls) + CallsOf(prev.notices) + CallsOf(step.notices);
        RecordAppend(old(sources.calls), old(trace), prev.notices, step.notices);
      }
      assert events[..|events|] == events;
    }
  }
}
