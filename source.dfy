/**
  Building the log-source descriptor for one container of a pod: its name
  `namespace/pod/container`, the path pattern of its log files under the
  per-pod log directory, the fixed file type and integration labels, and the
  tags the tagger reports for the container.
 */
module KubernetesSource {
  import opened Wrappers
  import opened Kubelet
  import opened Tagger
  import opened Config
  import opened Strings

  /** The directory under which the kubelet keeps one log tree per pod. */
  const PodsDirectoryPath: string := "/var/log/pods"

  /** The name of the integration, used as both source and service. */
  const KubernetesIntegration: string := "kubernetes"

  function GetSourceName(pod: Pod, container: ContainerStatus): string
  {
    pod.metadata.namespace + "/" + pod.metadata.name + "/" + container.name
  }

  function GetPath(pod: Pod, container: ContainerStatus): string
  {
    PodsDirectoryPath + "/" + pod.metadata.uid + "/" + container.name + "/*.log"
  }

  /** The tagger's tags for the container, asked with high cardinality; its error is dropped. */
  function GetTags(container: ContainerStatus, tagger: Tagger): seq<string>
  {
    tagger(container.id, true).tags
  }

  function GetSource(pod: Pod, container: ContainerStatus, tagger: Tagger): (source: LogSource)
    ensures source.config.kind == FileType
    ensures source.config.source == KubernetesIntegration
    ensures source.config.service == KubernetesIntegration
    ensures source.config.tags == tagger(container.id, true).tags
  {
    LogSource(
      GetSourceName(pod, container),
      LogsConfig(FileType, GetPath(pod, container), KubernetesIntegration, KubernetesIntegration,
                 GetTags(container, tagger)))
  }

  /** Kubernetes object names and identifiers never contain a slash. */
  predicate PlainNames(pod: Pod, container: ContainerStatus)
  {
    && '/' !in pod.metadata.namespace
    && '/' !in pod.metadata.name
    && '/' !in pod.metadata.uid
    && '/' !in container.name
  }

  /**
    The source name is namespace, pod name and container name joined by
    slashes, and splits back into exactly those three.
   */
  lemma SourceNameParts(pod: Pod, container: ContainerStatus)
    requires PlainNames(pod, container)
    ensures GetSourceName(pod, container)
         == Join([pod.metadata.namespace, pod.metadata.name, container.name], '/')
    ensures Split(GetSourceName(pod, container), '/')
         == [pod.metadata.namespace, pod.metadata.name, container.name]
  {
    var parts := [pod.metadata.namespace, pod.metadata.name, container.name];
    assert parts[1..][1..] == parts[2..];
    assert Join(parts[1..], '/') == pod.metadata.name + ['/'] + container.name;
    SplitJoin(parts, '/');
  }

  /**
    The path is the pods directory, the pod's unique identifier, the
    container name and the pattern of its log files, joined by slashes.
   */
  lemma PathIsJoin(pod: Pod, container: ContainerStatus)
    ensures GetPath(pod, container)
         == Join(["", "var", "log", "pods", pod.metadata.uid, container.name, "*.log"], '/')
  {
    var directory := ["", "var", "log", "pods"];
    var pieces := [pod.metadata.uid, container.name, "*.log"];
    PodsDirectoryIsJoin();
    var file := container.name + "/*.log";
    var tail := "/" + pod.metadata.uid + "/" + file;
    assert pieces[1..][1..] == pieces[2..];
    assert Join(pieces[1..], '/') == file by {
      assert "/*.log" == ['/'] + "*.log";
    }
    assert "/" + Join(pieces, '/') == tail;
    JoinAppend(directory, pieces, '/');
    assert directory + pieces == ["", "var", "log", "pods", pod.metadata.uid, container.name, "*.log"];
    assert GetPath(pod, container) == PodsDirectoryPath + tail;
  }

  /** The pods directory is the root followed by `var`, `log` and `pods`. */
  lemma PodsDirectoryIsJoin()
    ensures PodsDirectoryPath == Join(["", "var", "log", "pods"], '/')
  {
    var directory := ["", "var", "log", "pods"];
    assert directory[1..][1..] == directory[2..];
    assert directory[2..][1..] == directory[3..];
    assert Join(directory[2..], '/') == "log/pods";
    assert Join(directory[1..], '/') == "var/log/pods";
  }

  /**
    With slash-free names, the path splits back into exactly the pieces it
    was joined from.
   */
  lemma PathParts(pod: Pod, container: ContainerStatus)
    requires PlainNames(pod, container)
    ensures Split(GetPath(pod, container), '/')
         == ["", "var", "log", "pods", pod.metadata.uid, container.name, "*.log"]
  {
    PathIsJoin(pod, container);
    SplitJoin(["", "var", "log", "pods", pod.metadata.uid, container.name, "*.log"], '/');
  }

  /**
    Distinct containers get distinct descriptors: equal descriptors come from
    the same namespace, pod name, pod instance and container name.
   */
  lemma SourceIdentifiesContainer(pod1: Pod, c1: ContainerStatus, t1: Tagger,
                                  pod2: Pod, c2: ContainerStatus, t2: Tagger)
    requires PlainNames(pod1, c1) && PlainNames(pod2, c2)
    requires GetSource(pod1, c1, t1) == GetSource(pod2, c2, t2)
    ensures pod1.metadata.namespace == pod2.metadata.namespace
    ensures pod1.metadata.name == pod2.metadata.name
    ensures pod1.metadata.uid == pod2.metadata.uid
    ensures c1.name == c2.name
  {
    SourceNameParts(pod1, c1);
    SourceNameParts(pod2, c2);
    PathParts(pod1, c1);
    PathParts(pod2, c2);
  }

  /**
    A tagger error changes nothing: two tagger replies with the same tags
    give the same descriptor, whatever their errors.
   */
  lemma TagErrorIgnored(pod: Pod, container: ContainerStatus, t1: Tagger, t2: Tagger)
    requires t1(container.id, true).tags == t2(container.id, true).tags
    ensures GetSource(pod, container, t1) == GetSource(pod, container, t2)
  {
  }

  /** The descriptor built for container `nginx` (id `c1`) of pod `default/web-0` (uid `abc123`). */
  lemma ExampleDescriptor(tagger: Tagger)
    requires tagger("c1", true) == TagReply([], Some("tagger unavailable"))
    ensures var nginx := ContainerStatus("nginx", "c1");
            var source := GetSource(Pod(PodMetadata("web-0", "default", "abc123"), PodStatus([nginx])),
                                    nginx, tagger);
            && source.name == "default/web-0/nginx"
            && source.config.path == "/var/log/pods/abc123/nginx/*.log"
            && source.config.kind == "file"
            && source.config.tags == []
  {
  }
}
