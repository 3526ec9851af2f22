/**
  The parts of a kubelet pod description the scanner reads: the pod's
  identity (namespace, name, unique identifier) and the ordered statuses of
  its containers (node-unique identifier, pod-unique name).
 */
module Kubelet {
  datatype ContainerStatus = ContainerStatus(name: string, id: string)

  datatype PodMetadata = PodMetadata(name: string, namespace: string, uid: string)

  datatype PodStatus = PodStatus(containers: seq<ContainerStatus>)

  datatype Pod = Pod(metadata: PodMetadata, status: PodStatus)
}
