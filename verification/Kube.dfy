/** The parts of the Kubernetes API objects that the controller reads or edits, as values. */
module Kube {

  datatype Option<+T> = None | Some(value: T)

  /** Where a variable without a literal value comes from: the downward API, or any other source. */
  datatype ValueSource = FieldRef(path: string) | OtherSource(id: string)

  datatype EnvVar = EnvVar(name: string, value: string, valueFrom: Option<ValueSource>)

  datatype VolumeSource =
    | EmptyDir(sizeLimit: string)
    | ImageSource(reference: string, pullPolicy: string)
    | OtherVolume(id: string)

  datatype Volume = Volume(name: string, source: VolumeSource)

  datatype VolumeMount = VolumeMount(name: string, mountPath: string, readOnly: bool)

  /**
   `imageVersion` is what parsing the image reference yields: its tag and digest, or "" when the
   reference has neither or does not parse.
   */
  datatype Container = Container(
    name: string,
    image: string,
    imageVersion: string,
    pullPolicy: string,
    env: seq<EnvVar>,
    mounts: seq<VolumeMount>)

  datatype OwnerRef = OwnerRef(apiVersion: string, kind: string, name: string, uid: string, controller: bool)

  datatype ObjectMeta = ObjectMeta(
    name: string,
    namespace: string,
    labels: map<string, string>,
    annotations: map<string, string>,
    owners: seq<OwnerRef>,
    terminating: bool)

  datatype Pod = Pod(
    meta: ObjectMeta,
    nodeName: string,
    containers: seq<Container>,
    initContainers: seq<Container>,
    volumes: seq<Volume>)

  /** One link of a pod's resolved ownership chain. */
  datatype Owner = Owner(kind: string, name: string)

  /** Go's map read: the zero value for a missing key. */
  function Get(m: map<string, string>, k: string): (v: string)
    ensures k in m ==> v == m[k]
    ensures k !in m ==> v == ""
  {
    if k in m then m[k] else ""
  }
}
