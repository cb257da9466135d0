/** The compose-to-OpenShift translator of compose.js: `createPod` and
    `createService` turn one compose service entry into a Deployment
    document ("pod") and, when the entry declares ports, a Service
    document, each with the name of the file it is written to.

    The YAML templates are records holding only the fields the translator
    sets or deletes; every other template field is untouched by the record
    updates below. A field that may be deleted is an `Option`, `None`
    meaning absent. */
module Compose {
  import opened Wrappers
  import opened JsText

  // ---------------------------------------------------------------------
  // Input: one entry of the compose file's `services` mapping
  // ---------------------------------------------------------------------

  /** `image`, `environment` (`KEY=VALUE` items) and `ports` (`A:B` or bare
      items), each `None` when the compose file leaves it out. A present
      list counts as present even when empty (JavaScript truthiness). */
  datatype ServiceEntry = ServiceEntry(
    image: Option<string>,
    environment: Option<seq<string>>,
    ports: Option<seq<string>>)

  // ---------------------------------------------------------------------
  // The Deployment document (templates/pod.yml)
  // ---------------------------------------------------------------------

  datatype EnvVar = EnvVar(name: string, value: Option<string>)

  datatype ContainerPort = ContainerPort(containerPort: Option<int>, protocol: string)

  datatype Container = Container(
    name: string,
    image: Option<string>,
    env: Option<seq<EnvVar>>,
    ports: Option<seq<ContainerPort>>)

  datatype Labels = Labels(app: string)
  datatype ObjectMeta = ObjectMeta(name: string, labels: Labels)
  datatype LabelSelector = LabelSelector(matchLabels: Labels)
  datatype TemplateMeta = TemplateMeta(labels: Labels)
  datatype PodSpec = PodSpec(containers: seq<Container>)
  datatype PodTemplate = PodTemplate(metadata: TemplateMeta, spec: PodSpec)
  datatype DeploymentSpec = DeploymentSpec(selector: LabelSelector, template: PodTemplate)
  datatype PodDoc = PodDoc(metadata: ObjectMeta, spec: DeploymentSpec)

  /** The template's first container, the one the translator fills in. */
  predicate HasContainer(doc: PodDoc)
  {
    |doc.spec.template.spec.containers| > 0
  }

  function FirstContainer(doc: PodDoc): Container
    requires HasContainer(doc)
  {
    doc.spec.template.spec.containers[0]
  }

  // ---------------------------------------------------------------------
  // The Service document (templates/service.yml)
  // ---------------------------------------------------------------------

  datatype ServicePort = ServicePort(protocol: string, port: Option<int>, targetPort: Option<int>)

  datatype ServiceMeta = ServiceMeta(name: string)
  datatype ServiceSelector = ServiceSelector(app: string)
  datatype ServiceSpec = ServiceSpec(selector: ServiceSelector, ports: Option<seq<ServicePort>>)
  datatype ServiceDoc = ServiceDoc(metadata: ServiceMeta, spec: ServiceSpec)

  // ---------------------------------------------------------------------
  // Results
  // ---------------------------------------------------------------------

  /** What `createPod` builds and the file name it returns (the document is
      always written to that file). */
  datatype PodResult = PodResult(doc: PodDoc, file: string)

  /** What `createService` builds and the file name it returns; `file` is
      `None` (JavaScript `null`) when nothing is written. */
  datatype ServiceResult = ServiceResult(doc: ServiceDoc, file: Option<string>)

  // ---------------------------------------------------------------------
  // Per-item conversions (the `.map` callbacks)
  // ---------------------------------------------------------------------

  /** `prefix.toLowerCase() + "-" + service`. */
  function DerivedName(prefix: string, service: string): string
  {
    ToLower(prefix) + "-" + service
  }

  /** `parts[i]`, which is `undefined` past the end of the array. */
  function PartAt(parts: seq<string>, i: nat): Option<string>
  {
    if i < |parts| then Some(parts[i]) else None
  }

  /** `parseInt(parts[i])`; `parseInt(undefined)` is NaN. */
  function ParseIntAt(parts: seq<string>, i: nat): Option<int>
  {
    match PartAt(parts, i)
    case None => None
    case Some(t) => ParseInt(t)
  }

  /** One environment item: the name is its first `=`-piece, the value its
      second piece, absent when there is none. */
  function EnvEntry(item: string): EnvVar
  {
    var items := Split(item, '=');
    EnvVar(items[0], PartAt(items, 1))
  }

  /** One pod port item: protocol TCP, container port parsed from the
      second `:`-piece (NaN when there is none). */
  function ContainerPortEntry(item: string): ContainerPort
  {
    var ports := Split(item, ':');
    ContainerPort(ParseIntAt(ports, 1), "TCP")
  }

  /** One service port item: protocol TCP, port parsed from the second
      `:`-piece (NaN when there is none), target port from the first. */
  function ServicePortEntry(item: string): ServicePort
  {
    var ports := Split(item, ':');
    ServicePort("TCP", ParseIntAt(ports, 1), ParseIntAt(ports, 0))
  }

  function EnvList(items: seq<string>): seq<EnvVar>
  {
    seq(|items|, k requires 0 <= k < |items| => EnvEntry(items[k]))
  }

  function ContainerPortList(items: seq<string>): seq<ContainerPort>
  {
    seq(|items|, k requires 0 <= k < |items| => ContainerPortEntry(items[k]))
  }

  function ServicePortList(items: seq<string>): seq<ServicePort>
  {
    seq(|items|, k requires 0 <= k < |items| => ServicePortEntry(items[k]))
  }

  // ---------------------------------------------------------------------
  // createPod and createService
  // ---------------------------------------------------------------------

  /** `createPod(service, compose)` with `compose.services[service] == entry`,
      `program.prefix == prefix` and the loaded `templates/pod.yml` as
      `template`. The template must have a first container, which the source
      indexes unconditionally. */
  function CreatePod(service: string, entry: ServiceEntry, prefix: string, template: PodDoc): (r: PodResult)
    requires HasContainer(template)
    ensures HasContainer(r.doc)
    // every label site carries the derived name
    ensures var name := ToLower(prefix) + "-" + service;
      && r.doc.metadata.name == name
      && r.doc.metadata.labels.app == name
      && r.doc.spec.selector.matchLabels.app == name
      && r.doc.spec.template.metadata.labels.app == name
      && FirstContainer(r.doc).name == name
      && r.file == name + ".pod.yml"
    ensures FirstContainer(r.doc).image == entry.image
    // env: one entry per item, in order, or removed
    ensures FirstContainer(r.doc).env.Some? <==> entry.environment.Some?
    ensures entry.environment.Some? ==>
      var items := entry.environment.value;
      var env := FirstContainer(r.doc).env.value;
      && |env| == |items|
      && forall k :: 0 <= k < |items| ==> env[k] == EnvEntry(items[k])
    // ports: one entry per item, in order, or removed
    ensures FirstContainer(r.doc).ports.Some? <==> entry.ports.Some?
    ensures entry.ports.Some? ==>
      var items := entry.ports.value;
      var ports := FirstContainer(r.doc).ports.value;
      && |ports| == |items|
      && forall k :: 0 <= k < |items| ==> ports[k] == ContainerPortEntry(items[k])
    // the other containers of the template pass through
    ensures r.doc.spec.template.spec.containers[1..] == template.spec.template.spec.containers[1..]
  {
    var name := DerivedName(prefix, service);
    var c := FirstContainer(template);
    var c1 := c.(name := name, image := entry.image);
    var c2 := match entry.environment
      case Some(items) => c1.(env := Some(EnvList(items)))
      case None => c1.(env := None);
    var c3 := match entry.ports
      case Some(items) => c2.(ports := Some(ContainerPortList(items)))
      case None => c2.(ports := None);
    var containers := template.spec.template.spec.containers[0 := c3];
    var doc := template.(
      metadata := template.metadata.(name := name, labels := template.metadata.labels.(app := name)),
      spec := template.spec.(
        selector := template.spec.selector.(matchLabels := template.spec.selector.matchLabels.(app := name)),
        template := template.spec.template.(
          metadata := template.spec.template.metadata.(labels := template.spec.template.metadata.labels.(app := name)),
          spec := template.spec.template.spec.(containers := containers))));
    PodResult(doc, name + ".pod.yml")
  }

  /** `createService(service, compose)` with the loaded
      `templates/service.yml` as `template`. The document is built in every
      case but written (and its file name returned) only when the entry
      declares ports. */
  function CreateService(service: string, entry: ServiceEntry, prefix: string, template: ServiceDoc): (r: ServiceResult)
    ensures var name := ToLower(prefix) + "-" + service;
      && r.doc.metadata.name == name + "-service"
      && r.doc.spec.selector.app == name
      && (r.file.Some? <==> entry.ports.Some?)
      && (r.file.Some? ==> r.file.value == name + ".service.yml")
    ensures r.doc.spec.ports.Some? <==> entry.ports.Some?
    ensures entry.ports.Some? ==>
      var items := entry.ports.value;
      var ports := r.doc.spec.ports.value;
      && |ports| == |items|
      && forall k :: 0 <= k < |items| ==> ports[k] == ServicePortEntry(items[k])
  {
    var name := DerivedName(prefix, service);
    var t := template.(
      metadata := template.metadata.(name := name + "-service"),
      spec := template.spec.(selector := template.spec.selector.(app := name)));
    match entry.ports
    case Some(items) =>
      ServiceResult(t.(spec := t.spec.(ports := Some(ServicePortList(items)))), Some(name + ".service.yml"))
    case None =>
      ServiceResult(t.(spec := t.spec.(ports := None)), None)
  }
}
