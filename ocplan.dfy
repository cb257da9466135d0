/** The `oc` invocations issued by `up` and `down` in compose.js, as the
    ordered list of argument vectors. Running them (and the login probe
    before them) is not modelled. */
module OcPlan {
  import opened Wrappers
  import opened JsText
  import opened Compose

  /** `up(service, podFile, serviceFile)` with `program.prefix == prefix`
      and `program.project == project`: select the project, create the pod,
      and, only when a service file was written, create the service and
      expose it as a route. The source tests the service file by
      truthiness, so an empty name would skip those steps; `CreateService`
      never returns one (its file name ends in `.service.yml`). */
  function UpPlan(prefix: string, service: string, project: string, podFile: string, serviceFile: Option<string>): (plan: seq<seq<string>>)
    ensures |plan| == if serviceFile.Some? then 4 else 2
    ensures plan[0] == ["project", project]
    ensures plan[1] == ["create", "-f", podFile]
    // the service is created before it is exposed, under the derived names
    ensures serviceFile.Some? ==>
      var name := ToLower(prefix) + "-" + service;
      && plan[2] == ["create", "-f", serviceFile.value]
      && plan[3] == ["expose", "svc/" + name + "-service", "--name=" + name + "-route"]
    ensures forall k :: 0 <= k < |plan| ==> |plan[k]| >= 2 && plan[k][0] != "delete"
  {
    var name := DerivedName(prefix, service);
    [["project", project], ["create", "-f", podFile]]
    + match serviceFile
      case Some(f) =>
        [["create", "-f", f], ["expose", "svc/" + name + "-service", "--name=" + name + "-route"]]
      case None => []
  }

  /** `down()` with `program.down == project`: select the project, then
      delete every resource in it (`all --all`, not a label selector). */
  function DownPlan(project: string): (plan: seq<seq<string>>)
    ensures |plan| == 2 && plan[0] == ["project", project]
    ensures plan[1] == ["delete", "all", "--all"]
  {
    [["project", project], ["delete", "all", "--all"]]
  }

  /** The file a `create -f <file>` step names, if it is one. */
  function StepFile(step: seq<string>): seq<string>
  {
    if |step| == 3 && step[0] == "create" && step[1] == "-f" then [step[2]] else []
  }

  /** The service an `expose svc/<service> ...` step names, if it is one. */
  function StepExposed(step: seq<string>): seq<string>
  {
    if |step| >= 2 && step[0] == "expose" && "svc/" <= step[1] then [step[1][4..]] else []
  }

  /** The files named by the `create -f` steps of a plan, in order. */
  function CreatedFiles(plan: seq<seq<string>>): seq<string>
  {
    if plan == [] then [] else StepFile(plan[0]) + CreatedFiles(plan[1..])
  }

  /** The services named by the `expose svc/...` steps of a plan, in order. */
  function ExposedServices(plan: seq<seq<string>>): seq<string>
  {
    if plan == [] then [] else StepExposed(plan[0]) + ExposedServices(plan[1..])
  }

  /** Reading the steps of two plans run one after the other. */
  lemma PlanAppend(a: seq<seq<string>>, b: seq<seq<string>>)
    ensures CreatedFiles(a + b) == CreatedFiles(a) + CreatedFiles(b)
    ensures ExposedServices(a + b) == ExposedServices(a) + ExposedServices(b)
  {
    CreatedFilesAppend(a, b);
    ExposedServicesAppend(a, b);
  }

  lemma {:induction false} CreatedFilesAppend(a: seq<seq<string>>, b: seq<seq<string>>)
    ensures CreatedFiles(a + b) == CreatedFiles(a) + CreatedFiles(b)
  {
    if a == [] {
      assert a + b == b;
    } else {
      var c := a + b;
      assert c[0] == a[0] && c[1..] == a[1..] + b;
      CreatedFilesAppend(a[1..], b);
    }
  }

  lemma {:induction false} ExposedServicesAppend(a: seq<seq<string>>, b: seq<seq<string>>)
    ensures ExposedServices(a + b) == ExposedServices(a) + ExposedServices(b)
  {
    if a == [] {
      assert a + b == b;
    } else {
      var c := a + b;
      assert c[0] == a[0] && c[1..] == a[1..] + b;
      ExposedServicesAppend(a[1..], b);
    }
  }

  lemma PlanSingle(step: seq<string>)
    ensures CreatedFiles([step]) == StepFile(step)
    ensures ExposedServices([step]) == StepExposed(step)
  {
    assert [step][1..] == [];
  }

  /** Fed with what the translator wrote for one compose entry, `up`
      creates exactly the files written (the pod's first), and exposes the
      written Service document by its own name, or nothing when the entry
      declares no ports. */
  lemma UpCreatesWhatWasWritten(service: string, entry: ServiceEntry, prefix: string, project: string, podTemplate: PodDoc, serviceTemplate: ServiceDoc)
    requires HasContainer(podTemplate)
    ensures var pod := CreatePod(service, entry, prefix, podTemplate);
      var svc := CreateService(service, entry, prefix, serviceTemplate);
      var plan := UpPlan(prefix, service, project, pod.file, svc.file);
      && CreatedFiles(plan) == [pod.file] + (if svc.file.Some? then [svc.file.value] else [])
      && ExposedServices(plan) == (if entry.ports.Some? then [svc.doc.metadata.name] else [])
  {
    var pod := CreatePod(service, entry, prefix, podTemplate);
    var svc := CreateService(service, entry, prefix, serviceTemplate);
    var plan := UpPlan(prefix, service, project, pod.file, svc.file);
    var name := DerivedName(prefix, service);
    var select, createPod := ["project", project], ["create", "-f", pod.file];
    assert StepFile(select) == [] && StepExposed(select) == [];
    assert StepFile(createPod) == [pod.file] && StepExposed(createPod) == [];
    PlanSingle(select);
    PlanSingle(createPod);
    PlanAppend([select], [createPod]);
    if svc.file.Some? {
      var target := "svc/" + name + "-service";
      var createSvc := ["create", "-f", svc.file.value];
      var expose := ["expose", target, "--name=" + name + "-route"];
      assert plan == [select, createPod] + ([createSvc] + [expose]);
      assert "svc/" <= target && target[4..] == name + "-service";
      assert StepFile(createSvc) == [svc.file.value] && StepExposed(createSvc) == [];
      assert StepFile(expose) == [] && StepExposed(expose) == [name + "-service"];
      PlanSingle(createSvc);
      PlanSingle(expose);
      PlanAppend([createSvc], [expose]);
      PlanAppend([select, createPod], [createSvc] + [expose]);
    } else {
      assert plan == [select] + [createPod];
    }
  }

  /** `down` creates and exposes nothing (its one deletion is pinned by
      `DownPlan`'s contract). */
  lemma DownOnlyDeletes(project: string)
    ensures CreatedFiles(DownPlan(project)) == []
    ensures ExposedServices(DownPlan(project)) == []
  {
    var select, deleteAll := ["project", project], ["delete", "all", "--all"];
    assert StepFile(select) == [] && StepExposed(select) == [];
    assert StepFile(deleteAll) == [] && StepExposed(deleteAll) == [];
    PlanSingle(select);
    PlanSingle(deleteAll);
    PlanAppend([select], [deleteAll]);
    assert DownPlan(project) == [select] + [deleteAll];
  }
}
