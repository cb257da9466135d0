/** What the translator's output means, stated without `split`: how an
    environment or port item is read, how the two documents agree, and the
    behaviour on concrete compose entries. */
module ComposeFacts {
  import opened Wrappers
  import opened JsText
  import opened Compose

  /** The first piece of `s` is `p` when `p` is free of the separator and
      followed by it; the other pieces then come from the text after that
      separator. */
  lemma FirstPiece(s: string, sep: char, p: string)
    requires sep !in p
    requires p + [sep] <= s
    ensures |Split(s, sep)| >= 2
    ensures Split(s, sep)[0] == p
    ensures Split(s, sep)[1..] == Split(s[|p| + 1..], sep)
  {
    SplitFirst(s, sep);
    var parts := Split(s, sep);
    assert s[|p|] == sep;
    assert sep in s;
    var h := parts[0];
    assert forall i :: 0 <= i < |p| ==> s[i] == p[i];
    assert forall i :: 0 <= i < |h| ==> s[i] == h[i];
    assert |h| == |p|;
    assert h == s[..|h|] == p;
  }

  /** `a`, then the separator, then `b`, then nothing or another separator:
      `a` and `b` are the first two pieces, whatever follows. */
  lemma FirstTwoPieces(a: string, b: string, tail: string, sep: char)
    requires sep !in a && sep !in b
    requires tail == [] || tail[0] == sep
    ensures var parts := Split(a + [sep] + b + tail, sep);
      |parts| >= 2 && parts[0] == a && parts[1] == b
  {
    var s := a + [sep] + b + tail;
    assert a + [sep] <= s;
    FirstPiece(s, sep, a);
    var rest := s[|a| + 1..];
    assert rest == b + tail;
    if tail == [] {
      assert rest == b;
      SplitNoSep(b, sep);
    } else {
      assert b + [sep] <= rest;
      FirstPiece(rest, sep, b);
    }
  }

  // ---------------------------------------------------------------------
  // Environment items
  // ---------------------------------------------------------------------

  /** An environment entry's name is the text before the first `=`; its
      value is the text after it up to the next `=` or the end, and is
      absent when the item has no `=`. */
  lemma EnvEntryMeaning(item: string)
    ensures var e := EnvEntry(item);
      && '=' !in e.name
      && (e.value.None? <==> '=' !in item)
      && (e.value.None? ==> e.name == item)
      && (e.value.Some? ==>
            var prefix := e.name + "=" + e.value.value;
            && '=' !in e.value.value
            && prefix <= item
            && (|prefix| < |item| ==> item[|prefix|] == '='))
  {
    SplitFirst(item, '=');
    var parts := Split(item, '=');
    if '=' in item {
      var rest := item[|parts[0]| + 1..];
      SplitFirst(rest, '=');
      var v := parts[1];
      assert v == Split(rest, '=')[0];
      assert item == parts[0] + "=" + rest by {
        assert item[..|parts[0]|] == parts[0];
      }
      assert v <= rest;
      if |parts[0] + "=" + v| < |item| {
        assert |v| < |rest|;
        assert '=' in rest;
        assert item[|parts[0] + "=" + v|] == rest[|v|];
      }
    }
  }

  /** `KEY=VALUE` reads as name `KEY`, value `VALUE`; anything after a
      second `=` is dropped; an item without `=` has no value. */
  lemma EnvEntryOf(key: string, value: string, tail: string)
    requires '=' !in key && '=' !in value
    requires tail == [] || tail[0] == '='
    ensures EnvEntry(key + "=" + value + tail) == EnvVar(key, Some(value))
    ensures EnvEntry(key) == EnvVar(key, None)
  {
    FirstTwoPieces(key, value, tail, '=');
    SplitNoSep(key, '=');
  }

  // ---------------------------------------------------------------------
  // Port items
  // ---------------------------------------------------------------------

  /** For a port item `A:B` (possibly followed by more `:` pieces), the pod's
      container port and the service's `port` both come from `B`, and the
      service's `targetPort` from `A`. */
  lemma PortEntryOfPair(a: string, b: string, tail: string)
    requires ':' !in a && ':' !in b
    requires tail == [] || tail[0] == ':'
    ensures ContainerPortEntry(a + ":" + b + tail) == ContainerPort(ParseInt(b), "TCP")
    ensures ServicePortEntry(a + ":" + b + tail) == ServicePort("TCP", ParseInt(b), ParseInt(a))
  {
    FirstTwoPieces(a, b, tail, ':');
  }

  /** A bare port item `A` gives a NaN container port and a NaN service
      `port`; only `targetPort` is read, from `A`. */
  lemma PortEntryBare(a: string)
    requires ':' !in a
    ensures ContainerPortEntry(a) == ContainerPort(None, "TCP")
    ensures ServicePortEntry(a) == ServicePort("TCP", None, ParseInt(a))
  {
    SplitNoSep(a, ':');
  }

  /** Whatever the item, the pod's container port and the service's `port`
      are the same value: both parse the piece after the first `:`. */
  lemma PortEntriesAgree(item: string)
    ensures ContainerPortEntry(item).containerPort == ServicePortEntry(item).port
    ensures ContainerPortEntry(item).protocol == ServicePortEntry(item).protocol == "TCP"
  {
  }

  // ---------------------------------------------------------------------
  // The two documents together
  // ---------------------------------------------------------------------

  /** The pod and the service built for one entry agree: the service's
      selector picks the pod template's label, its name extends the pod's,
      and each of its ports carries the pod's container port for the same
      item as `port`. */
  lemma PodAndServiceAgree(service: string, entry: ServiceEntry, prefix: string, podTemplate: PodDoc, serviceTemplate: ServiceDoc)
    requires HasContainer(podTemplate)
    ensures var pod := CreatePod(service, entry, prefix, podTemplate);
      var svc := CreateService(service, entry, prefix, serviceTemplate);
      && svc.doc.spec.selector.app == pod.doc.spec.template.metadata.labels.app
      && svc.doc.metadata.name == pod.doc.metadata.name + "-service"
      && (svc.file.Some? <==> FirstContainer(pod.doc).ports.Some?)
      && (svc.file.Some? ==>
            var cports := FirstContainer(pod.doc).ports.value;
            var sports := svc.doc.spec.ports.value;
            && |cports| == |sports|
            && forall k :: 0 <= k < |sports| ==> sports[k].port == cports[k].containerPort)
  {
  }

  /** The derived name does not depend on how the prefix is cased, and its
      prefix part holds no upper-case letter. */
  lemma DerivedNameIgnoresCase(prefix: string, service: string)
    ensures DerivedName(ToLower(prefix), service) == DerivedName(prefix, service)
    ensures forall i :: 0 <= i < |prefix| ==> !IsUpper(DerivedName(prefix, service)[i])
  {
    ToLowerIsLower(prefix);
  }

  // ---------------------------------------------------------------------
  // Concrete entries
  // ---------------------------------------------------------------------

  /** Empty `environment` and `ports` lists are present: the pod gets
      `env: []` and `ports: []`, and a service file is still written. */
  lemma EmptyListsArePresent(service: string, image: Option<string>, prefix: string, podTemplate: PodDoc, serviceTemplate: ServiceDoc)
    requires HasContainer(podTemplate)
    ensures var entry := ServiceEntry(image, Some([]), Some([]));
      var pod := CreatePod(service, entry, prefix, podTemplate);
      var svc := CreateService(service, entry, prefix, serviceTemplate);
      && FirstContainer(pod.doc).env == Some([])
      && FirstContainer(pod.doc).ports == Some([])
      && svc.doc.spec.ports == Some([])
      && svc.file == Some(DerivedName(prefix, service) + ".service.yml")
  {
  }

  /** The port item `8080:80` reads as container port 80, service `port` 80
      and `targetPort` 8080. */
  lemma WebPortItem()
    ensures ContainerPortEntry("8080:80") == ContainerPort(Some(80), "TCP")
    ensures ServicePortEntry("8080:80") == ServicePort("TCP", Some(80), Some(8080))
  {
    assert "8080:80" == "8080" + ":" + "80" + "";
    PortEntryOfPair("8080", "80", "");
    assert DecimalString(80) + "" == "80";
    assert DecimalString(8080) + "" == "8080";
    ParseIntDecimal(80, "");
    ParseIntDecimal(8080, "");
  }

  /** Service `web`, image `nginx`, ports `["8080:80"]`, prefix `Demo`:
      files `demo-web.pod.yml` and `demo-web.service.yml`; container port 80;
      service `port` 80 and `targetPort` 8080. */
  lemma WebScenario(podTemplate: PodDoc, serviceTemplate: ServiceDoc)
    requires HasContainer(podTemplate)
    ensures var entry := ServiceEntry(Some("nginx"), None, Some(["8080:80"]));
      var pod := CreatePod("web", entry, "Demo", podTemplate);
      var svc := CreateService("web", entry, "Demo", serviceTemplate);
      && pod.file == "demo-web.pod.yml"
      && FirstContainer(pod.doc).image == Some("nginx")
      && FirstContainer(pod.doc).env == None
      && FirstContainer(pod.doc).ports == Some([ContainerPort(Some(80), "TCP")])
      && svc.file == Some("demo-web.service.yml")
      && svc.doc.metadata.name == "demo-web-service"
      && svc.doc.spec.ports == Some([ServicePort("TCP", Some(80), Some(8080))])
  {
    var entry := ServiceEntry(Some("nginx"), None, Some(["8080:80"]));
    var pod := CreatePod("web", entry, "Demo", podTemplate);
    var svc := CreateService("web", entry, "Demo", serviceTemplate);
    assert ToLower("Demo") == "demo";
    assert DerivedName("Demo", "web") == "demo-web";
    assert pod.file == "demo-web" + ".pod.yml" == "demo-web.pod.yml";
    assert svc.file.value == "demo-web" + ".service.yml" == "demo-web.service.yml";
    assert svc.doc.metadata.name == "demo-web" + "-service" == "demo-web-service";
    WebPortItem();
    assert FirstContainer(pod.doc).ports.value == [ContainerPort(Some(80), "TCP")];
    assert svc.doc.spec.ports.value == [ServicePort("TCP", Some(80), Some(8080))];
  }

  /** The environment items `FOO=bar`, `URL=a=b` and `DEBUG`: the second
      loses everything after its second `=`, the third has no value. */
  lemma WorkerEnvItems()
    ensures EnvEntry("FOO=bar") == EnvVar("FOO", Some("bar"))
    ensures EnvEntry("URL=a=b") == EnvVar("URL", Some("a"))
    ensures EnvEntry("DEBUG") == EnvVar("DEBUG", None)
  {
    assert "FOO=bar" == "FOO" + "=" + "bar" + "";
    EnvEntryOf("FOO", "bar", "");
    assert "URL=a=b" == "URL" + "=" + "a" + "=b";
    EnvEntryOf("URL", "a", "=b");
    EnvEntryOf("DEBUG", "", "");
  }

  /** Service `worker`, environment `["FOO=bar", "URL=a=b", "DEBUG"]`, no
      ports: only a pod file, with three environment entries and no ports. */
  lemma WorkerScenario(podTemplate: PodDoc, serviceTemplate: ServiceDoc)
    requires HasContainer(podTemplate)
    ensures var entry := ServiceEntry(Some("busybox"), Some(["FOO=bar", "URL=a=b", "DEBUG"]), None);
      var pod := CreatePod("worker", entry, "demo", podTemplate);
      var svc := CreateService("worker", entry, "demo", serviceTemplate);
      && pod.file == "demo-worker.pod.yml"
      && FirstContainer(pod.doc).env.Some?
      && var env := FirstContainer(pod.doc).env.value;
      && |env| == 3
      && env[0] == EnvVar("FOO", Some("bar"))
      && env[1] == EnvVar("URL", Some("a"))
      && env[2] == EnvVar("DEBUG", None)
      && FirstContainer(pod.doc).ports == None
      && svc.file == None
      && svc.doc.spec.ports == None
  {
    var entry := ServiceEntry(Some("busybox"), Some(["FOO=bar", "URL=a=b", "DEBUG"]), None);
    var pod := CreatePod("worker", entry, "demo", podTemplate);
    assert ToLower("demo") == "demo";
    assert pod.file == "demo-worker" + ".pod.yml" == "demo-worker.pod.yml";
    WorkerEnvItems();
  }
}
