# dockershift translator, modelled in Dafny

dockershift reads a docker-compose file and writes one OpenShift Deployment
document (`<name>.pod.yml`) per compose service, and, when the service
publishes ports, a Service document (`<name>.service.yml`). With `--up` it
then runs `oc` to select the project, create both documents and expose the
service as a route; with `--down` it selects a project and deletes everything
in it. This project models the translator (`createPod`, `createService`) and
the `oc` argument lists that `up` and `down` issue, and proves what they
produce.

Modules:

- `Wrappers` (wrappers.dfy): `Option`, where `None` stands for JavaScript's
  `undefined` and, for numbers, `NaN`.
- `JsText` (jstext.dfy): the JavaScript string operations the translator
  uses: `split` on one character (with its inverse `Join`),
  `toLowerCase` on ASCII letters, and `parseInt` on a leading run of
  decimal digits (with its inverse `DecimalString`).
- `Compose` (compose.dfy): the compose entry, the two documents as records,
  the per-item `.map` callbacks, `CreatePod` and `CreateService`.
- `ComposeFacts` (compose_facts.dfy): what the documents mean, stated
  without `split`, how the pod and the service agree, and concrete entries.
- `OcPlan` (ocplan.dfy): the `up` and `down` command plans and how they
  relate to the files the translator wrote.

The YAML templates `templates/pod.yml` and `templates/service.yml` are
records that hold only the fields the translator sets or deletes. A deleted
field is `None`. Record update leaves every other field as the template had
it, and the model states this for the template's other containers.

The model follows the code where it differs from what one would expect of a
compose translator:

- A present but empty `environment` or `ports` list still counts as present.
  It yields `env: []` or `ports: []`, and a service file is still written.
- An environment value is the text between the first and second `=`. Anything
  after a second `=` is lost (`URL=a=b` gives value `a`). An item without `=`
  has no value.
- In the Service document, `port` is read from the part after the `:` and
  `targetPort` from the part before it. So `8080:80` gives port 80 and
  targetPort 8080.
- A bare port such as `80` has no part after the `:`. Its container port and
  its service `port` are `parseInt(undefined)`, which is NaN (`None`). Only
  `targetPort` is read, from the bare value.
- The image is copied as given, even when it is missing. Nothing checks it.
- A `:`-piece that does not start with a decimal digit parses to NaN (`None`), and no error is raised. For `x:80` only `targetPort` is NaN.

## Model

| member | source | states |
|---|---|---|
| JsText.ToLower | compose.js:68 | the prefix is lowered character by character, same length, other characters unchanged |
| JsText.ToLowerIsLower | compose.js:68 | a lowered prefix has no upper-case letter, and lowering it again changes nothing |
| JsText.Split | compose.js:78 | `split` yields at least one piece, and no piece contains the separator |
| JsText.JoinSplit | compose.js:78 | joining the pieces of `split` with the separator gives back the item |
| JsText.SplitJoin | compose.js:117 | splitting joined separator-free pieces gives back those pieces |
| JsText.SplitNoSep | compose.js:90 | an item without the separator splits into itself alone |
| JsText.SplitFirst | compose.js:117 | the first piece is the text before the first separator, and the rest are the split of the text after it |
| JsText.LeadingDigits | compose.js:92 | the digits `parseInt` reads are the longest all-digit prefix of the text |
| JsText.ParseInt | compose.js:120-121 | `parseInt` is NaN exactly when the text does not start with a digit, and otherwise non-negative |
| JsText.DigitsValueOfDecimal | compose.js:92 | the decimal text of n denotes n |
| JsText.LeadingDigitsOf | compose.js:92 | the digit run read from digits followed by a non-digit is exactly those digits |
| JsText.ParseIntDecimal | compose.js:120-121 | the modelled `parseInt` reads back the decimal text of any natural number, whatever non-digit text follows (the source's double agrees up to 2^53, so for every port number) |
| Compose.CreatePod | compose.js:66-106 | the five name sites (`metadata.name`, the three `app` labels and the first container's name) equal `lower(prefix)-service`; the image is the entry's; `env` and `ports` are present iff the entry's lists are, with one entry per item in order; other containers unchanged; the file is `<name>.pod.yml` |
| Compose.CreateService | compose.js:108-137 | the name is `<name>-service` and the selector is `<name>`; `spec.ports` and the file `<name>.service.yml` are present iff the entry declares ports; one port entry per item, in order |
| ComposeFacts.FirstPiece | compose.js:78 | the first piece of a split is `p` when `p` is separator-free and followed by the separator |
| ComposeFacts.FirstTwoPieces | compose.js:117 | for `a<sep>b` with anything after a further separator, `a` and `b` are the first two pieces |
| ComposeFacts.EnvEntryMeaning | compose.js:77-83 | an env name is the text before the first `=`; the value is the text after it up to the next `=` or the end, and is absent iff the item has no `=` |
| ComposeFacts.EnvEntryOf | compose.js:77-83 | `KEY=VALUE` gives name KEY and value VALUE, whatever follows a second `=`; `KEY` alone gives no value |
| ComposeFacts.PortEntryOfPair | compose.js:116-123 | for `A:B`, the container port and service `port` are `parseInt(B)` and `targetPort` is `parseInt(A)` |
| ComposeFacts.PortEntryBare | compose.js:89-95 | a bare port gives a NaN container port, a NaN service `port`, and `targetPort = parseInt(A)` |
| ComposeFacts.PortEntriesAgree | compose.js:92 | for every item, the pod's container port equals the service's `port`, both with protocol TCP |
| ComposeFacts.PodAndServiceAgree | compose.js:66-137 | the service selects the pod template's label, its name extends the pod's, it is written iff the pod has ports, and each service `port` equals the pod's container port for the same item |
| ComposeFacts.DerivedNameIgnoresCase | compose.js:110 | the derived name does not depend on the prefix's casing, and its prefix part has no upper-case letter |
| ComposeFacts.EmptyListsArePresent | compose.js:76-133 | empty `environment` and `ports` lists give `env: []`, `ports: []` and still a service file |
| ComposeFacts.WebPortItem | compose.js:116-123 | `8080:80` gives container port 80, service port 80 and targetPort 8080 |
| ComposeFacts.WebScenario | compose.js:66-137 | `web`/`nginx`/`8080:80` with prefix `Demo` gives `demo-web.pod.yml` and `demo-web.service.yml`, container port 80, service port 80 and targetPort 8080, and no env |
| ComposeFacts.WorkerEnvItems | compose.js:77-83 | `FOO=bar`, `URL=a=b` and `DEBUG` give `FOO`/`bar`, `URL`/`a` and `DEBUG` with no value |
| ComposeFacts.WorkerScenario | compose.js:66-137 | a service with environment and no ports gets only a pod file, with three env entries and no ports |
| OcPlan.UpPlan | compose.js:155-165 | `up` selects the project, creates the pod, and only with a service file creates the service and then exposes it as `svc/<name>-service` with route `<name>-route`; exactly 2 or 4 steps, none deletes |
| OcPlan.DownPlan | compose.js:149-153 | `down` selects the project and then deletes every resource in it with `delete all --all`, not by label selector |
| OcPlan.PlanAppend | compose.js:158-163 | the files created and the services exposed by two plans in sequence are those of each, in order |
| OcPlan.UpCreatesWhatWasWritten | compose.js:155-165 | fed with the translator's files, `up` creates exactly the written files, pod first, and exposes the written service by its own name iff ports are declared |
| OcPlan.DownOnlyDeletes | compose.js:149-153 | `down` creates and exposes nothing |

## Left out

- Argument parsing and usage messages (compose.js:10-45): prefix, project and the `down` project name are parameters. A missing `--prefix` makes `toLowerCase` throw in the source. The model takes the prefix as a string and does not model that failure.
- Loading the compose file and the templates with yamljs, YAML serialisation and `fs.writeFileSync` (compose.js:48, 67, 103, 109, 127): the documents are records and the file names are returned values.
- `createComposeFiles` (compose.js:47-64): the per-service fan-out with `Promise.all` and the final `oc get routes`. These are concurrency and process I/O.
- `checkOcLogin`, `execute`, `execa`, console output and `process.exit` (compose.js:139-147, 167-179): running processes is not modelled. As a result the `oc status` login probe that `up` and `down` run first is not part of the plans.
- Compose values that make the source throw: an `environment` mapping or numeric port items (`.map` or `.split` fails on them), and a service declared with no body (`web:` loads as `null`, so reading `.image` at compose.js:74 or `.ports` at compose.js:115 fails). The model's `ServiceEntry` cannot represent these.
- JsText.ParseInt: models only an unsigned leading run of decimal digits. The leading whitespace, signs and radix prefixes that JavaScript `parseInt` accepts are not modelled.
- JsText.ParseInt: returns the exact integer value of the digit run, whereas JavaScript returns a double that rounds above 2^53 and is `Infinity` for very long runs. This does not matter for port numbers up to 65535.
- JsText.ToLower: lowers ASCII letters only, not the full Unicode case mapping of `toLowerCase`.
- Compose.CreatePod: requires the pod template to have a first container, as the source indexes `containers[0]` unconditionally.
