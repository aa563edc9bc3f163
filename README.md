# SpotBugs Gradle task: result policy and configuration state

This project is a Dafny model of `SpotBugsTask`, the Gradle task that runs
SpotBugs over compiled classes. It covers two parts of the task.

- **The result policy** (`evaluateResult`) decides what a finished SpotBugs
  run does to the build. The model turns it into a pure function,
  `ResultEvaluation.Evaluate`. It returns `Clean`, `Warned(message)` or
  `Failed(message, hasCause)`. A thrown `GradleException` becomes `Failed`,
  and `hasCause` says whether it wraps the worker's exception. A logged
  warning becomes `Warned`.
- **The configuration state** is the set of task fields that a build script
  sets: the classpaths, `ignoreFailures`, `showProgress`, `effort`,
  `reportLevel`, `maxHeapSize`, the visitor lists, the filter resources, the
  ordered `extraArgs` and `jvmArgs`, and the `systemProperties` map. The
  model turns them into the class `Task.SpotBugsTask`. Its setters and its
  fluent `extraArgs`/`jvmArgs`/`systemProperty`/`systemProperties` methods
  change the fields in place. Each of these methods states its new state as
  `Config() == old(Config()).(field := …)`, which also says that no other
  field changes.

The modules are:

- `Common`: `Option`, which stands for a Java reference that may be null, and `Path`.
- `ResultEvaluation`: the result record, the report list and the outcome.
  It also holds the first-enabled-report lookup, the violation message, the
  policy and the lemmas about the policy.
- `PropertyMaps`: `put`, `putAll` and a run of successive `put`s on the
  system-property map, with the lemmas that say which value a key ends up with.
- `Task`: the `SpotBugsTask` class.

Some collaborators are given to the model as parameters:

- Gradle's `ConsoleRenderer.asClickableFileUrl` is the parameter `render: Path -> string`.
- `TextResource.asFile` is the parameter `asFile`.

The model makes no assumptions about either function.

Notes on what `evaluateResult` and the configuration do:

- Both infrastructure failures use the same message, "SpotBugs encountered an
  error. Run with --debug to get more information.". An exception and a
  positive error count differ only in whether the worker's exception is
  attached as the cause.
- The violation message does not mention the number of bugs. It is exactly
  "SpotBugs rule violations were found.". When a report is enabled, the text
  " See the report at: " and the rendered destination of the first enabled
  report follow it.
- The task does not settle a visitor that is both included and omitted. It
  passes both lists through unchanged.

## Model

| member | source | states |
|---|---|---|
| `ResultEvaluation.FirstEnabled` | src/main/java/com/github/spotbugs/SpotBugsTask.java:283 | The report found is enabled and belongs to the container. No report is found (null) exactly when no report is enabled. |
| `ResultEvaluation.FirstEnabledIsEarliest` | src/main/java/com/github/spotbugs/SpotBugsTask.java:283 | If report `i` is enabled and no earlier report is, then report `i` is the one found. |
| `ResultEvaluation.ViolationMessage` | src/main/java/com/github/spotbugs/SpotBugsTask.java:282-287 | The message always starts with "SpotBugs rule violations were found.". It is exactly that text when no report is enabled. Otherwise the rest is " See the report at: " followed by the rendered destination of the first enabled report. |
| `ResultEvaluation.Evaluate` | src/main/java/com/github/spotbugs/SpotBugsTask.java:272-297 | The exception is kept as the cause exactly when the result has one. An exception or a positive error count fails with the error message, whatever `ignoreFailures` says. The outcome is a warning exactly when findings are present and failures are ignored. It is clean exactly when there is no exception, no error and no bug. With findings, the message is the violation message. |
| `ResultEvaluation.IgnoreFailuresKeepsInfrastructureFailures` | src/main/java/com/github/spotbugs/SpotBugsTask.java:273-279 | For an exception or internal errors, the outcome is a failure, and it is the same with `ignoreFailures` true or false. |
| `ResultEvaluation.IgnoreFailuresOnlyGovernsFindings` | src/main/java/com/github/spotbugs/SpotBugsTask.java:281-295 | `ignoreFailures` changes the outcome exactly when findings are present. Then it turns `Failed(m)` into `Warned(m)` with the same message `m`. |
| `ResultEvaluation.ViolationMessageIsNotErrorMessage` | src/main/java/com/github/spotbugs/SpotBugsTask.java:274-282 | The violation message never equals the error message. |
| `ResultEvaluation.FailureMessageNamesReason` | src/main/java/com/github/spotbugs/SpotBugsTask.java:272-297 | A failure carries the error message exactly when it comes from an exception or internal errors. |
| `ResultEvaluation.MessagePointsAtFirstEnabledReport` | src/main/java/com/github/spotbugs/SpotBugsTask.java:281-287 | With findings, the message points at the destination of the earliest enabled report, whatever the later reports are. |
| `PropertyMaps.Put` | src/main/java/com/github/spotbugs/SpotBugsTask.java:325-328 | After a `put`, the key maps to the new value, overwriting any previous one. The key set gains only that key, and every other key keeps its value. |
| `PropertyMaps.PutAll` | src/main/java/com/github/spotbugs/SpotBugsTask.java:330-333 | After a `putAll`, the key set is the union of both key sets. Keys of the argument take its values, and the other keys keep theirs. |
| `PropertyMaps.PutEachKeepsOtherKeys` | src/main/java/com/github/spotbugs/SpotBugsTask.java:325-328 | In a run of `systemProperty` calls, a key that no call names keeps its presence and its value. |
| `PropertyMaps.PutEachLastWins` | src/main/java/com/github/spotbugs/SpotBugsTask.java:325-328 | In a run of `systemProperty` calls, later puts override earlier ones. A key ends up with the value of the last call that names it. |
| `PropertyMaps.PutAllIsPutEach` | src/main/java/com/github/spotbugs/SpotBugsTask.java:325-333 | `systemProperties(m)` has the same effect as one `systemProperty` call per entry of `m`, in any order. |
| `Task.SpotBugsTask.constructor` | src/main/java/com/github/spotbugs/SpotBugsTask.java:61-95 | In a new task, every reference is null, every list and the property map are empty, and both flags are false. |
| `Task.SpotBugsTask.EvaluateResult` | src/main/java/com/github/spotbugs/SpotBugsTask.java:272-297 | The step-by-step method gives the outcome of the policy, applied with the task's own `ignoreFailures`. When that flag is set, only an infrastructure failure can fail the build. |
| `Task.SpotBugsTask.ExtraArgsFromIterable` | src/main/java/com/github/spotbugs/SpotBugsTask.java:299-305 | `extraArgs` becomes the old list followed by the arguments in their order. The method returns the same task, and nothing else changes. |
| `Task.SpotBugsTask.ExtraArgs` | src/main/java/com/github/spotbugs/SpotBugsTask.java:307-310 | Same effect as the iterable overload: the old `extraArgs` followed by the arguments, the same task returned, nothing else changed. |
| `Task.SpotBugsTask.JvmArgsFromIterable` | src/main/java/com/github/spotbugs/SpotBugsTask.java:312-318 | `jvmArgs` becomes the old list followed by the arguments in their order. `extraArgs` and every other field are unchanged. |
| `Task.SpotBugsTask.JvmArgs` | src/main/java/com/github/spotbugs/SpotBugsTask.java:320-323 | Same effect as the iterable overload, on `jvmArgs` only. |
| `Task.SpotBugsTask.SystemProperty` | src/main/java/com/github/spotbugs/SpotBugsTask.java:325-328 | `name` maps to the argument afterwards, and every other key keeps its value. The property map becomes `Put` of the old one, and no other field changes. |
| `Task.SpotBugsTask.SystemProperties` | src/main/java/com/github/spotbugs/SpotBugsTask.java:330-333 | The property map becomes the old map overridden by the argument (`PutAll`), and no other field changes. |
| `Task.SpotBugsTask.GetIncludeFilter` | src/main/java/com/github/spotbugs/SpotBugsTask.java:178-181 | The result is null exactly when no include filter is configured. Otherwise it is the configured resource's file. |
| `Task.SpotBugsTask.GetExcludeFilter` | src/main/java/com/github/spotbugs/SpotBugsTask.java:199-202 | The result is null exactly when no exclude filter is configured. Otherwise it is the configured resource's file. |
| `Task.SpotBugsTask.GetExcludeBugsFilter` | src/main/java/com/github/spotbugs/SpotBugsTask.java:220-223 | The result is null exactly when no baseline filter is configured. Otherwise it is the configured resource's file. |
| `Task.SpotBugsTask.SetClasses` | src/main/java/com/github/spotbugs/SpotBugsTask.java:364-374 | `getClasses` returns the value just set, and no other field changes. |
| `Task.SpotBugsTask.SetClasspath` | src/main/java/com/github/spotbugs/SpotBugsTask.java:383-393 | `getClasspath` returns the value just set, and no other field changes. |
| `Task.SpotBugsTask.SetSpotbugsClasspath` | src/main/java/com/github/spotbugs/SpotBugsTask.java:401-411 | `getSpotbugsClasspath` returns the value just set, and no other field changes. |
| `Task.SpotBugsTask.SetPluginClasspath` | src/main/java/com/github/spotbugs/SpotBugsTask.java:419-429 | `getPluginClasspath` returns the value just set, and no other field changes. |
| `Task.SpotBugsTask.SetIgnoreFailures` | src/main/java/com/github/spotbugs/SpotBugsTask.java:436-443 | `getIgnoreFailures` returns the value just set, and no other field changes. |
| `Task.SpotBugsTask.SetShowProgress` | src/main/java/com/github/spotbugs/SpotBugsTask.java:451-457 | `getShowProgress` returns the value just set, and no other field changes. |
| `Task.SpotBugsTask.SetEffort` | src/main/java/com/github/spotbugs/SpotBugsTask.java:467-477 | `getEffort` returns the value just set, and no other field changes. |
| `Task.SpotBugsTask.SetReportLevel` | src/main/java/com/github/spotbugs/SpotBugsTask.java:488-498 | `getReportLevel` returns the value just set, and no other field changes. |
| `Task.SpotBugsTask.SetMaxHeapSize` | src/main/java/com/github/spotbugs/SpotBugsTask.java:507-517 | `getMaxHeapSize` returns the value just set, and no other field changes. |
| `Task.SpotBugsTask.SetVisitors` | src/main/java/com/github/spotbugs/SpotBugsTask.java:527-537 | `getVisitors` returns the list just set, and no other field changes. |
| `Task.SpotBugsTask.SetOmitVisitors` | src/main/java/com/github/spotbugs/SpotBugsTask.java:547-557 | `getOmitVisitors` returns the list just set, and no other field changes. |
| `Task.SpotBugsTask.SetIncludeFilterConfig` | src/main/java/com/github/spotbugs/SpotBugsTask.java:569-579 | `getIncludeFilterConfig` returns the resource just set, and no other field changes. |
| `Task.SpotBugsTask.SetExcludeFilterConfig` | src/main/java/com/github/spotbugs/SpotBugsTask.java:591-601 | `getExcludeFilterConfig` returns the resource just set, and no other field changes. |
| `Task.SpotBugsTask.SetExcludeBugsFilterConfig` | src/main/java/com/github/spotbugs/SpotBugsTask.java:611-621 | `getExcludeBugsFilterConfig` returns the resource just set, and no other field changes. |
| `Task.SpotBugsTask.SetExtraArgs` | src/main/java/com/github/spotbugs/SpotBugsTask.java:641-652 | `getExtraArgs` returns the list just set, and no other field changes. |
| `Task.SpotBugsTask.SetJvmArgs` | src/main/java/com/github/spotbugs/SpotBugsTask.java:656-662 | `getJvmArgs` returns the list just set, and no other field changes. |
| `Task.SpotBugsTask.SetSystemProperties` | src/main/java/com/github/spotbugs/SpotBugsTask.java:672-678 | `getSystemProperties` returns the map just set, and no other field changes. |

## Left out

- `run()` is left out. It checks the SpotBugs classpath against the running Java version, builds the spec, captures standard output and error, and starts a worker process through Gradle's `WorkerProcessFactory`. All of that is process and host I/O. `SpotBugsClasspathValidator` and `SpotBugsWorkerManager` are not part of this model.
- `generateSpec()` is left out. It only passes the fields to `SpotBugsSpecBuilder`, which is not part of this model, so nothing can be said about the spec it builds.
- `setIncludeFilter(File)`, `setExcludeFilter(File)` and `setExcludeBugsFilter(File)` are left out. They build a text resource through the project's resource factory, which is host glue. Only the resource-level setters are modelled.
- `TextResource.asFile` is a parameter. Materialising a filter to a file can do I/O, so the model does not describe it.
- `reports(Closure)`, `reports(Action)`, `getReports()`, the `Instantiator` used by the constructor and the `@Inject` service getters are left out. They are host configuration glue. The report container reaches the policy as a list of reports.
- FirstEnabled: the model takes the report list in the container's iteration order. Gradle's own ordering of the container is not modelled.
- `ConsoleRenderer.asClickableFileUrl` is the parameter `render`. The model does not describe how the URL is formed.
- `setSourceSet`, `getSource` and `getAllSource` are left out. They depend on Gradle file trees, and `@SkipWhenEmpty`, which skips the task when there are no classes, is enforced by Gradle, not by this class.
- Logging: the warning that `getLogger().warn` writes is represented only by the `Warned` outcome. The exception is represented only by the `hasCause` flag, without the exception object itself.
- Aliasing is not modelled. The collection setters store the caller's own `Collection` or `Map` object, so a later `extraArgs(...)`, `jvmArgs(...)` or `systemProperty(...)` also changes the caller's object. The model stores values.
- Null collections are not modelled. The model never holds a null list or map, and it does not model the `NullPointerException` that a null argument array, iterable or map causes.
- Task.SpotBugsTask.ExtraArgsFromIterable: always appends. In Java, `extraArgs.add` throws `UnsupportedOperationException` when a setter installed an unmodifiable collection such as `List.of(..)`. The model has no unmodifiable collections.
- Task.SpotBugsTask.ExtraArgs: always appends. In Java, `addAll` throws `UnsupportedOperationException` on an unmodifiable collection installed by `setExtraArgs`.
- Task.SpotBugsTask.JvmArgsFromIterable: always appends. In Java, `jvmArgs.add` throws on an unmodifiable collection installed by `setJvmArgs`.
- Task.SpotBugsTask.JvmArgs: always appends. In Java, `addAll` throws on an unmodifiable collection installed by `setJvmArgs`.
- Task.SpotBugsTask.SystemProperty: always puts. In Java, `put` throws `UnsupportedOperationException` on an unmodifiable map such as `Collections.emptyMap()` installed by `setSystemProperties`. A null key, which a `HashMap` accepts, cannot be expressed: keys are strings.
- Task.SpotBugsTask.SystemProperties: always puts. In Java, `putAll` throws on an unmodifiable map installed by `setSystemProperties`.
- Null elements are not modelled. Java accepts `extraArgs((String) null)`, a null element in a jvm argument or visitor list, and a null system-property value or key; the model's lists hold strings only and its map has string keys.
- Getter aliasing is not modelled. `getVisitors`, `getOmitVisitors`, `getExtraArgs`, `getJvmArgs` and `getSystemProperties` return the task's live collection or map, so a caller that changes the returned object changes the task. The model's getters return values.
- Element order: a `Collection<String>` given to a setter is taken as a list in its iteration order. A `Set`'s own ordering and de-duplication are not modelled.
- Error and bug counts are Java `int`s. The model uses unbounded integers because the code only compares them with zero.
