/**
 * The configuration state of `SpotBugsTask`: the fields a build script sets
 * before the task runs, the setters and getters over them, the fluent
 * methods that append arguments and add system properties, and
 * `evaluateResult` as the task applies it with its own `ignoreFailures`.
 *
 * Java's `Object` values of the system-property map become the type
 * parameter `V`; a reference that may be null becomes an `Option`.
 */
module Task {
  import opened Common
  import PropertyMaps
  import ResultEvaluation

  /** A Gradle file collection, taken as the set of files it resolves to. */
  datatype FileCollection = FileCollection(files: set<Path>)

  /** A Gradle text resource holding a SpotBugs filter. */
  datatype TextResource = TextResource(text: string)

  /** A snapshot of every configuration field of the task. */
  datatype TaskConfig<V> = TaskConfig(
    classes: Option<FileCollection>,
    classpath: Option<FileCollection>,
    spotbugsClasspath: Option<FileCollection>,
    pluginClasspath: Option<FileCollection>,
    ignoreFailures: bool,
    showProgress: bool,
    effort: Option<string>,
    reportLevel: Option<string>,
    maxHeapSize: Option<string>,
    visitors: seq<string>,
    omitVisitors: seq<string>,
    includeFilterConfig: Option<TextResource>,
    excludeFilterConfig: Option<TextResource>,
    excludeBugsFilterConfig: Option<TextResource>,
    extraArgs: seq<string>,
    jvmArgs: seq<string>,
    systemProperties: map<string, V>)

  class SpotBugsTask<V> {
    var classes: Option<FileCollection>
    var classpath: Option<FileCollection>
    var spotbugsClasspath: Option<FileCollection>
    var pluginClasspath: Option<FileCollection>
    var ignoreFailures: bool
    var showProgress: bool
    var effort: Option<string>
    var reportLevel: Option<string>
    var maxHeapSize: Option<string>
    var visitors: seq<string>
    var omitVisitors: seq<string>
    var includeFilterConfig: Option<TextResource>
    var excludeFilterConfig: Option<TextResource>
    var excludeBugsFilterConfig: Option<TextResource>
    var extraArgs: seq<string>
    var jvmArgs: seq<string>
    var systemProperties: map<string, V>

    /** All configuration fields at once, so that a method can say which one it changed. */
    ghost function Config(): TaskConfig<V>
      reads this
    {
      TaskConfig(classes, classpath, spotbugsClasspath, pluginClasspath, ignoreFailures,
                 showProgress, effort, reportLevel, maxHeapSize, visitors, omitVisitors,
                 includeFilterConfig, excludeFilterConfig, excludeBugsFilterConfig,
                 extraArgs, jvmArgs, systemProperties)
    }

    /** Field initialisers: references are null, collections are empty, flags are false. */
    constructor ()
      ensures Config() == TaskConfig(None, None, None, None, false, false, None, None, None,
                                     [], [], None, None, None, [], [], map[])
    {
      classes, classpath, spotbugsClasspath, pluginClasspath := None, None, None, None;
      ignoreFailures, showProgress := false, false;
      effort, reportLevel, maxHeapSize := None, None, None;
      visitors, omitVisitors := [], [];
      includeFilterConfig, excludeFilterConfig, excludeBugsFilterConfig := None, None, None;
      extraArgs, jvmArgs := [], [];
      systemProperties := map[];
    }

    // ---------------------------------------------------------------
    // Result evaluation, with the task's own ignoreFailures

    /** `evaluateResult` as the task runs it: the statement-level form of
        `ResultEvaluation.Evaluate`, bound to the task's own `ignoreFailures`.
        Each early `throw` of the source is an early return of `Failed`. */
    method EvaluateResult(result: ResultEvaluation.SpotBugsResult, reports: seq<ResultEvaluation.Report>,
                          render: Path -> string)
      returns (o: ResultEvaluation.Outcome)
      ensures o == ResultEvaluation.Evaluate(result, reports, ignoreFailures, render)
      ensures ignoreFailures && !ResultEvaluation.IsInfrastructureFailure(result) ==> !o.Failed?
    {
      if result.hasException {
        return ResultEvaluation.Failed(ResultEvaluation.ErrorMessage, true);
      }
      if result.errorCount > 0 {
        return ResultEvaluation.Failed(ResultEvaluation.ErrorMessage, false);
      }
      o := ResultEvaluation.Clean;
      if result.bugCount > 0 {
        var message := ResultEvaluation.ViolationsMessage;
        var report := ResultEvaluation.FirstEnabled(reports);
        if report.Some? {
          var reportUrl := render(report.value.destination);
          message := message + ResultEvaluation.ReportPointer + reportUrl;
        }
        if GetIgnoreFailures() {
          o := ResultEvaluation.Warned(message);
        } else {
          o := ResultEvaluation.Failed(message, false);
        }
      }
    }

    // ---------------------------------------------------------------
    // Fluent methods that append arguments and add system properties

    /** `extraArgs(Iterable)`: appends the arguments one by one, in order. */
    method ExtraArgsFromIterable(arguments: seq<string>) returns (task: SpotBugsTask<V>)
      modifies this
      ensures task == this
      ensures Config() == old(Config()).(extraArgs := old(extraArgs) + arguments)
    {
      var i := 0;
      while i < |arguments|
        invariant 0 <= i <= |arguments|
        invariant Config() == old(Config()).(extraArgs := old(extraArgs) + arguments[..i])
      {
        extraArgs := extraArgs + [arguments[i]];
        i := i + 1;
        assert arguments[..i] == arguments[..i - 1] + [arguments[i - 1]];
      }
      assert arguments[..i] == arguments;
      task := this;
    }

    /** `extraArgs(String...)`: appends the whole array with `addAll`. */
    method ExtraArgs(arguments: seq<string>) returns (task: SpotBugsTask<V>)
      modifies this
      ensures task == this
      ensures Config() == old(Config()).(extraArgs := old(extraArgs) + arguments)
    {
      extraArgs := extraArgs + arguments;
      task := this;
    }

    /** `jvmArgs(Iterable)`: appends the arguments one by one, in order. */
    method JvmArgsFromIterable(arguments: seq<string>) returns (task: SpotBugsTask<V>)
      modifies this
      ensures task == this
      ensures Config() == old(Config()).(jvmArgs := old(jvmArgs) + arguments)
    {
      var i := 0;
      while i < |arguments|
        invariant 0 <= i <= |arguments|
        invariant Config() == old(Config()).(jvmArgs := old(jvmArgs) + arguments[..i])
      {
        jvmArgs := jvmArgs + [arguments[i]];
        i := i + 1;
        assert arguments[..i] == arguments[..i - 1] + [arguments[i - 1]];
      }
      assert arguments[..i] == arguments;
      task := this;
    }

    /** `jvmArgs(String...)`: appends the whole array with `addAll`. */
    method JvmArgs(arguments: seq<string>) returns (task: SpotBugsTask<V>)
      modifies this
      ensures task == this
      ensures Config() == old(Config()).(jvmArgs := old(jvmArgs) + arguments)
    {
      jvmArgs := jvmArgs + arguments;
      task := this;
    }

    /** `systemProperty(name, argument)`: a `put` into the property map. */
    method SystemProperty(name: string, argument: V) returns (task: SpotBugsTask<V>)
      modifies this
      ensures task == this
      ensures name in systemProperties && systemProperties[name] == argument
      ensures forall k | k in old(systemProperties) && k != name ::
                k in systemProperties && systemProperties[k] == old(systemProperties)[k]
      ensures Config() == old(Config()).(systemProperties := PropertyMaps.Put(old(systemProperties), name, argument))
    {
      systemProperties := PropertyMaps.Put(systemProperties, name, argument);
      task := this;
    }

    /** `systemProperties(arguments)`: a `putAll`, so keys of `arguments` win. */
    method SystemProperties(arguments: map<string, V>) returns (task: SpotBugsTask<V>)
      modifies this
      ensures task == this
      ensures Config() == old(Config()).(systemProperties := PropertyMaps.PutAll(old(systemProperties), arguments))
    {
      systemProperties := PropertyMaps.PutAll(systemProperties, arguments);
      task := this;
    }

    // ---------------------------------------------------------------
    // Getters

    function GetClasses(): Option<FileCollection> reads this { classes }
    function GetClasspath(): Option<FileCollection> reads this { classpath }
    function GetSpotbugsClasspath(): Option<FileCollection> reads this { spotbugsClasspath }
    function GetPluginClasspath(): Option<FileCollection> reads this { pluginClasspath }
    function GetIgnoreFailures(): bool reads this { ignoreFailures }
    function GetShowProgress(): bool reads this { showProgress }
    function GetEffort(): Option<string> reads this { effort }
    function GetReportLevel(): Option<string> reads this { reportLevel }
    function GetMaxHeapSize(): Option<string> reads this { maxHeapSize }
    function GetVisitors(): seq<string> reads this { visitors }
    function GetOmitVisitors(): seq<string> reads this { omitVisitors }
    function GetIncludeFilterConfig(): Option<TextResource> reads this { includeFilterConfig }
    function GetExcludeFilterConfig(): Option<TextResource> reads this { excludeFilterConfig }
    function GetExcludeBugsFilterConfig(): Option<TextResource> reads this { excludeBugsFilterConfig }
    function GetExtraArgs(): seq<string> reads this { extraArgs }
    function GetJvmArgs(): seq<string> reads this { jvmArgs }
    function GetSystemProperties(): map<string, V> reads this { systemProperties }

    /** `getIncludeFilter`: the file of the include filter, null when none is configured.
        `asFile` stands for `TextResource.asFile`. */
    function GetIncludeFilter(asFile: TextResource -> Path): (f: Option<Path>)
      reads this
      ensures f.None? <==> includeFilterConfig.None?
      ensures f.Some? ==> f.value == asFile(includeFilterConfig.value)
    {
      match includeFilterConfig
      case None => None
      case Some(config) => Some(asFile(config))
    }

    /** `getExcludeFilter`: the file of the exclude filter, null when none is configured. */
    function GetExcludeFilter(asFile: TextResource -> Path): (f: Option<Path>)
      reads this
      ensures f.None? <==> excludeFilterConfig.None?
      ensures f.Some? ==> f.value == asFile(excludeFilterConfig.value)
    {
      match excludeFilterConfig
      case None => None
      case Some(config) => Some(asFile(config))
    }

    /** `getExcludeBugsFilter`: the file of the baseline filter, null when none is configured. */
    function GetExcludeBugsFilter(asFile: TextResource -> Path): (f: Option<Path>)
      reads this
      ensures f.None? <==> excludeBugsFilterConfig.None?
      ensures f.Some? ==> f.value == asFile(excludeBugsFilterConfig.value)
    {
      match excludeBugsFilterConfig
      case None => None
      case Some(config) => Some(asFile(config))
    }

    // ---------------------------------------------------------------
    // Setters: each one changes its own field and no other

    method SetClasses(classes: Option<FileCollection>)
      modifies this
      ensures GetClasses() == classes
      ensures Config() == old(Config()).(classes := classes)
    {
      this.classes := classes;
    }

    method SetClasspath(classpath: Option<FileCollection>)
      modifies this
      ensures GetClasspath() == classpath
      ensures Config() == old(Config()).(classpath := classpath)
    {
      this.classpath := classpath;
    }

    method SetSpotbugsClasspath(spotbugsClasspath: Option<FileCollection>)
      modifies this
      ensures GetSpotbugsClasspath() == spotbugsClasspath
      ensures Config() == old(Config()).(spotbugsClasspath := spotbugsClasspath)
    {
      this.spotbugsClasspath := spotbugsClasspath;
    }

    method SetPluginClasspath(pluginClasspath: Option<FileCollection>)
      modifies this
      ensures GetPluginClasspath() == pluginClasspath
      ensures Config() == old(Config()).(pluginClasspath := pluginClasspath)
    {
      this.pluginClasspath := pluginClasspath;
    }

    method SetIgnoreFailures(ignoreFailures: bool)
      modifies this
      ensures GetIgnoreFailures() == ignoreFailures
      ensures Config() == old(Config()).(ignoreFailures := ignoreFailures)
    {
      this.ignoreFailures := ignoreFailures;
    }

    method SetShowProgress(showProgress: bool)
      modifies this
      ensures GetShowProgress() == showProgress
      ensures Config() == old(Config()).(showProgress := showProgress)
    {
      this.showProgress := showProgress;
    }

    method SetEffort(effort: Option<string>)
      modifies this
      ensures GetEffort() == effort
      ensures Config() == old(Config()).(effort := effort)
    {
      this.effort := effort;
    }

    method SetReportLevel(reportLevel: Option<string>)
      modifies this
      ensures GetReportLevel() == reportLevel
      ensures Config() == old(Config()).(reportLevel := reportLevel)
    {
      this.reportLevel := reportLevel;
    }

    method SetMaxHeapSize(maxHeapSize: Option<string>)
      modifies this
      ensures GetMaxHeapSize() == maxHeapSize
      ensures Config() == old(Config()).(maxHeapSize := maxHeapSize)
    {
      this.maxHeapSize := maxHeapSize;
    }

    method SetVisitors(visitors: seq<string>)
      modifies this
      ensures GetVisitors() == visitors
      ensures Config() == old(Config()).(visitors := visitors)
    {
      this.visitors := visitors;
    }

    method SetOmitVisitors(omitVisitors: seq<string>)
      modifies this
      ensures GetOmitVisitors() == omitVisitors
      ensures Config() == old(Config()).(omitVisitors := omitVisitors)
    {
      this.omitVisitors := omitVisitors;
    }

    method SetIncludeFilterConfig(includeFilterConfig: Option<TextResource>)
      modifies this
      ensures GetIncludeFilterConfig() == includeFilterConfig
      ensures Config() == old(Config()).(includeFilterConfig := includeFilterConfig)
    {
      this.includeFilterConfig := includeFilterConfig;
    }

    method SetExcludeFilterConfig(excludeFilterConfig: Option<TextResource>)
      modifies this
      ensures GetExcludeFilterConfig() == excludeFilterConfig
      ensures Config() == old(Config()).(excludeFilterConfig := excludeFilterConfig)
    {
      this.excludeFilterConfig := excludeFilterConfig;
    }

    method SetExcludeBugsFilterConfig(excludeBugsFilterConfig: Option<TextResource>)
      modifies this
      ensures GetExcludeBugsFilterConfig() == excludeBugsFilterConfig
      ensures Config() == old(Config()).(excludeBugsFilterConfig := excludeBugsFilterConfig)
    {
      this.excludeBugsFilterConfig := excludeBugsFilterConfig;
    }

    method SetExtraArgs(extraArgs: seq<string>)
      modifies this
      ensures GetExtraArgs() == extraArgs
      ensures Config() == old(Config()).(extraArgs := extraArgs)
    {
      this.extraArgs := extraArgs;
    }

    method SetJvmArgs(jvmArgs: seq<string>)
      modifies this
      ensures GetJvmArgs() == jvmArgs
      ensures Config() == old(Config()).(jvmArgs := jvmArgs)
    {
      this.jvmArgs := jvmArgs;
    }

    method SetSystemProperties(systemProperties: map<string, V>)
      modifies this
      ensures GetSystemProperties() == systemProperties
      ensures Config() == old(Config()).(systemProperties := systemProperties)
    {
      this.systemProperties := systemProperties;
    }
  }
}
