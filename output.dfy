/**
 * The Output step of the React wizard (react_version/src/pages/Output.js): it loads a saved
 * configuration, checks it section by section (the first failing check wins), sends it with
 * the chosen output directory to the generator, and records what the generator returns.
 */
module Output {
  import opened Wrappers
  import opened JsValue
  import opened Options

  const TimeIncomplete := "时间配置不完整，请返回时间设置页面完成配置"
  const DomainIncomplete := "域配置不完整，请返回域设置页面完成配置"
  const PhysicsIncomplete := "物理参数配置不完整，请返回物理参数设置页面完成配置"
  const DynamicsIncomplete := "动力学配置不完整，请返回动力学设置页面完成配置"

  const ParseFailed := "配置加载失败，请检查您的配置是否完整"
  const NotSaved := "未找到已保存的配置，请完成所有配置步骤"

  const IncompleteTitle := "配置不完整"
  const SuccessTitle := "配置文件生成成功"
  const SuccessText := "您可以下载生成的文件或查看预览"
  const FailureTitle := "生成失败"
  const UnknownError := "未知错误，请重试"
  const RequestFailed := "请求失败，请检查网络连接"

  /** A toast the page shows: title, description, and whether it is the destructive variant. */
  datatype Toast = Toast(title: string, description: Value, destructive: bool)

  /** The time check: start date, end date and data source all truthy. */
  predicate TimeComplete(config: Value)
  {
    Truthy(Prop(config, "start_date")) && Truthy(Prop(config, "end_date")) && Truthy(Prop(config, "data_source"))
  }

  /** The domain check: a truthy domain with a truthy `e_we`. */
  predicate DomainComplete(config: Value)
  {
    Truthy(Prop(config, "domain")) && Truthy(Prop(Prop(config, "domain"), "e_we"))
  }

  /** The physics check: a truthy physics section with a truthy `mp_physics`. */
  predicate PhysicsComplete(config: Value)
  {
    Truthy(Prop(config, "physics")) && Truthy(Prop(Prop(config, "physics"), "mp_physics"))
  }

  /** The dynamics check: a truthy dynamics section whose `diff_opt` is not undefined. */
  predicate DynamicsComplete(config: Value)
  {
    Truthy(Prop(config, "dynamics")) && Prop(Prop(config, "dynamics"), "diff_opt") != Undef
  }

  /**
   * validateConfig: the message of the first failing check in the order time, domain,
   * physics, dynamics, or None when all pass; reading a property of a null or undefined
   * configuration throws.
   */
  function Validate(config: Value): (r: Result<Option<string>, string>)
    ensures r.Err? <==> Nullish(config)
    ensures r.Err? ==> r.error == TypeError
    ensures r == Ok(None) <==> !Nullish(config) && TimeComplete(config) && DomainComplete(config)
                                && PhysicsComplete(config) && DynamicsComplete(config)
  {
    if Nullish(config) then Err(TypeError)
    else if !TimeComplete(config) then Ok(Some(TimeIncomplete))
    else if !DomainComplete(config) then Ok(Some(DomainIncomplete))
    else if !PhysicsComplete(config) then Ok(Some(PhysicsIncomplete))
    else if !DynamicsComplete(config) then Ok(Some(DynamicsIncomplete))
    else Ok(None)
  }

  /** The four checks in the order the page states them, each with its message. */
  function Checks(config: Value): seq<(bool, string)>
  {
    [(TimeComplete(config), TimeIncomplete), (DomainComplete(config), DomainIncomplete),
     (PhysicsComplete(config), PhysicsIncomplete), (DynamicsComplete(config), DynamicsIncomplete)]
  }

  /** The message of the first check that fails, if any: an independent reading of "first error wins". */
  function FirstFailure(checks: seq<(bool, string)>): (r: Option<string>)
  {
    if checks == [] then None
    else if !checks[0].0 then Some(checks[0].1)
    else FirstFailure(checks[1..])
  }

  /** The request body: the configuration spread, with `output_dir` the entered directory or "". */
  function Request(config: Value, outputDir: Value): (r: Object)
    ensures Get(r, "output_dir") == Or(outputDir, Str(""))
    ensures forall k :: k != "output_dir" ==> Get(r, k) == Get(Spread(config), k)
  {
    Merge(Spread(config), map["output_dir" := Or(outputDir, Str(""))])
  }

  /**
   * The load effect: an absent or empty saved entry reports that nothing was saved; an entry
   * that does not parse reports a load failure; either way the configuration is kept.
   * JSON parsing is the parameter `parse`.
   */
  function Load(saved: Option<string>, parse: string -> Option<Value>, config: Value, configError: Option<string>)
    : (r: (Value, Option<string>))
  {
    if saved.None? || saved.value == "" then (config, Some(NotSaved))
    else match parse(saved.value)
      case Some(v) => (v, configError)
      case None => (config, Some(ParseFailed))
  }

  /** The generate button is disabled while loading, on a load error, or when validation does not pass. */
  predicate GenerateDisabled(isLoading: bool, configError: Option<string>, config: Value)
  {
    isLoading || configError.Some? || Validate(config) != Ok(None)
  }

  /** handleDownload: the link a file type opens, when the downloads hold a truthy one. */
  function DownloadLink(downloads: Value, fileType: string): (r: Option<Value>)
    ensures r.Some? <==> Truthy(Prop(downloads, fileType))
    ensures r.Some? ==> r.value == Prop(downloads, fileType)
  {
    var link := Prop(downloads, fileType);
    if Truthy(link) then Some(link) else None
  }

  /** The generator answered with a truthy `success`. */
  predicate Succeeded(answer: Result<Value, string>)
  {
    answer.Ok? && !Nullish(answer.value) && Truthy(Prop(answer.value, "success"))
  }

  /**
   * What the page holds after an answer, starting from cleared messages: only a success marks
   * the files generated, takes the directory, messages, links and (when present) file contents
   * from the answer, and toasts success; anything else toasts a failure and keeps the rest.
   */
  predicate Recorded(answer: Result<Value, string>, outputDir0: Value, results0: Value, downloads0: Value,
                     isGenerated: bool, outputDir: Value, messages: Value, results: Value, downloads: Value, toast: Toast)
  {
    (isGenerated <==> Succeeded(answer))
    && (Succeeded(answer) ==>
          outputDir == Prop(answer.value, "output_dir")
          && messages == Or(Prop(answer.value, "messages"), Arr([]))
          && downloads == Or(Prop(answer.value, "download_links"), Obj(map[]))
          && results == Or(Prop(answer.value, "file_contents"), results0)
          && toast == Toast(SuccessTitle, Str(SuccessText), false))
    && (!Succeeded(answer) ==>
          outputDir == outputDir0 && messages == Arr([]) && downloads == downloads0 && results == results0
          && toast.title == FailureTitle && toast.destructive)
    && (answer.Ok? && !Nullish(answer.value) && !Succeeded(answer) ==>
          toast.description == Or(Prop(answer.value, "error"), Str(UnknownError)))
    && (answer.Err? ==> toast.description == Or(Str(answer.error), Str(RequestFailed)))
  }

  /** The page's state. */
  class Page {
    var isLoading: bool
    var isGenerated: bool
    var outputDir: Value
    var messages: Value
    var results: Value
    var downloads: Value
    var loading: bool
    var config: Value
    var configError: Option<string>

    /** The state the page mounts with, `DEFAULT_CONFIG` being `defaultConfig`. */
    constructor (defaultConfig: Value)
      ensures !isLoading && !isGenerated && outputDir == Str("") && messages == Arr([])
      ensures results == Obj(map["namelist_wps" := Str(""), "namelist_input" := Str("")])
      ensures downloads == Obj(map["namelist_wps" := Str(""), "namelist_input" := Str(""),
                                   "download_script" := Str(""), "run_script" := Str("")])
      ensures loading && config == defaultConfig && configError == None
    {
      isLoading := false;
      isGenerated := false;
      outputDir := Str("");
      messages := Arr([]);
      results := Obj(map["namelist_wps" := Str(""), "namelist_input" := Str("")]);
      downloads := Obj(map["namelist_wps" := Str(""), "namelist_input" := Str(""),
                           "download_script" := Str(""), "run_script" := Str("")]);
      loading := true;
      config := defaultConfig;
      configError := None;
    }

    /** The mount effect, given the saved `wrf_config` entry; loading ends whatever happens. */
    method LoadSaved(saved: Option<string>, parse: string -> Option<Value>)
      modifies this
      ensures (config, configError) == Load(saved, parse, old(config), old(configError))
      ensures !loading
      ensures isLoading == old(isLoading) && isGenerated == old(isGenerated) && outputDir == old(outputDir)
      ensures messages == old(messages) && results == old(results) && downloads == old(downloads)
    {
      if saved.Some? && saved.value != "" {
        var parsed := parse(saved.value);
        if parsed.Some? {
          config := parsed.value;
        } else {
          configError := Some(ParseFailed);
        }
      } else {
        configError := Some(NotSaved);
      }
      loading := false;
    }

    /** The directory input's change handler. */
    method SetOutputDir(dir: string)
      modifies this
      ensures outputDir == Str(dir)
      ensures isLoading == old(isLoading) && isGenerated == old(isGenerated) && loading == old(loading)
      ensures messages == old(messages) && results == old(results) && downloads == old(downloads)
      ensures config == old(config) && configError == old(configError)
    {
      outputDir := Str(dir);
    }

    /**
     * handleGenerateFiles with the generator as the parameter `api`: its answer, or the
     * message of what it threw. A failed validation shows its message and changes nothing;
     * otherwise the request is sent, and only a successful answer marks the files generated.
     * The configuration is the one the page renders with, so it is not null.
     */
    method GenerateFiles(api: Object -> Result<Value, string>) returns (request: Option<Object>, toast: Toast)
      requires !Nullish(config)
      modifies this
      ensures Validate(old(config)).value.Some? ==>
                request == None && toast == Toast(IncompleteTitle, Str(Validate(old(config)).value.value), true)
                && isLoading == old(isLoading) && isGenerated == old(isGenerated) && outputDir == old(outputDir)
                && messages == old(messages) && results == old(results) && downloads == old(downloads)
      ensures Validate(old(config)) == Ok(None) ==>
                request == Some(Request(old(config), old(outputDir))) && !isLoading
                && Recorded(api(Request(old(config), old(outputDir))), old(outputDir), old(results), old(downloads),
                            isGenerated, outputDir, messages, results, downloads, toast)
      ensures config == old(config) && configError == old(configError) && loading == old(loading)
    {
      var validation := Validate(config);
      if validation.value.Some? {
        return None, Toast(IncompleteTitle, Str(validation.value.value), true);
      }
      isLoading := true;
      messages := Arr([]);
      isGenerated := false;
      var body := Request(config, outputDir);
      request := Some(body);
      toast := Record(api(body));
      isLoading := false;
    }

    /** The part of handleGenerateFiles after the call: the answer, or what the call threw, is recorded. */
    method Record(answer: Result<Value, string>) returns (toast: Toast)
      requires !isGenerated && messages == Arr([])
      modifies this
      ensures Recorded(answer, old(outputDir), old(results), old(downloads), isGenerated, outputDir, messages, results, downloads, toast)
      ensures isLoading == old(isLoading) && config == old(config) && configError == old(configError) && loading == old(loading)
    {
      if answer.Err? {
        toast := Toast(FailureTitle, Or(Str(answer.error), Str(RequestFailed)), true);
      } else if Nullish(answer.value) {
        // reading `success` of a null or undefined answer throws inside the try block
        toast := Toast(FailureTitle, Str(TypeError), true);
      } else if Truthy(Prop(answer.value, "success")) {
        isGenerated := true;
        outputDir := Prop(answer.value, "output_dir");
        messages := Or(Prop(answer.value, "messages"), Arr([]));
        downloads := Or(Prop(answer.value, "download_links"), Obj(map[]));
        if Truthy(Prop(answer.value, "file_contents")) {
          results := Prop(answer.value, "file_contents");
        }
        toast := Toast(SuccessTitle, Str(SuccessText), false);
      } else {
        toast := Toast(FailureTitle, Or(Prop(answer.value, "error"), Str(UnknownError)), true);
      }
    }
  }

  // ----- properties -----

  /** Validation reports exactly the first failing check of the stated order. */
  lemma ValidateIsFirstFailure(config: Value)
    requires !Nullish(config)
    ensures Validate(config) == Ok(FirstFailure(Checks(config)))
  {
    var c := Checks(config);
    assert FirstFailure(c[3..]) == if !c[3].0 then Some(c[3].1) else None by {
      assert c[3..][0] == c[3] && c[3..][1..] == [];
    }
    assert FirstFailure(c[2..]) == if !c[2].0 then Some(c[2].1) else FirstFailure(c[3..]) by {
      assert c[2..][0] == c[2] && c[2..][1..] == c[3..];
    }
    assert FirstFailure(c[1..]) == if !c[1].0 then Some(c[1].1) else FirstFailure(c[2..]) by {
      assert c[1..][0] == c[1] && c[1..][1..] == c[2..];
    }
  }

  /** A configuration without a start date fails on time, whatever its other sections hold. */
  lemma TimeFirst(config: Object)
    requires !Truthy(Get(config, "start_date"))
    ensures Validate(Obj(config)) == Ok(Some(TimeIncomplete))
  {
  }

  /** A microphysics code 0 fails the physics check, while a diffusion code 0 passes the dynamics check. */
  lemma ZeroCodes(config: Object)
    requires Get(config, "physics") == Obj(map["mp_physics" := Int(0)])
    requires Get(config, "dynamics") == Obj(map["diff_opt" := Int(0)])
    ensures !PhysicsComplete(Obj(config))
    ensures DynamicsComplete(Obj(config))
  {
    assert Prop(Get(config, "physics"), "mp_physics") == Int(0);
    assert Prop(Get(config, "dynamics"), "diff_opt") == Int(0);
  }

  /** `DEFAULT_CONFIG`, with the clock's two dates non-empty, passes validation. */
  lemma DefaultConfigValid(startDate: string, endDate: string)
    requires startDate != "" && endDate != ""
    ensures Validate(Obj(DefaultConfig(startDate, endDate))) == Ok(None)
  {
    DefaultSections(startDate, endDate);
    DefaultCheckedFields();
    SectionsComplete(DefaultConfig(startDate, endDate), DefaultDomain, DefaultPhysics(), DefaultDynamics);
  }

  /** The sections `DEFAULT_CONFIG` holds. */
  lemma DefaultSections(startDate: string, endDate: string)
    ensures var c := DefaultConfig(startDate, endDate);
            Get(c, "start_date") == Str(startDate) && Get(c, "end_date") == Str(endDate)
            && Get(c, "data_source") == Str("GFS") && Get(c, "domain") == Obj(DefaultDomain)
            && Get(c, "physics") == Obj(DefaultPhysics()) && Get(c, "dynamics") == Obj(DefaultDynamics)
  {
  }

  /** The fields the checks read, in `DEFAULT_CONFIG`'s sections. */
  lemma DefaultCheckedFields()
    ensures Get(DefaultDomain, "e_we") == Int(100)
    ensures Get(DefaultPhysics(), "mp_physics") == Int(6)
    ensures Get(DefaultDynamics, "diff_opt") == Int(2)
  {
  }

  /** A configuration whose checked fields are set passes validation. */
  lemma SectionsComplete(c: Object, domain: Object, physics: Object, dynamics: Object)
    requires Truthy(Get(c, "start_date")) && Truthy(Get(c, "end_date")) && Truthy(Get(c, "data_source"))
    requires Get(c, "domain") == Obj(domain) && Truthy(Get(domain, "e_we"))
    requires Get(c, "physics") == Obj(physics) && Truthy(Get(physics, "mp_physics"))
    requires Get(c, "dynamics") == Obj(dynamics) && Get(dynamics, "diff_opt") != Undef
    ensures Validate(Obj(c)) == Ok(None)
  {
  }


  /**
   * The store the React steps fill keeps its sections under `time_control` and the like, not
   * under `start_date`: such a configuration always fails on time.
   */
  lemma StoreShapeFailsTime(config: Object)
    requires "start_date" !in config
    ensures Validate(Obj(config)) == Ok(Some(TimeIncomplete))
  {
  }

  /** Without a saved entry the button stays disabled, even though the default configuration is complete. */
  lemma NothingSavedDisables(parse: string -> Option<Value>, config: Value, configError: Option<string>, isLoading: bool)
    ensures var (c, e) := Load(None, parse, config, configError);
            c == config && GenerateDisabled(isLoading, e, c)
  {
  }

  /** A saved entry that parses replaces the configuration and keeps the error state; one that does not keeps the configuration and reports the failure. */
  lemma LoadOutcomes(s: string, parse: string -> Option<Value>, config: Value, configError: Option<string>)
    requires s != ""
    ensures parse(s).Some? ==> Load(Some(s), parse, config, configError) == (parse(s).value, configError)
    ensures parse(s).None? ==> Load(Some(s), parse, config, configError) == (config, Some(ParseFailed))
  {
  }

  /** An enabled button means the handler passes validation and sends the request. */
  lemma EnabledSends(isLoading: bool, configError: Option<string>, config: Value)
    requires !GenerateDisabled(isLoading, configError, config)
    ensures !Nullish(config) && Validate(config) == Ok(None)
  {
  }

  /** The request keeps every configuration field except `output_dir`, which becomes the entered directory. */
  lemma RequestOverridesDirectory(config: Object, dir: string)
    ensures Request(Obj(config), Str(dir)) == config["output_dir" := Str(dir)]
  {
    MergeSingleton(config, "output_dir", Str(dir));
    if dir == "" {
      assert Or(Str(dir), Str("")) == Str(dir);
    }
  }

  /** After a successful answer without download links, no download button opens anything. */
  lemma NoLinksNoDownloads(fileType: string)
    ensures DownloadLink(Obj(map[]), fileType) == None
  {
  }

  /** On the initial downloads, every download button opens nothing. */
  lemma InitialDownloadsEmpty(fileType: string)
    ensures DownloadLink(Obj(map["namelist_wps" := Str(""), "namelist_input" := Str(""),
                                 "download_script" := Str(""), "run_script" := Str("")]), fileType) == None
  {
  }
}
