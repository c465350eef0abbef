/** Client methods that replay the behaviour the repository's tests expect, using
    only the contracts of the modelled operations. */
module Scenarios {
  import opened Wrappers
  import opened ServiceModel
  import opened ConfigLists
  import opened Sandbox
  import opened LambdaWrapper

  /** Three environments built on one configuration register the bootstrap file once;
      an empty configuration gets both lists and the marker variable. */
  method RepeatedConstruction()
  {
    var config := new Config(None, Some([]), None);
    var e1 := new ServerlessEnvironment(config, map[]);
    var e2 := new ServerlessEnvironment(config, map[]);
    var e3 := new ServerlessEnvironment(config, map[]);
    RegisterSetupFileIdempotent(Some([]), WrapperPath);
    assert RegisterSetupFile(Some([]), WrapperPath) == [WrapperPath];
    AddCoverageIgnoresIdempotent(None);
    assert config.setupFiles == Some([WrapperPath]);
    AddCoverageIgnoresDefault();
    assert config.coveragePathIgnorePatterns == Some(["node_modules", "\\.serverless", "\\.serverless_plugins"]);
    assert e1.env != e2.env;
    assert e3.env.vars[TestRootMarker] == "true";
    assert e3.wrapper.Some?;
  }

  /** Before `setup` the framework instance declares no functions, so `setEnv('hello')`
      adds nothing. */
  method SetEnvBeforeSetup()
  {
    var config := new Config(Some("sample_sls_project"), None, None);
    var e := new ServerlessEnvironment(config, map[]);
    var r := e.SetEnv("hello");
    assert ServiceModel.GetEnv(EmptyService, "hello") == Some(map[]);
    assert r.Success? && "HELLO" !in r.value;
    assert r.value[TestRootMarker] == "true";
  }

  /** The sample project's service: provider STAGE and function `hello` with HELLO. */
  function SampleService(helloEnv: Env): Service
  {
    Service(Some(map["STAGE" := "prod-stage-test"]),
            map["hello" := FunctionDecl(Some("handler.hello"), Some(helloEnv))],
            ["hello"])
  }

  /** After `setup` of the sample project both variables are in the sandbox. */
  method SampleProjectSetup()
  {
    var service := SampleService(map["HELLO" := "world us-east-1"]);
    var config := new Config(Some("sample_sls_project"), None, None);
    var e := new ServerlessEnvironment(config, map[]);
    var before := e.env.vars;
    var setup := e.Setup(Some(service));
    assert setup == Pass;
    SetupFunctionWins(service, before, "HELLO", 0);
    assert GetEnv(service, service.order[0]) == Some(map["HELLO" := "world us-east-1"]);
    SetupFallback(service, before, "STAGE");
    assert e.env.vars["HELLO"] == "world us-east-1";
    assert e.env.vars["STAGE"] == "prod-stage-test";
  }

  /** A variable added to `hello` after `setup` reaches the process environment
      through `getWrapper`; after `tearDown` the lookup fails and changes nothing. */
  method SampleProjectGetWrapper(e: ServerlessEnvironment, hostEnv: ProcessEnv)
    requires e.wrapper.Some? && e.wrapper.value.rootDir == Some("sample_sls_project")
    modifies e, hostEnv
  {
    var helloEnv := map["HELLO" := "world us-east-1", "testEnvVar" := "some value"];
    e.wrapper := Some(e.wrapper.value.(service := SampleService(helloEnv)));
    var join := (root: string, file: string) => file;
    var load := (path: string) => Some(path);
    var wrap := (m: string, h: Option<string>) => Some(m);
    var wrapped := GetWrapper(e, "hello", hostEnv, join, load, wrap);
    assert wrapped.Success?;
    assert hostEnv.vars["testEnvVar"] == "some value";

    e.TearDown();
    var before := hostEnv.vars;
    var gone := GetWrapper(e, "hello", hostEnv, join, load, wrap);
    assert gone == Failure(NoWrapperGlobal) && hostEnv.vars == before;
  }
}
