/** The test environment itself: the sandbox's process environment, the
    `ServerlessWrapper` global it registers, and its lifecycle (construction,
    `setup`, `tearDown`) together with `getEnv` and `setEnv`. */
module Sandbox {
  import opened Wrappers
  import opened ServiceModel
  import opened ConfigLists

  /** Stands for `path.join(__dirname, 'lambda_wrapper.js')`, a fixed path per installation. */
  const WrapperPath := "lambda_wrapper.js"

  /** The marker variable that tells handler code it runs under the test environment. */
  const TestRootMarker := "SERVERLESS_TEST_ROOT"

  /** What a call would throw. */
  datatype Error =
    | NoWrapperGlobal                 // the `ServerlessWrapper` global is gone (after `tearDown`)
    | LifecycleFailed                 // `init`, `populateService` or `validate` threw
    | UndeclaredFunction(name: string)  // `getFunction` of a function the service does not declare
    | NoHandler(name: string)         // the function has no handler string to split
    | NoRootDir                       // `path.join` of an undefined `cwd`
    | ModuleNotLoaded(path: string)   // the handler module could not be loaded
    | WrapFailed(path: string)        // the wrapping adapter threw

  /** A process-like environment object whose mapping is updated in place. */
  class ProcessEnv {
    var vars: Env

    constructor (initial: Env)
      ensures vars == initial
    {
      vars := initial;
    }

    /** `Object.assign(env, layer)`, which returns the updated object. */
    method Assign(layer: Option<Env>) returns (r: Env)
      modifies this
      ensures vars == Overlay(old(vars), layer)
      ensures r == vars
    {
      match layer {
        case None =>
        case Some(m) => vars := vars + m;
      }
      r := vars;
    }
  }

  /** `setEnv` reached through the `ServerlessWrapper` global: it reads that global's
      service and assigns onto the process environment `target`. Every key the
      function declares takes the declared value, every other key is unchanged,
      and the updated mapping is returned. */
  method SetEnvOn(service: Service, name: string, target: ProcessEnv) returns (r: Env)
    modifies target
    ensures target.vars == Overlay(old(target.vars), GetEnv(service, name))
    ensures r == target.vars
  {
    r := target.Assign(GetEnv(service, name));
  }

  /** The `ServerlessWrapper` global: the service root directory (`config.cwd`) and
      the framework instance, represented by its service model. */
  datatype WrapperGlobal = WrapperGlobal(rootDir: Option<string>, service: Service)

  /** One test environment: its own copy of the process environment and the
      `ServerlessWrapper` global it registers (`None` once deleted). */
  class ServerlessEnvironment {
    const env: ProcessEnv
    var wrapper: Option<WrapperGlobal>

    /** Normalises the configuration's lists in place, registers the global with a
        framework instance that is not initialised yet, and sets the marker
        variable (the value `true` is stored as the string "true"). */
    constructor (config: Config, hostEnv: Env)
      modifies config
      ensures config.setupFiles == Some(RegisterSetupFile(old(config.setupFiles), WrapperPath))
      ensures config.coveragePathIgnorePatterns == Some(AddCoverageIgnores(old(config.coveragePathIgnorePatterns)))
      ensures config.cwd == old(config.cwd)
      ensures fresh(env)
      ensures env.vars == hostEnv[TestRootMarker := "true"]
      ensures wrapper == Some(WrapperGlobal(config.cwd, EmptyService))
    {
      env := new ProcessEnv(hostEnv);
      wrapper := Some(WrapperGlobal(config.cwd, EmptyService));
      new;
      config.setupFiles := Some(RegisterSetupFile(config.setupFiles, WrapperPath));
      config.coveragePathIgnorePatterns := Some(AddCoverageIgnores(config.coveragePathIgnorePatterns));
      env.vars := env.vars[TestRootMarker := "true"];
    }

    /** `setup`: `loaded` is the service after the framework's own lifecycle
        (`None` when it threw). On success the global's service is the loaded one
        and the provider and all function environments, merged in
        `getAllFunctions()` order, are assigned onto the sandbox environment. */
    method Setup(loaded: Option<Service>) returns (r: Outcome<Error>)
      modifies this, env
      ensures old(wrapper).None? ==> r == Fail(NoWrapperGlobal)
      ensures old(wrapper).Some? && loaded.None? ==> r == Fail(LifecycleFailed)
      ensures r.Fail? ==> wrapper == old(wrapper) && env.vars == old(env.vars)
      ensures old(wrapper).Some? && loaded.Some? ==>
        && r == Pass
        && wrapper == Some(old(wrapper).value.(service := loaded.value))
        && env.vars == Overlay(old(env.vars), Some(SetupVars(loaded.value)))
    {
      if wrapper.None? {
        return Fail(NoWrapperGlobal);
      }
      if loaded.None? {
        return Fail(LifecycleFailed);
      }
      wrapper := Some(wrapper.value.(service := loaded.value));
      var _ := env.Assign(Some(SetupVars(loaded.value)));
      r := Pass;
    }

    /** `getEnv` on the environment instance: it reads the global's service; once the
        global is deleted the instance has no service of its own and the call throws. */
    method GetEnv(name: string) returns (r: Result<Option<Env>, Error>)
      ensures wrapper.None? ==> r == Failure(NoWrapperGlobal)
      ensures wrapper.Some? ==> r == Success(ServiceModel.GetEnv(wrapper.value.service, name))
    {
      if wrapper.None? {
        return Failure(NoWrapperGlobal);
      }
      r := Success(ServiceModel.GetEnv(wrapper.value.service, name));
    }

    /** `setEnv` on the environment instance: assigns the function's environment onto
        the sandbox's process environment and returns it. */
    method SetEnv(name: string) returns (r: Result<Env, Error>)
      modifies env
      ensures wrapper.None? ==> r == Failure(NoWrapperGlobal) && env.vars == old(env.vars)
      ensures wrapper.Some? ==>
        && env.vars == Overlay(old(env.vars), ServiceModel.GetEnv(wrapper.value.service, name))
        && r == Success(env.vars)
    {
      if wrapper.None? {
        return Failure(NoWrapperGlobal);
      }
      var updated := SetEnvOn(wrapper.value.service, name, env);
      r := Success(updated);
    }

    /** `tearDown`: deletes the global; never fails and leaves the environment alone. */
    method TearDown()
      modifies this
      ensures wrapper == None
    {
      wrapper := None;
    }
  }
}
