# jest-environment-serverless, modelled in Dafny

The repository is a test environment for the Jest runner that runs serverless-framework
function handlers in a sandbox and injects the environment variables the service
definition declares. This project models its core:

- the normalisation of the runner configuration when the environment is constructed
  (`setupFiles` gets the bootstrap file in front exactly once, `coveragePathIgnorePatterns`
  gets the framework's build directories appended once), the `ServerlessWrapper` global it
  registers and the `SERVERLESS_TEST_ROOT` marker (module `ConfigLists`, class
  `Sandbox.ServerlessEnvironment`);
- environment-variable resolution and merging: `getEnv`, `setEnv`, the fold that `setup`
  performs over the provider and every function in `getAllFunctions()` order, and
  `tearDown` (modules `ServiceModel` and `Sandbox`);
- `LambdaWrapper.getWrapper`: the split of the handler spec on `.`, the module path, and the
  re-application of the function's environment after load and wrap succeed (modules
  `HandlerSpec` and `LambdaWrapper`).

Files: `wrappers.dfy` (Option, Result, Outcome), `service_model.dfy`, `config_lists.dfy`,
`handler_spec.dfy`, `sandbox.dfy`, `lambda_wrapper.dfy`, and `scenarios.dfy`, whose client
methods use the contracts alone to replay three of the repository's tests (three
constructions on one configuration, `setEnv` before `setup`, the sample project's `setup`
and `getWrapper`), plus one case of their own that no test exercises: `getWrapper` after
`tearDown`.

Foreign collaborators enter as parameters: the framework's lifecycle (`init`,
`populateService`, `mergeArrays`, `setFunctionNames`, `validate`) is the `loaded` argument of
`Setup` (`None` when it throws); `path.join`, module loading and the invocation adapter's
`wrap` are function parameters of `GetWrapper`, the last two possibly failing. Errors that
the source throws are `Failure`/`Fail` values.

`getEnv` and `setEnv` read the service and write the process environment of whichever
object they are called on. Called on the environment instance (as `setup` does), they use
the global's service and the sandbox's environment: `ServerlessEnvironment.GetEnv` and
`ServerlessEnvironment.SetEnv`, which fail once the global is deleted because the instance
has no service of its own. Called through the global object (as `getWrapper` does), they use
that object's service and the real process environment: `SetEnvOn`, with the target passed in.

Where the prose description and the code differ, the model follows the code:
- a declared function without an `environment` block makes `getEnv` return `undefined`, not an
  empty mapping (`None`; every merge skips it, as `Object.assign` does);
- the bootstrap file appears exactly once only if the list did not already hold it more than
  once: an existing entry is never removed (`RegisterSetupFileCount`).

## Model

| member | source | states |
|---|---|---|
| ServiceModel.GetEnv | src/index.js:72-85 | an undeclared function yields the empty mapping; a declared one yields its own `environment` (possibly undefined); only declared functions contribute keys |
| ServiceModel.Merge | src/index.js:68 | `Object.assign({}, ...layers)` from first to last; its meaning is stated by `MergeKeys` and `MergeLastWriteWins` |
| ServiceModel.SetupLayers | src/index.js:66-67 | the provider's `environment` (or `{}`) first, then `getEnv` of each function in `getAllFunctions()` order, one layer per function |
| ServiceModel.SetupVars | src/index.js:66-68 | the mapping `setup` assigns; its meaning is stated by `SetupFunctionWins` and `SetupFallback` |
| ServiceModel.Overlay | src/index.js:94-96 | `Object.assign`: every key of the layer takes the layer's value, every other key keeps its presence and value, an undefined layer changes nothing |
| ServiceModel.MergeKeys | src/index.js:68 | a key is in the merged mapping exactly when some layer declares it |
| ServiceModel.MergeLastWriteWins | src/index.js:68 | in the merge a key takes the value of the last layer that declares it |
| ServiceModel.SetupFunctionWins | src/index.js:66-69 | after `setup`, a key declared by a function holds the value of the last function in `getAllFunctions()` order declaring it, overriding provider and prior values |
| ServiceModel.SetupFallback | src/index.js:66-69 | after `setup`, a key no function declares holds the provider's value if the provider declares it, and otherwise keeps exactly its prior presence and value |
| ConfigLists.Config.constructor | src/index.js:19-39 | the configuration object holds exactly the given `cwd` and the two optional lists |
| ConfigLists.RegisterSetupFile | src/index.js:19-24 | the wrapper path is in the result; the list is unchanged exactly when it already held the path, and otherwise the path is element 0 followed by the old entries; counts are in `RegisterSetupFileCount` |
| ConfigLists.IterateIdempotent | src/index.js:19-35 | constructing any positive number of times against one configuration object equals constructing once, for any idempotent normalisation step |
| ConfigLists.RegisterTimes | src/index.js:19-24 | `setupFiles` after n constructions on one configuration; `RegisterSetupFileRepeated` proves it equals one construction |
| ConfigLists.RegisterSetupFileCount | src/index.js:19-24 | a missing or non-array list becomes `[]`; an absent wrapper path becomes element 0 with the old entries behind it in order and occurs once; a present one leaves the list unchanged |
| ConfigLists.RegisterSetupFileIdempotent | src/index.js:22-24 | registering the wrapper path twice has the effect of once |
| ConfigLists.RegisterSetupFileRepeated | src/index.js:19-24 | any positive number of constructions on one configuration equals one; from a list without the path, it occurs exactly once |
| ConfigLists.Missing | src/index.js:30-32 | the filter keeps exactly the fixed patterns not already present, in their original order, without repeats when the fixed list has none |
| ConfigLists.AddCoverageIgnores | src/index.js:27-35 | a missing list becomes `['node_modules']`; existing entries keep their positions and behind them come exactly the absent fixed patterns, `'\\.serverless'` before `'\\.serverless_plugins'`, each once |
| ConfigLists.AddCoverageIgnoresTimes | src/index.js:27-35 | `coveragePathIgnorePatterns` after n constructions on one configuration; `AddCoverageIgnoresRepeated` proves it equals one construction |
| ConfigLists.AddCoverageIgnoresDefault | src/index.js:16-35 | an empty configuration ends with `['node_modules', '\\.serverless', '\\.serverless_plugins']` |
| ConfigLists.AddCoverageIgnoresIdempotent | src/index.js:30-35 | a second construction leaves the ignore list unchanged |
| ConfigLists.AddCoverageIgnoresRepeated | src/index.js:27-35 | any positive number of constructions on one configuration equals one |
| HandlerSpec.Split | src/lambda_wrapper.js:12 | `split('.')` yields at least one piece and no piece contains a dot |
| HandlerSpec.JoinSplit | src/lambda_wrapper.js:12 | joining the pieces with dots gives back the handler spec |
| HandlerSpec.SplitJoin | src/lambda_wrapper.js:12 | splitting dot-free pieces joined with dots gives the pieces back |
| HandlerSpec.HandlerFile | src/lambda_wrapper.js:12 | the module file is the longest dot-free prefix of the spec: followed by a dot or the end of the spec |
| HandlerSpec.HandlerName | src/lambda_wrapper.js:12 | the export is undefined exactly when the spec has no dot; otherwise it is the whole dot-free piece after the first dot: the spec begins with file, dot, export, followed by a dot or the end |
| HandlerSpec.HandlerParts | src/lambda_wrapper.js:12 | the module file is the first segment, the export the second, further segments are ignored, a spec without a dot has no export |
| Sandbox.ProcessEnv.constructor | src/index.js:13 | the sandbox's process environment starts as the given mapping |
| Sandbox.ProcessEnv.Assign | src/index.js:94-96 | the environment becomes its overlay with the layer, and the updated mapping is returned |
| Sandbox.SetEnvOn | src/index.js:87-100 | the target environment becomes its overlay with the function's `getEnv`, and the updated mapping is returned |
| Sandbox.ServerlessEnvironment.constructor | src/index.js:12-51 | both configuration lists are normalised in place, `cwd` is untouched, the sandbox gets its own fresh environment with `SERVERLESS_TEST_ROOT` = "true", and the global holds `cwd` and an uninitialised service |
| Sandbox.ServerlessEnvironment.Setup | src/index.js:53-70 | a lifecycle failure or a deleted global fails and changes nothing; on success the global holds the loaded service and the sandbox environment is overlaid with the merge of the provider and every function environment |
| Sandbox.ServerlessEnvironment.GetEnv | src/index.js:72-85 | reads `getEnv` from the global's service; fails once the global is deleted |
| Sandbox.ServerlessEnvironment.SetEnv | src/index.js:87-100 | overlays the function's environment onto the sandbox environment and returns it; fails without change once the global is deleted |
| Sandbox.ServerlessEnvironment.TearDown | src/index.js:102-104 | the `ServerlessWrapper` global is gone; nothing else changes and it cannot fail |
| LambdaWrapper.Locate | src/lambda_wrapper.js:9-14 | fails for an undeclared function, a function without a handler, or an undefined root, each with its own error; otherwise the path joins the root with the spec's first segment and the export is its second |
| LambdaWrapper.GetWrapper | src/lambda_wrapper.js:8-23 | fails without touching the environment when the global is gone or lookup, load or wrap fails; on success returns exactly the adapter's value and overlays the function's environment onto the process environment afterwards |

## Left out

- The Jest base environment (`super(config)`, `super.setup()`, the sandbox's globals and fake timers): not visible here; the sandbox is reduced to its process environment and the `ServerlessWrapper` global.
- The framework's lifecycle calls and `getFunction`: foreign; only their result (the populated service, or a failure) is modelled. A failed lifecycle that half-mutated the service object is modelled as leaving the global unchanged.
- The `Serverless` class reference and the `getEnv`/`setEnv` function references stored on the global: identities of JavaScript objects, not state the model reasons about.
- Dynamic module loading, `path.join` and the adapter's `wrap` and `run`: foreign calls, passed in as uninterpreted functions; `run()` and the sample handler's callback behaviour are not modelled.
- `module.paths.unshift` at load time: module-resolution plumbing.
- `async`/`await`: each operation is one sequential step.
- JavaScript `this`-binding: modelled only as the choice of service and target environment described above.
- Aliasing of the service object: the repository's test mutates a function's `environment` in place through the global; the model replaces the service value held by the global instead.
- Case-insensitive environment keys: on Windows `process.env` and the sandbox copy of it match variable names without regard to case, so assigning `path` overwrites `PATH`; here keys are compared exactly, as on other platforms.
- Value coercion by `process.env`: variable values are strings throughout; only the marker's `true` is written out as "true".
- ServiceModel.GetEnv: a name inherited from `Object.prototype` (`toString`, `constructor`) counts as undeclared and yields the empty mapping, while the property lookup in the source finds the inherited member and returns its `environment`, which is `undefined`; `Object.assign` skips both, so no environment differs. The same holds for `ServerlessEnvironment.GetEnv`.
- A function entry whose value is itself falsy (`null`): every declared entry is a record here.
- `getAllFunctions()` lists the keys of `functions`; the model takes the order as given and its lemmas hold for any order, including names that are not declared.
