/** The parts of a serverless service definition that the test environment reads,
    and the pure environment-variable operations built on them: the per-function
    lookup (`getEnv`), `Object.assign` of one mapping onto another, and the fold
    that `setup` performs over the provider and all functions. */
module ServiceModel {
  import opened Wrappers

  /** A process-like environment: variable name to value. */
  type Env = map<string, string>

  /** One entry of `service.functions`: its `handler` spec ("file.export") and
      its optional `environment` block. */
  datatype FunctionDecl = FunctionDecl(handler: Option<string>, environment: Option<Env>)

  /** The service model after the framework has populated and validated it:
      the provider-level `environment`, the function declarations, and the
      order in which `getAllFunctions()` lists them. */
  datatype Service = Service(providerEnv: Option<Env>, functions: map<string, FunctionDecl>, order: seq<string>)

  /** The service of a framework instance that has not been initialised yet. */
  const EmptyService := Service(None, map[], [])

  /** True when `layer` is present and declares `key`. An absent layer (`undefined`)
      declares nothing. */
  predicate Declares(layer: Option<Env>, key: string)
  {
    layer.Some? && key in layer.value
  }

  /** `getEnv`: the declared environment of function `name`, the empty mapping when
      the service has no such function, and `None` (undefined) when the function
      exists but has no `environment` block. */
  function GetEnv(service: Service, name: string): (r: Option<Env>)
    ensures name !in service.functions ==> r == Some(map[])
    ensures name in service.functions ==> r == service.functions[name].environment
    ensures forall k :: Declares(r, k) ==> name in service.functions
  {
    if name in service.functions then service.functions[name].environment else Some(map[])
  }

  /** `Object.assign(target, layer)`: every key of the layer takes the layer's value,
      every other key keeps what the target had; an undefined layer is skipped. */
  function Overlay(target: Env, layer: Option<Env>): (r: Env)
    ensures forall k :: Declares(layer, k) ==> k in r && r[k] == layer.value[k]
    ensures forall k :: !Declares(layer, k) ==> (k in r <==> k in target)
    ensures forall k :: !Declares(layer, k) && k in target ==> r[k] == target[k]
  {
    match layer
    case None => target
    case Some(m) => target + m
  }

  /** `Object.assign({}, layers...)`: the layers assigned onto an empty object from
      first to last. */
  function Merge(layers: seq<Option<Env>>): Env
  {
    if layers == [] then map[] else Overlay(Merge(layers[..|layers| - 1]), layers[|layers| - 1])
  }

  /** A key is in the merge exactly when some layer declares it. */
  lemma {:induction false} MergeKeys(layers: seq<Option<Env>>, key: string)
    ensures key in Merge(layers) <==> exists i :: 0 <= i < |layers| && Declares(layers[i], key)
  {
    if layers != [] {
      var init := layers[..|layers| - 1];
      MergeKeys(init, key);
      if key in Merge(init) {
        var i :| 0 <= i < |init| && Declares(init[i], key);
        assert Declares(layers[i], key);
      }
      if !Declares(layers[|layers| - 1], key) && key in Merge(layers) {
        var i :| 0 <= i < |layers| && Declares(layers[i], key);
        assert Declares(init[i], key);
      }
    }
  }

  /** The layers `setup` merges: `provider.environment || {}` first, then `getEnv`
      of every function in `getAllFunctions()` order. */
  function SetupLayers(service: Service): (r: seq<Option<Env>>)
    ensures |r| == |service.order| + 1
    ensures r[0] == Some(service.providerEnv.GetOr(map[]))
    ensures forall i :: 0 <= i < |service.order| ==> r[i + 1] == GetEnv(service, service.order[i])
  {
    [Some(service.providerEnv.GetOr(map[]))]
      + seq(|service.order|, i requires 0 <= i < |service.order| => GetEnv(service, service.order[i]))
  }

  /** The mapping `setup` assigns onto the sandbox's process environment. */
  function SetupVars(service: Service): Env
  {
    Merge(SetupLayers(service))
  }

  /** Function number `i` of `getAllFunctions()` is the last one declaring `key`. */
  ghost predicate LastDeclarer(service: Service, key: string, i: nat)
  {
    && i < |service.order|
    && Declares(GetEnv(service, service.order[i]), key)
    && forall j :: i < j < |service.order| ==> !Declares(GetEnv(service, service.order[j]), key)
  }

  /** No function of `getAllFunctions()` declares `key`. */
  ghost predicate NoFunctionDeclares(service: Service, key: string)
  {
    forall j :: 0 <= j < |service.order| ==> !Declares(GetEnv(service, service.order[j]), key)
  }

  /** In a merge, a key takes the value of the last layer that declares it. */
  lemma {:induction false} MergeLastWriteWins(layers: seq<Option<Env>>, key: string, i: nat)
    requires i < |layers| && Declares(layers[i], key)
    requires forall j :: i < j < |layers| ==> !Declares(layers[j], key)
    ensures key in Merge(layers) && Merge(layers)[key] == layers[i].value[key]
  {
    var init := layers[..|layers| - 1];
    if i < |layers| - 1 {
      assert forall j :: i < j < |init| ==> init[j] == layers[j];
      MergeLastWriteWins(init, key, i);
    }
  }

  /** After `setup`, a key declared by some function holds the value of the last
      function in `getAllFunctions()` order that declares it, whatever the provider
      or the previous environment said. */
  lemma SetupFunctionWins(service: Service, env: Env, key: string, i: nat)
    requires LastDeclarer(service, key, i)
    ensures var r := Overlay(env, Some(SetupVars(service)));
      key in r && r[key] == GetEnv(service, service.order[i]).value[key]
  {
    var layers := SetupLayers(service);
    assert layers[i + 1] == GetEnv(service, service.order[i]);
    forall j | i + 1 < j < |layers| ensures !Declares(layers[j], key) {
      assert layers[j] == GetEnv(service, service.order[j - 1]);
    }
    MergeLastWriteWins(layers, key, i + 1);
  }

  /** After `setup`, a key no function declares holds the provider's value when the
      provider declares it, and otherwise keeps exactly what the environment had. */
  lemma SetupFallback(service: Service, env: Env, key: string)
    requires NoFunctionDeclares(service, key)
    ensures var r := Overlay(env, Some(SetupVars(service)));
      && (Declares(service.providerEnv, key) ==> key in r && r[key] == service.providerEnv.value[key])
      && (!Declares(service.providerEnv, key) ==> (key in r <==> key in env) && (key in env ==> r[key] == env[key]))
  {
    var layers := SetupLayers(service);
    forall j | 0 < j < |layers| ensures !Declares(layers[j], key) {
      assert layers[j] == GetEnv(service, service.order[j - 1]);
    }
    if Declares(service.providerEnv, key) {
      MergeLastWriteWins(layers, key, 0);
    } else {
      assert !Declares(layers[0], key);
      MergeKeys(layers, key);
    }
  }
}
