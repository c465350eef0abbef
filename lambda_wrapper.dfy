/** `LambdaWrapper.getWrapper`, installed in the sandbox by the bootstrap file:
    finds a function's handler, loads its module from the service root, wraps the
    export with the invocation adapter and re-applies the function's environment.
    Module loading, path joining and the adapter are foreign calls and enter as
    parameters; loading and wrapping may fail. */
module LambdaWrapper {
  import opened Wrappers
  import opened ServiceModel
  import opened HandlerSpec
  import opened Sandbox

  /** Where a function's handler lives: the module path and the export name. */
  datatype Location = Location(path: string, exportName: Option<string>)

  /** The lookup part of `getWrapper`: `getFunction(name)`, the split of its handler
      spec and `path.join(rootDir, handlerFile)`. It fails exactly when the
      function is undeclared, has no handler, or the root directory is undefined;
      otherwise the path joins the root with the first segment of the spec and the
      export is its second segment. */
  function Locate(global: WrapperGlobal, name: string, join: (string, string) -> string): (r: Result<Location, Error>)
    ensures name !in global.service.functions ==> r == Failure(UndeclaredFunction(name))
    ensures name in global.service.functions && global.service.functions[name].handler.None? ==> r == Failure(NoHandler(name))
    ensures name in global.service.functions && global.service.functions[name].handler.Some? && global.rootDir.None? ==>
      r == Failure(NoRootDir)
    ensures r.Success? <==>
      name in global.service.functions && global.service.functions[name].handler.Some? && global.rootDir.Some?
    ensures r.Success? ==>
      var spec := global.service.functions[name].handler.value;
      && r.value.path == join(global.rootDir.value, Split(spec)[0])
      && r.value.exportName == HandlerName(spec)
  {
    if name !in global.service.functions then Failure(UndeclaredFunction(name))
    else match global.service.functions[name].handler
      case None => Failure(NoHandler(name))
      case Some(spec) =>
        match global.rootDir
        case None => Failure(NoRootDir)
        case Some(root) => Success(Location(join(root, HandlerFile(spec)), HandlerName(spec)))
  }

  /** `getWrapper(name)` against the sandbox's `ServerlessWrapper` global. The
      function's environment is assigned onto `processEnv` only after lookup, load
      and wrap have all succeeded, so its keys override whatever was set before; a
      failure in any step leaves `processEnv` unchanged. The result is exactly what
      the adapter produced. */
  method GetWrapper<M, W>(sandbox: ServerlessEnvironment, name: string, processEnv: ProcessEnv,
                          join: (string, string) -> string,
                          load: string -> Option<M>,
                          wrap: (M, Option<string>) -> Option<W>)
    returns (r: Result<W, Error>)
    modifies processEnv
    ensures sandbox.wrapper.None? ==> r == Failure(NoWrapperGlobal)
    ensures sandbox.wrapper.Some? && Locate(sandbox.wrapper.value, name, join).Failure? ==>
      r == Failure(Locate(sandbox.wrapper.value, name, join).error)
    ensures r.Success? <==>
      && sandbox.wrapper.Some?
      && Locate(sandbox.wrapper.value, name, join).Success?
      && load(Locate(sandbox.wrapper.value, name, join).value.path).Some?
      && wrap(load(Locate(sandbox.wrapper.value, name, join).value.path).value,
              Locate(sandbox.wrapper.value, name, join).value.exportName).Some?
    ensures r.Success? ==>
      var loc := Locate(sandbox.wrapper.value, name, join).value;
      && r.value == wrap(load(loc.path).value, loc.exportName).value
      && processEnv.vars == Overlay(old(processEnv.vars), ServiceModel.GetEnv(sandbox.wrapper.value.service, name))
    ensures r.Failure? ==> processEnv.vars == old(processEnv.vars)
  {
    if sandbox.wrapper.None? {
      return Failure(NoWrapperGlobal);
    }
    var global := sandbox.wrapper.value;
    var location := Locate(global, name, join);
    if location.Failure? {
      return Failure(location.error);
    }
    var handlerModule := load(location.value.path);
    if handlerModule.None? {
      return Failure(ModuleNotLoaded(location.value.path));
    }
    var wrapped := wrap(handlerModule.value, location.value.exportName);
    if wrapped.None? {
      return Failure(WrapFailed(location.value.path));
    }
    var _ := SetEnvOn(global.service, name, processEnv);
    r := Success(wrapped.value);
  }
}
