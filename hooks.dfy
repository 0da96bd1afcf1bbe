/** The `UpdateHook` interface of package `value`, as the calls a hook receives. */
module Hooks {

  /** One call on an `UpdateHook[int]`. */
  datatype HookEvent =
    | OnInput(input: int, state: int)
    | OnTransform(name: string, input: int, output: int, state: int)
    | AfterUpdate(finalState: int)
}
