# with-plugins, modelled in Dafny

`withPlugins(config, plugins)` threads a configuration value through an
ordered array of plugins, left to right. It folds with `reduce`, starting
from `Promise.resolve(config)`. Each callback awaits the accumulator and
calls its plugin with the resolved value. If `plugins` is not an array
(`Array.isArray` fails), the original `config` is returned.

The model:

- `Results.Result` is the outcome of an `await`: `Ok(value)` or `Err(error)`.
- `PluginRunner.Plugin<T, E>` is a total function `T -> Result<T, E>`.
  `Ok` stands for a returned or resolved value. `Err` stands for a throw or a rejection.
- `PluginRunner.PluginsArg` is `Arr(seq of plugins)` or `NotArray`, which mirrors the `Array.isArray` guard.
- `PluginRunner.Step` is one `reduce` callback. `PluginRunner.Reduce` is the fold.
  `PluginRunner.WithPlugins` is the function itself.
- `PluginRunner.Inputs` lists the configuration each called plugin receives.
- `PluginRunner.IsRun` describes a run independently of the fold: what each plugin was called with, and the outcome.
- `TracedRun.RunWithPlugins` runs the fold as a loop. It records the index and
  the input of every plugin it actually calls.
- `Scenarios` holds four concrete runs.

`dist/index.js:4-13` is the compiled form of `src/index.ts:3-15`, with the
same logic line for line. The pure members cite the TypeScript source. The
step-by-step method cites the compiled module.

## Model

| member | source | states |
|---|---|---|
| `PluginRunner.NotArrayIdentity` | src/index.ts:7-14 | a non-array `plugins` argument yields the original `config` for every `config` |
| `PluginRunner.EmptyIdentity` | src/index.ts:8-11 | an empty array yields `config` (the fold starts from `Promise.resolve(config)`), and no plugin is called |
| `PluginRunner.SinglePlugin` | src/index.ts:8-11 | a one-plugin array yields exactly `p(config)`, and `p` is called once, with `config` |
| `PluginRunner.ReduceErr` | src/index.ts:9 | once the accumulator has failed, `await acc` rethrows in every later callback, so the fold ends with that same failure |
| `PluginRunner.ReduceAppend` | src/index.ts:8-11 | folding over `a + b` is folding over `b`, starting from the result of folding over `a` |
| `PluginRunner.ReduceSnoc` | src/index.ts:8-11 | the last callback runs on the fold of all earlier plugins |
| `PluginRunner.WithPluginsAppend` | src/index.ts:8-12 | fold composition: running `a + b` runs `b` on the successful result of `a`, and a failure of `a` is the outcome |
| `PluginRunner.WithPluginsSnoc` | src/index.ts:8-12 | the plugin listed last is applied to the resolved output of all earlier ones, so `[p1..pn]` yields `pn(...p1(config)...)` |
| `PluginRunner.IsRunTail` | src/index.ts:9-10 | after the first plugin resolves, the rest of a run is a run of the remaining plugins, starting from that output |
| `PluginRunner.RunUnique` | src/index.ts:8-12 | any run description has exactly the model's inputs and the model's outcome |
| `PluginRunner.InputsIsRun` | src/index.ts:8-12 | the model's inputs and outcome form a run description: the first plugin gets `config`, plugin i+1 gets plugin i's resolved output, and the last call's outcome is the result |
| `PluginRunner.RunCharacterization` | src/index.ts:8-12 | a run description holds if and only if its inputs are `Inputs` and its outcome is `WithPlugins` |
| `PluginRunner.AllSucceed` | src/index.ts:8-12 | when every plugin succeeds, the result is the last output of the left-to-right chain, and plugin i is called with the i-th value of that chain |
| `PluginRunner.FirstFailure` | src/index.ts:9-10 | when plugin k is the first to fail, the result is that same error, and only plugins 0..k are called |
| `TracedRun.RunWithPlugins` | dist/index.js:4-13 | the loop's outcome is `WithPlugins`; a non-array argument calls nothing and yields `config`; the trace is `[0, 1, ..., m-1]`; the recorded inputs form a run description (all n plugins on success, the first failing one last on failure) and equal `Inputs` |
| `Scenarios.Arithmetic` | src/index.ts:3-15 | `withPlugins(1, [x => x + 1, x => x * 2])` yields 4, with the plugins called on 1 and then on 2 |
| `Scenarios.RecordExtension` | src/index.ts:3-15 | `withPlugins({a:1}, [add b:2, add c:3])` yields `{a:1, b:2, c:3}` |
| `Scenarios.NotAnArray` | src/index.ts:7-14 | `withPlugins("start", "not-an-array")` yields `"start"` |
| `Scenarios.ThrowingPlugin` | src/index.ts:9-10 | `withPlugins(0, [x => x + 1, throw "boom", x => x + 100])` rejects with "boom", and the third plugin is never called |

## Left out

- Promise and microtask mechanics. `reduce` creates every callback's promise eagerly, but only the awaited order is observable. The model keeps the sequencing and drops the event loop.
- The difference between a plugin returning `T` and returning `Promise<T>` (src/types.ts:1). `await` treats them alike, so both are `Ok`. A synchronous throw and a rejection are both `Err`. A plugin that returns a value and one that returns a promise resolving to the same value therefore give the same outcome by construction, so no lemma states it.
- The narrower `Plugin<T>` returning only `Promise<T>` (src/index.ts:1, dist/index.d.ts:1). The model uses the wider type from src/types.ts:1.
- Dynamic typing beyond the array check. `NotArray` stands for null, scalars and objects. An array holding an element that is not a function is not modelled; the run would reject with a `TypeError` once that element is reached. Neither are sparse arrays, whose holes `reduce` skips.
- A thenable `config`. The model assumes `config` is not a promise or other object with a callable `then`. The source would adopt such a value at `Promise.resolve(config)` (src/index.ts:11) and at `return config` (src/index.ts:14), so the first plugin would receive its settled value and a rejection would become the outcome.
- Plugins that never settle. Plugins are total functions here, so a hanging plugin, which would stall the pipeline forever, is not modelled.
- Plugin side effects. The runner does not observe them.
- The declaration files dist/index.d.ts and dist/withPlugins.d.ts. They hold types only, and no logic.
