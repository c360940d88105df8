/** `withPlugins` run step by step, as the compiled module executes it: one
    `reduce` callback per array element, each awaiting the accumulator
    before it calls its plugin. The run records the index and the input of
    every plugin it actually calls. */
module TracedRun {

  import opened Results
  import opened PluginRunner

  /** Returns the outcome `r`, the indices of the plugins called (`trace`)
      and the configuration each was called with (`inputs`). */
  method RunWithPlugins<T, E>(config: T, plugins: PluginsArg<T, E>)
    returns (r: Result<T, E>, trace: seq<nat>, inputs: seq<T>)
    ensures r == WithPlugins(config, plugins)
    ensures |trace| == |inputs| && forall j :: 0 <= j < |trace| ==> trace[j] == j
    ensures plugins.NotArray? ==> r == Ok(config) && trace == []
    ensures plugins.Arr? ==> IsRun(config, plugins.s, inputs, r) && inputs == Inputs(config, plugins.s)
  {
    match plugins
    case NotArray =>
      r, trace, inputs := Ok(config), [], [];
    case Arr(ps) =>
      var acc: Result<T, E> := Ok(config);
      trace, inputs := [], [];
      for i := 0 to |ps|
        invariant acc == Reduce(Ok(config), ps[..i])
        invariant |trace| == |inputs| && forall j :: 0 <= j < |trace| ==> trace[j] == j
        invariant IsRun(config, ps[..i], inputs, acc)
      {
        ReduceSnoc(Ok(config), ps[..i], ps[i]);
        assert ps[..i + 1] == ps[..i] + [ps[i]];
        match acc
        case Ok(current) =>
          assert |inputs| == i;
          assert i > 0 ==> ps[i - 1](inputs[i - 1]) == Ok(current);
          trace, inputs := trace + [i], inputs + [current];
          acc := ps[i](current);
        case Err(_) =>
          // `await acc` rethrows: plugin i is not called
      }
      assert ps[..|ps|] == ps;
      r := acc;
      RunUnique(config, ps, inputs, r);
  }
}
