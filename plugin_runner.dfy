/** `withPlugins`: thread a configuration value through an ordered list of
    plugins, left to right, each one awaiting the previous one's result. */
module PluginRunner {

  import opened Results

  /** A plugin maps a configuration to a new one. Returning a value and
      returning a promise that resolves to it are the same to `await`, so both
      are `Ok`; a synchronous throw and a rejected promise are both `Err`. */
  type Plugin<!T, E> = T -> Result<T, E>

  /** The `plugins` argument as `Array.isArray` sees it: an array of plugins,
      or anything else (null, a scalar, a plain object). */
  datatype PluginsArg<!T, E> = Arr(s: seq<Plugin<T, E>>) | NotArray

  /** One call of the `reduce` callback: await the accumulator, then hand its
      value to the plugin. A failed accumulator rethrows at the `await`, so the
      plugin is not called and the failure becomes the new accumulator. */
  function Step<T, E>(acc: Result<T, E>, plugin: Plugin<T, E>): Result<T, E>
  {
    match acc
    case Ok(config) => plugin(config)
    case Err(e) => Err(e)
  }

  /** `plugins.reduce(callback, acc)`: a left fold of Step. */
  function Reduce<T, E>(acc: Result<T, E>, plugins: seq<Plugin<T, E>>): Result<T, E>
    decreases |plugins|
  {
    if |plugins| == 0 then acc else Reduce(Step(acc, plugins[0]), plugins[1..])
  }

  /** The awaited result of `withPlugins(config, plugins)`. The fold starts
      from `Promise.resolve(config)`, that is, from `Ok(config)`. */
  function WithPlugins<T, E>(config: T, plugins: PluginsArg<T, E>): Result<T, E>
  {
    match plugins
    case Arr(s) => Reduce(Ok(config), s)
    case NotArray => Ok(config)
  }

  /** The configurations the plugins are called with, in call order: the
      first plugin gets `config`, each next one gets the value the previous
      one resolved to, and nothing is called after the first failure. */
  function Inputs<T, E>(config: T, plugins: seq<Plugin<T, E>>): seq<T>
    decreases |plugins|
  {
    if |plugins| == 0 then []
    else
      [config] + match plugins[0](config) {
        case Ok(next) => Inputs(next, plugins[1..])
        case Err(_) => []
      }
  }

  /** An independent description of one run: `inputs[i]` is what plugin `i`
      was called with and `r` is the outcome. The first plugin receives
      `config`; every call but the last resolved to the next call's input; the
      last call's outcome is the overall outcome; and a successful outcome
      means every plugin was called. */
  ghost predicate IsRun<T, E>(config: T, plugins: seq<Plugin<T, E>>, inputs: seq<T>, r: Result<T, E>)
  {
    && |inputs| <= |plugins|
    && (|inputs| == 0 ==> |plugins| == 0 && r == Ok(config))
    && (|inputs| > 0 ==> inputs[0] == config && plugins[|inputs| - 1](inputs[|inputs| - 1]) == r)
    && (forall i :: 0 <= i < |inputs| - 1 ==> plugins[i](inputs[i]) == Ok(inputs[i + 1]))
    && (r.Ok? ==> |inputs| == |plugins|)
  }

  /** A non-array `plugins` argument gives back `config` untouched. */
  lemma NotArrayIdentity<T, E>(config: T)
    ensures WithPlugins<T, E>(config, NotArray) == Ok(config)
  {
  }

  /** An empty plugin array gives back `config`. */
  lemma EmptyIdentity<T, E>(config: T, plugins: seq<Plugin<T, E>>)
    requires |plugins| == 0
    ensures WithPlugins(config, Arr(plugins)) == Ok(config)
    ensures Inputs(config, plugins) == []
  {
  }

  /** A single plugin's outcome is the whole outcome. */
  lemma SinglePlugin<T, E>(config: T, plugins: seq<Plugin<T, E>>)
    requires |plugins| == 1
    ensures WithPlugins(config, Arr(plugins)) == plugins[0](config)
    ensures Inputs(config, plugins) == [config]
  {
    assert plugins[1..] == [];
    assert Reduce(Ok(config), plugins) == Reduce(plugins[0](config), plugins[1..]);
  }

  /** Once the accumulator has failed, the rest of the fold keeps that same
      failure. */
  lemma {:induction false} ReduceErr<T, E>(e: E, plugins: seq<Plugin<T, E>>)
    ensures Reduce(Err(e), plugins) == Err(e)
    decreases |plugins|
  {
    if |plugins| > 0 {
      ReduceErr(e, plugins[1..]);
    }
  }

  /** Folding over a concatenation folds over the first part, then over the
      second from where the first left off. */
  lemma {:induction false} ReduceAppend<T, E>(acc: Result<T, E>, a: seq<Plugin<T, E>>, b: seq<Plugin<T, E>>)
    ensures Reduce(acc, a + b) == Reduce(Reduce(acc, a), b)
    decreases |a|
  {
    if |a| == 0 {
      assert a + b == b;
    } else {
      assert (a + b)[1..] == a[1..] + b;
      ReduceAppend(Step(acc, a[0]), a[1..], b);
    }
  }

  /** The last step of the fold: the plugin appended last runs on the result
      of all the others. */
  lemma ReduceSnoc<T, E>(acc: Result<T, E>, plugins: seq<Plugin<T, E>>, p: Plugin<T, E>)
    ensures Reduce(acc, plugins + [p]) == Step(Reduce(acc, plugins), p)
  {
    ReduceAppend(acc, plugins, [p]);
    assert [p][1..] == [];
  }

  /** Fold composition: running `a + b` runs `a`, and if that succeeds runs
      `b` on its result; if `a` fails, that failure is the outcome. */
  lemma WithPluginsAppend<T, E>(config: T, a: seq<Plugin<T, E>>, b: seq<Plugin<T, E>>)
    ensures WithPlugins(config, Arr(a + b)) ==
      match WithPlugins(config, Arr(a)) {
        case Ok(mid) => WithPlugins(mid, Arr(b))
        case Err(e) => Err(e)
      }
  {
    ReduceAppend(Ok(config), a, b);
    if WithPlugins(config, Arr(a)).Err? {
      ReduceErr(WithPlugins(config, Arr(a)).error, b);
    }
  }

  /** Composition in order: the plugin appended last is applied to the
      resolved output of all the earlier ones, so a run of
      `[p1, ..., pn]` is `pn(...p2(p1(config))...)`. */
  lemma WithPluginsSnoc<T, E>(config: T, plugins: seq<Plugin<T, E>>, p: Plugin<T, E>)
    ensures WithPlugins(config, Arr(plugins + [p])) ==
      match WithPlugins(config, Arr(plugins)) {
        case Ok(prev) => p(prev)
        case Err(e) => Err(e)
      }
  {
    ReduceSnoc(Ok(config), plugins, p);
  }

  /** A run of the tail, once the first plugin has resolved. */
  lemma IsRunTail<T, E>(config: T, plugins: seq<Plugin<T, E>>, inputs: seq<T>, r: Result<T, E>)
    requires IsRun(config, plugins, inputs, r)
    requires |inputs| > 1
    ensures plugins[0](config) == Ok(inputs[1])
    ensures IsRun(inputs[1], plugins[1..], inputs[1..], r)
  {
    var tail, tin := plugins[1..], inputs[1..];
    forall i | 0 <= i < |tin| - 1
      ensures tail[i](tin[i]) == Ok(tin[i + 1])
    {
      assert plugins[i + 1](inputs[i + 1]) == Ok(inputs[i + 2]);
    }
    assert plugins[|inputs| - 1](inputs[|inputs| - 1]) == r;
  }

  /** Every run description agrees with the model: the inputs are `Inputs`
      and the outcome is `WithPlugins`. */
  lemma {:induction false} RunUnique<T, E>(config: T, plugins: seq<Plugin<T, E>>, inputs: seq<T>, r: Result<T, E>)
    requires IsRun(config, plugins, inputs, r)
    ensures inputs == Inputs(config, plugins)
    ensures r == WithPlugins(config, Arr(plugins))
    decreases |plugins|
  {
    if |plugins| == 0 {
    } else if |inputs| == 1 {
      assert plugins[0](config) == r;
      match r
      case Ok(v) =>
        assert plugins[1..] == [];
        assert Reduce(Ok(config), plugins) == Reduce(r, plugins[1..]);
      case Err(e) =>
        ReduceErr(e, plugins[1..]);
    } else {
      IsRunTail(config, plugins, inputs, r);
      RunUnique(inputs[1], plugins[1..], inputs[1..], r);
      assert inputs == [config] + inputs[1..];
    }
  }

  /** The model's own inputs and outcome form a run description. */
  lemma {:induction false} InputsIsRun<T, E>(config: T, plugins: seq<Plugin<T, E>>)
    ensures IsRun(config, plugins, Inputs(config, plugins), WithPlugins(config, Arr(plugins)))
    decreases |plugins|
  {
    if |plugins| > 0 {
      var inputs, r := Inputs(config, plugins), WithPlugins(config, Arr(plugins));
      match plugins[0](config)
      case Ok(next) =>
        var tin := Inputs(next, plugins[1..]);
        InputsIsRun(next, plugins[1..]);
        assert inputs == [config] + tin;
        assert r == WithPlugins(next, Arr(plugins[1..]));
        if |tin| == 0 {
          assert plugins[1..] == [];
        } else {
          forall i | 0 <= i < |inputs| - 1
            ensures plugins[i](inputs[i]) == Ok(inputs[i + 1])
          {
            if i > 0 {
              assert plugins[1..][i - 1](tin[i - 1]) == Ok(tin[i]);
            }
          }
        }
      case Err(e) =>
        ReduceErr(e, plugins[1..]);
        assert inputs == [config];
    }
  }

  /** A run description holds exactly of the model's inputs and outcome. */
  lemma RunCharacterization<T, E>(config: T, plugins: seq<Plugin<T, E>>, inputs: seq<T>, r: Result<T, E>)
    ensures IsRun(config, plugins, inputs, r) <==>
      (inputs == Inputs(config, plugins) && r == WithPlugins(config, Arr(plugins)))
  {
    if IsRun(config, plugins, inputs, r) {
      RunUnique(config, plugins, inputs, r);
    }
    InputsIsRun(config, plugins);
  }

  /** When every plugin succeeds, with `vs[i + 1]` the resolved output of
      plugin `i` on `vs[i]`, the outcome is the last output and plugin `i` was
      called with `vs[i]`, once each, in index order. */
  lemma AllSucceed<T, E>(config: T, plugins: seq<Plugin<T, E>>, vs: seq<T>)
    requires |vs| == |plugins| + 1 && vs[0] == config
    requires forall i :: 0 <= i < |plugins| ==> plugins[i](vs[i]) == Ok(vs[i + 1])
    ensures WithPlugins(config, Arr(plugins)) == Ok(vs[|plugins|])
    ensures Inputs(config, plugins) == vs[..|plugins|]
  {
    var n := |plugins|;
    if n > 0 {
      assert plugins[n - 1](vs[..n][n - 1]) == Ok(vs[n]);
      RunUnique(config, plugins, vs[..n], Ok(vs[n]));
    }
  }

  /** When plugins `0..k-1` succeed and plugin `k` fails with `e`, the outcome
      is that same `e`, and the plugins after `k` are never called. */
  lemma FirstFailure<T, E>(config: T, plugins: seq<Plugin<T, E>>, vs: seq<T>, k: nat, e: E)
    requires k < |plugins| && |vs| == k + 1 && vs[0] == config
    requires forall i :: 0 <= i < k ==> plugins[i](vs[i]) == Ok(vs[i + 1])
    requires plugins[k](vs[k]) == Err(e)
    ensures WithPlugins(config, Arr(plugins)) == Err(e)
    ensures Inputs(config, plugins) == vs
  {
    RunUnique(config, plugins, vs, Err(e));
  }
}
