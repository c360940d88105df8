/** Concrete runs of `withPlugins`: arithmetic plugins, plugins that extend a
    record, a non-array argument, and a plugin that throws. */
module Scenarios {

  import opened Results
  import opened PluginRunner

  function AddOne(x: int): Result<int, string> { Ok(x + 1) }
  function Double(x: int): Result<int, string> { Ok(x * 2) }
  function AddHundred(x: int): Result<int, string> { Ok(x + 100) }
  function Boom(x: int): Result<int, string> { Err("boom") }

  function AddB(cfg: map<string, int>): Result<map<string, int>, string> { Ok(cfg["b" := 2]) }
  function AddC(cfg: map<string, int>): Result<map<string, int>, string> { Ok(cfg["c" := 3]) }

  /** `withPlugins(1, [x => x + 1, x => x * 2])` resolves to 4. */
  lemma Arithmetic()
    ensures WithPlugins(1, Arr([AddOne, Double])) == Ok(4)
    ensures Inputs(1, [AddOne, Double]) == [1, 2]
  {
    AllSucceed(1, [AddOne, Double], [1, 2, 4]);
  }

  /** Each plugin spreads the configuration and adds one key. */
  lemma RecordExtension()
    ensures WithPlugins(map["a" := 1], Arr([AddB, AddC])) == Ok(map["a" := 1, "b" := 2, "c" := 3])
  {
    var c0, c1, c2 := map["a" := 1], map["a" := 1, "b" := 2], map["a" := 1, "b" := 2, "c" := 3];
    assert AddB(c0) == Ok(c1);
    assert AddC(c1) == Ok(c2);
    AllSucceed(c0, [AddB, AddC], [c0, c1, c2]);
  }

  /** A string in place of the array resolves to the starting configuration. */
  lemma NotAnArray()
    ensures WithPlugins<string, string>("start", NotArray) == Ok("start")
  {
  }

  /** The second plugin throws "boom": the run rejects with it and the third
      plugin is never called. */
  lemma ThrowingPlugin()
    ensures WithPlugins(0, Arr([AddOne, Boom, AddHundred])) == Err("boom")
    ensures Inputs(0, [AddOne, Boom, AddHundred]) == [0, 1]
  {
    FirstFailure(0, [AddOne, Boom, AddHundred], [0, 1], 1, "boom");
  }
}
