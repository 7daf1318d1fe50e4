/**
 A build's configuration and how one configuration is merged over another:
 params merge key by key with the overriding side winning, while the image,
 the run config and the inputs are taken from the overriding side only when
 it supplies them.
 */
module BuildConfig {

  /** The script to run: its path and arguments. */
  datatype RunConfig = RunConfig(path: string, args: seq<string>)

  /** A named input and the path it is placed at. */
  datatype InputConfig = InputConfig(name: string, path: string)

  datatype Config = Config(
    image: string,
    params: map<string, string>,
    run: RunConfig,
    inputs: seq<InputConfig>)

  /** The run config that supplies nothing. */
  const NoRun := RunConfig("", [])

  /** The configuration that supplies nothing. */
  const Empty := Config("", map[], NoRun, [])

  /** `base.Merge(other)`: the configuration `other` laid over `base`. */
  function Merge(base: Config, other: Config): (r: Config)
    ensures r.params.Keys == base.params.Keys + other.params.Keys
    ensures forall k :: k in other.params ==> r.params[k] == other.params[k]
    ensures forall k :: k in base.params && k !in other.params ==> r.params[k] == base.params[k]
    ensures other.image != "" ==> r.image == other.image
    ensures other.image == "" ==> r.image == base.image
    ensures other.run.path != "" ==> r.run == other.run
    ensures other.run.path == "" ==> r.run == base.run
    ensures other.inputs != [] ==> r.inputs == other.inputs
    ensures other.inputs == [] ==> r.inputs == base.inputs
  {
    Config(
      if other.image != "" then other.image else base.image,
      base.params + other.params,
      if other.run.path != "" then other.run else base.run,
      if other.inputs != [] then other.inputs else base.inputs)
  }

  /** Merging in a configuration that supplies nothing changes nothing. */
  lemma MergeEmpty(c: Config)
    ensures Merge(c, Empty) == c
  {
  }

  /** Merging a configuration over itself changes nothing. */
  lemma MergeIdempotent(c: Config)
    ensures Merge(c, c) == c
  {
  }

  /** Merging into the empty configuration keeps everything the argument
      supplies; only a run config with no path is dropped. */
  lemma MergeIntoEmpty(c: Config)
    ensures Merge(Empty, c) == if c.run.path != "" then c else c.(run := NoRun)
  {
  }

  /** Layering is associative: merging b and then c over a is merging
      (b merged with c) over a. */
  lemma MergeAssociative(a: Config, b: Config, c: Config)
    ensures Merge(Merge(a, b), c) == Merge(a, Merge(b, c))
  {
  }

  /** The later side wins for everything it supplies: an argument that
      supplies every part and every key of the receiver replaces it. */
  lemma MergeFullOverride(base: Config, other: Config)
    requires other.image != "" && other.run.path != "" && other.inputs != []
    requires base.params.Keys <= other.params.Keys
    ensures Merge(base, other) == other
  {
  }

  /** The params of both sides are merged, the argument's value replaces the
      receiver's on a shared key, and an empty image and empty run config in
      the argument leave the receiver's in place. */
  lemma MergesParams()
    ensures Merge(
              Config("some-image", map["FOO" := "1", "BAR" := "2"], NoRun, []),
              Config("", map["FOO" := "3", "BAZ" := "4"], NoRun, []))
         == Config("some-image", map["FOO" := "3", "BAR" := "2", "BAZ" := "4"], NoRun, [])
  {
  }

  /** A non-empty image in the argument replaces the receiver's, while the
      receiver's run config, which the argument does not supply, is kept. */
  lemma OverridesImage()
    ensures Merge(
              Config("some-image", map[], RunConfig("some-path", ["arg1", "arg2"]), []),
              Config("better-image", map[], NoRun, []))
         == Config("better-image", map[], RunConfig("some-path", ["arg1", "arg2"]), [])
  {
  }

  /** A run config with a path replaces the receiver's, path and args
      together, and the argument's image is adopted by a receiver with none. */
  lemma OverridesRun()
    ensures Merge(
              Config("", map[], RunConfig("some-path", ["arg1", "arg2"]), []),
              Config("some-image", map[], RunConfig("better-path", ["better-arg1", "better-arg2"]), []))
         == Config("some-image", map[], RunConfig("better-path", ["better-arg1", "better-arg2"]), [])
  {
  }

  /** A run config with a path but no args still replaces the receiver's
      whole run config, so the receiver's args are dropped. */
  lemma OverridesRunWithoutArgs()
    ensures Merge(
              Config("", map[], RunConfig("some-path", ["arg1", "arg2"]), []),
              Config("some-image", map[], RunConfig("better-path", []), []))
         == Config("some-image", map[], RunConfig("better-path", []), [])
  {
  }

  /** Non-empty inputs in the argument replace the receiver's inputs; they
      are not appended to them. */
  lemma OverridesInputs()
    ensures Merge(
              Config("", map[], NoRun, [InputConfig("some-input", "some-destination")]),
              Config("", map[], NoRun, [InputConfig("another-input", "another-destination")]))
         == Config("", map[], NoRun, [InputConfig("another-input", "another-destination")])
  {
  }
}
