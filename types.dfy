/** The records shared by the agent, the replay memory and the environment driver, and the
    agent's configuration with its documented defaults. */
module Types {
  import opened Common

  /** An observation vector. Floating-point numbers are modelled as exact reals. */
  type State = seq<real>

  /** One transition, as the driver stores it and the replay memory keeps it. The action is the
      integer index the agent chose; rewards are exact reals. */
  datatype Experience = Experience(state: State, action: int, reward: real, nextState: State, done: bool)

  const DefaultHiddenLayers: seq<nat> := [24, 24]
  const DefaultGamma: real := 0.99
  const DefaultEpsilon: real := 1.0
  const DefaultEpsilonDecay: real := 0.995
  const DefaultMinEpsilon: real := 0.01
  const DefaultLearningRate: real := 0.001
  const DefaultBatchSize: nat := 32
  const DefaultMemorySize: nat := 10000
  const DefaultTargetUpdateFrequency: nat := 1000

  /** The agent's configuration; every field but the two sizes is optional. */
  datatype DQNConfig = DQNConfig(
    inputSize: nat,
    actionSize: nat,
    hiddenLayers: Option<seq<nat>>,
    gamma: Option<real>,
    epsilon: Option<real>,
    epsilonDecay: Option<real>,
    minEpsilon: Option<real>,
    lr: Option<real>,
    batchSize: Option<nat>,
    memorySize: Option<nat>,
    targetUpdateFrequency: Option<nat>)
  {
    /** The configuration with every option left unset. */
    static function Minimal(inputSize: nat, actionSize: nat): DQNConfig {
      DQNConfig(inputSize, actionSize, None, None, None, None, None, None, None, None, None)
    }
  }
}
