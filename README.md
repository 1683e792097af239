# IgnitionAI DQN training stack, modelled in Dafny

This project models the control logic of IgnitionAI's reinforcement-learning stack:

- the bounded FIFO replay memory;
- the DQN agent: epsilon-greedy action choice, one training step with TD targets from a
  target network, epsilon decay, periodic target refresh, reset and dispose;
- the environment driver (`IgnitionEnv`): step, start, stop, reset;
- the Hub loader, with retries and exponential backoff;
- the Hub saver: staging, file list, README, `createRepo` and upload;
- the `trainAgent` loop, with its periodic and best checkpoints;
- the two zustand training stores;
- both copies of the network designer's `extractNetworkStructure`, with the
  `/Neurons: (\d+)/` label parser.

Things outside the program are parameters:

- the neural network is a `predict` function over abstract weights;
- a fit is any function from weights, states and targets to new weights;
- `Math.random()` draws are supplied reals in [0, 1);
- each Hub request's success is a supplied boolean or an attempt-indexed outcome;
- callbacks into the environment or the agent are recorded as ordered call traces.

Numbers are exact reals or unbounded integers.

One module per source file:

- `ReplayMemory`, `Dqn`, `IgnitionEnvDriver`, `HubLoad`, `HubSave`, `Trainer`,
  `DemoTrainingStore`, `WebTrainingStore`, `NetworkDesigner` (the target-chasing demo's one
  element list) and `FlowNetworkDesigner` (the React Three Fiber copy with separate node and
  edge lists);
- shared pieces: `Common` (options, "last n" windows, order-preserving map-and-concatenate,
  counting multiples), `Decimal` (`parseInt(…, 10)` and a number's decimal rendering),
  `Types` (experience and configuration records) and `LayerLabels` (the label matcher).

Where the documented behaviour and the code disagree, the model follows the code:

- Epsilon decay has no clamp. `train` multiplies by the decay while epsilon is above the
  minimum, so epsilon can fall below `minEpsilon` by one step. `Dqn.DecayUndershootsMinimum`
  exhibits this with the default constants.
- A second `start()` installs a second timer and overwrites the stored handle; it does not
  refuse.
- No in-flight flag guards overlapping steps. `step` runs whenever it is called.
- `targetUpdateFrequency` of 0 never refreshes the target network, since `n % 0` is `NaN`.
- `reset` falls back to an epsilon of `1.0` and to the buffer's own default capacity of 10000.

## Model

| member | source | states |
|---|---|---|
| Common.LastN | ignition-web-rl/src/store/trainingStore.ts:31 | `slice(-n)`: the result has min(n, size) elements and is exactly the tail of the input |
| Common.LastNOfAppend | ignition-web-rl/src/store/trainingStore.ts:31 | windowing, extending, then windowing again equals windowing the whole extended sequence |
| Decimal.DecimalRoundTrip | packages/backend-tfjs/src/tools/trainer.ts:46 | parsing the decimal rendering of any natural number gives that number back |
| Decimal.NatToDecimalInjective | packages/backend-tfjs/src/tools/trainer.ts:46 | two numbers with the same decimal rendering are equal |
| ReplayMemory.Added | packages/backend-tfjs/src/memory/ReplayBuffer.ts:17-23 | after an add the new record is last; the size grows by one below capacity and stays put at or above it; the earlier records are a suffix of the old contents |
| ReplayMemory.AddedWithinBound | packages/backend-tfjs/src/memory/ReplayBuffer.ts:17-23 | an add never takes the buffer past max(capacity, 1) |
| ReplayMemory.AddedAtZeroCapacity | packages/backend-tfjs/src/agents/dqn.ts:214 | after dispose (capacity 0) each add leaves exactly the record just added |
| ReplayMemory.AddAllKeepsMostRecent | packages/backend-tfjs/src/memory/ReplayBuffer.ts:17-23 | FIFO eviction: after any sequence of adds, a buffer of capacity at least 1 holds exactly the last `capacity` records it was offered, oldest first |
| ReplayMemory.FifoEviction | packages/backend-tfjs/src/memory/ReplayBuffer.ts:17-23 | adding capacity + k records to an empty buffer leaves it full with the first k evicted |
| ReplayMemory.DrawIndex | packages/backend-tfjs/src/memory/ReplayBuffer.ts:29 | `Math.floor(Math.random() * len)` is always a valid index |
| ReplayMemory.SampleOf | packages/backend-tfjs/src/memory/ReplayBuffer.ts:25-33 | a sample has min(batchSize, size) records, each one a member of the buffer |
| ReplayMemory.SampleWithReplacement | packages/backend-tfjs/src/memory/ReplayBuffer.ts:28-30 | a non-empty buffer smaller than the request still fills a batch of its own size, and two equal draws give the same record twice |
| ReplayMemory.SampleCanRepeat | packages/backend-tfjs/src/memory/ReplayBuffer.ts:28-30 | indices are drawn independently: some draws put the same record in two places of any batch of two or more |
| ReplayMemory.ReplayBuffer.constructor | packages/backend-tfjs/src/memory/ReplayBuffer.ts:13-15 | an empty buffer with the given capacity, 10000 by default |
| ReplayMemory.ReplayBuffer.Add | packages/backend-tfjs/src/memory/ReplayBuffer.ts:17-23 | appends below capacity; at or past capacity drops the oldest first; keeps the size bound |
| ReplayMemory.ReplayBuffer.Sample | packages/backend-tfjs/src/memory/ReplayBuffer.ts:25-33 | returns min(batchSize, size) records, the i-th taken at the index drawn by the i-th draw, leaving the buffer unchanged |
| Dqn.MaxOf | packages/backend-tfjs/src/agents/dqn.ts:148 | `Math.max(...)` of a non-empty vector is one of its entries and bounds all of them |
| Dqn.FirstArgMaxUnique | packages/backend-tfjs/src/agents/dqn.ts:76-87 | the first maximal index is unique, so the greedy action is determined by the Q-values |
| Dqn.ArgMax | packages/backend-tfjs/src/agents/dqn.ts:76-87 | returns the lowest index of a maximal Q-value, or 0 for an empty vector |
| Dqn.TargetRow | packages/backend-tfjs/src/agents/dqn.ts:142-153 | for an action inside the Q-vector, the training row keeps every predicted entry except the taken action's, which becomes the reward when done and reward + gamma * max of the next-state Q-values otherwise |
| Dqn.TdTargetIsBestReturn | packages/backend-tfjs/src/agents/dqn.ts:148 | with gamma >= 0 a non-terminal target is the best one-step return: at least reward + gamma * q for every next action, with equality at some action |
| Dqn.DecayNeverIncreases | packages/backend-tfjs/src/agents/dqn.ts:171-175 | with a decay factor in [0, 1] an update never raises epsilon |
| Dqn.DecayFloor | packages/backend-tfjs/src/agents/dqn.ts:171-175 | an update never takes epsilon below minEpsilon * decay |
| Dqn.DecayUndershootsMinimum | packages/backend-tfjs/src/agents/dqn.ts:26-27 | with the default constants, epsilon just above the minimum decays to below it (there is no clamp) |
| Dqn.DecayedTimesBounds | packages/backend-tfjs/src/agents/dqn.ts:171-175 | over any number of training steps epsilon stays between its start value and minEpsilon * decay |
| Dqn.SyncCadence | packages/backend-tfjs/src/agents/dqn.ts:178-182 | n training steps refresh the target network n / frequency times, and never when the frequency is 0 |
| Dqn.DQNAgent.constructor | packages/backend-tfjs/src/agents/dqn.ts:19-49 | every unset option takes its documented default; the target network starts as a copy of the online one; the memory is empty with the configured capacity |
| Dqn.DQNAgent.GetAction | packages/backend-tfjs/src/agents/dqn.ts:54-89 | explores with a uniform random action when the draw is below epsilon; otherwise fails (no action) once the networks are disposed or when the state's length is not the input width, since `predict` throws, and else returns the first argmax of the online Q-values; every action returned is valid |
| Dqn.DQNAgent.Remember | packages/backend-tfjs/src/agents/dqn.ts:94-96 | the memory receives exactly one add of the experience |
| Dqn.DQNAgent.UpdateTargetModel | packages/backend-tfjs/src/agents/dqn.ts:101-105 | the target weights become the online weights and nothing else changes; after dispose reading the released weights throws and the target is kept |
| Dqn.DQNAgent.Train | packages/backend-tfjs/src/agents/dqn.ts:110-190 | an under-filled memory, disposed networks, an empty batch, a sampled state of the wrong width, a sampled action outside `[0, actionSize)` or an early failure change nothing; otherwise the fit receives the sampled states with their TD-target rows; a completed step decays epsilon, counts itself and refreshes the target on the cadence; a failure after the fit keeps epsilon, counter and target; memory and dispose flag are untouched and the exception never escapes |
| Dqn.TrainStepBounds | packages/backend-tfjs/src/agents/dqn.ts:110-190 | a training step adds at most one to the counter, never raises epsilon, leaves the target alone or sets it to the new online weights, changes nothing when the counter stays put, and is a no-op when the fit is not reached or the networks are disposed |
| Dqn.DQNAgent.Reset | packages/backend-tfjs/src/agents/dqn.ts:195-200 | epsilon back to the configured value (or 1.0), a fresh empty memory, counter 0, networks kept |
| Dqn.DQNAgent.Dispose | packages/backend-tfjs/src/agents/dqn.ts:205-215 | the networks are released, so later exploitation and target copies fail and later training changes nothing, and the memory is replaced by an empty one of capacity 0; a second dispose throws on the released online network and keeps the memory; the learner state is untouched |
| IgnitionEnvDriver.StepOrder | packages/core/src/ignition-env.ts:34-68 | a step starts with get-action, apply, observe, reward, done check, remember (of the transition from the pre-step state) and train, in that order; the best-checkpoint hook runs exactly when the agent has it and both credentials are non-empty; `onReset` runs exactly when the episode ends and the callback is set |
| IgnitionEnvDriver.StepResets | packages/core/src/ignition-env.ts:63-68 | a single step calls `onReset` once when it ends an episode with the callback set, and otherwise never |
| IgnitionEnvDriver.ResetsMatchEpisodeEnds | packages/core/src/ignition-env.ts:63-68 | over any run of steps the number of `onReset` calls equals the number of steps that reported done |
| IgnitionEnvDriver.IgnitionEnv.constructor | packages/core/src/ignition-env.ts:27-31 | observes once; the current state is that observation, the step count 0 and no timer running |
| IgnitionEnvDriver.ThrownStepPrefix | packages/core/src/ignition-env.ts:33-69 | a step that throws within its first seven calls has made exactly that prefix of get-action, apply, observe, reward, done check, remember and train; `onReset` can only have run if the episode ended and the failure is at the end of the step |
| IgnitionEnvDriver.IgnitionEnv.Step | packages/core/src/ignition-env.ts:33-69 | counts the step; throws exactly when a callback it reaches fails, and then has made that step's calls up to the failing one and keeps its state; otherwise makes all the step's calls and holds the next state, or the post-reset observation when done |
| IgnitionEnvDriver.IgnitionEnv.Start | packages/core/src/ignition-env.ts:71-75 | with `auto` false does nothing; otherwise installs a timer with the configured period, 100 ms by default |
| IgnitionEnvDriver.IgnitionEnv.Stop | packages/core/src/ignition-env.ts:77-82 | clears a running timer and forgets it; safe when none runs |
| IgnitionEnvDriver.IgnitionEnv.Reset | packages/core/src/ignition-env.ts:84-88 | calls `onReset` when set, re-observes and zeroes the step count; a throwing callback stops the reset after it and leaves the state and the count as they were |
| HubLoad.Attempts | packages/backend-tfjs/src/io/loadModel.ts:35 | the loop makes max(maxRetries, 0) attempts |
| HubLoad.FirstSuccess | packages/backend-tfjs/src/io/loadModel.ts:35-39 | the first successful attempt, with every earlier one failed; none exactly when all attempts fail |
| HubLoad.FailedCalls | packages/backend-tfjs/src/io/loadModel.ts:35-45 | each failed attempt i is a fetch followed by a wait of initialDelay * 2^i |
| HubLoad.BackoffTotal | packages/backend-tfjs/src/io/loadModel.ts:40-44 | k failures wait initialDelay * (2^k - 1) in total |
| HubLoad.FailedFetches | packages/backend-tfjs/src/io/loadModel.ts:35-45 | k failures make exactly k fetches |
| HubLoad.LoadTraceProperties | packages/backend-tfjs/src/io/loadModel.ts:34-49 | at most maxRetries fetches; a model is returned exactly when some allowed attempt succeeds; exhausting the attempts throws the last attempt's error; no attempts throws `undefined` without fetching |
| HubLoad.LoadModelFromHub | packages/backend-tfjs/src/io/loadModel.ts:23-50 | the loop produces exactly that result and call trace for the `…/resolve/main/<file>` URL |
| HubSave.Manifest | packages/backend-tfjs/src/io/saveModelToHub.ts:46-83 | the upload holds the two model files under the subfolder, plus a README exactly when the subfolder is `model` |
| HubSave.ManifestPathsDistinct | packages/backend-tfjs/src/io/saveModelToHub.ts:46-83 | no two uploaded files share a path |
| HubSave.ReadmeUrlIsLoadable | packages/backend-tfjs/src/io/saveModelToHub.ts:69 | the README's usage URL is the one the loader fetches for `model/model.json` |
| HubSave.CreateRepoFailureTolerated | packages/backend-tfjs/src/io/saveModelToHub.ts:86-98 | a failing `createRepo` changes neither the calls nor the outcome; the save succeeds exactly when saving and uploading do |
| HubSave.UploadFollowsCreateRepo | packages/backend-tfjs/src/io/saveModelToHub.ts:86-98 | once the model is saved, `createRepo` is always attempted and the upload of the manifest is the last call |
| HubSave.SaveModelToHub | packages/backend-tfjs/src/io/saveModelToHub.ts:25-101 | stages under `./tmp-model/<subdir>`, saves, reads both files, creates the repository and uploads, with exactly that trace and outcome |
| Trainer.StepNamesDistinct | packages/backend-tfjs/src/tools/trainer.ts:46-51 | periodic checkpoint names of different steps differ, and none is `best` |
| Trainer.StepOrder | packages/backend-tfjs/src/tools/trainer.ts:40-52 | remember (never terminal) and train come first; a periodic save happens exactly when due, the best save exactly when the reward beats the best, and the best save is last |
| Trainer.TraceStep | packages/backend-tfjs/src/tools/trainer.ts:33-52 | one more step appends its calls and updates the best reward only on a strict improvement with credentials |
| Trainer.StepCounts | packages/backend-tfjs/src/tools/trainer.ts:43-52 | one step reports at most once and saves at most one periodic and one best checkpoint, each exactly under its condition |
| Trainer.OneReportPerStep | packages/backend-tfjs/src/tools/trainer.ts:33-43 | `onStep` is reported for steps 1, 2, … n in order, when set |
| Trainer.PeriodicSchedule | packages/backend-tfjs/src/tools/trainer.ts:45-47 | n steps save n / checkpointEvery periodic checkpoints, none without credentials or with checkpointEvery 0 |
| Trainer.PeriodicSaveAt | packages/backend-tfjs/src/tools/trainer.ts:45-47 | `step-k` is saved exactly when step k is due and credentials are present |
| Trainer.StepNameOnlyInOwnStep | packages/backend-tfjs/src/tools/trainer.ts:46 | a step never saves a checkpoint named after another step |
| Trainer.BestSavesWithinBudget | packages/backend-tfjs/src/tools/trainer.ts:49-52 | best saves plus the improvements still possible never exceed two, and the best reward is always 1 or -1 |
| Trainer.AtMostTwoBestSaves | packages/backend-tfjs/src/tools/trainer.ts:31-52 | however long the run, at most two `best` checkpoints are saved |
| Trainer.TiesNeverSave | packages/backend-tfjs/src/tools/trainer.ts:49 | a reward equal to the best so far saves nothing |
| Trainer.ThrownCallsPrefix | packages/backend-tfjs/src/tools/trainer.ts:43-52 | a step whose hook throws has made a non-empty prefix of its normal calls ending in the failing `onStep` or checkpoint save |
| Trainer.NoHookThrowsStep | packages/backend-tfjs/src/tools/trainer.ts:33-52 | a run with no failure so far, extended by a step that does not fail, still has no failure |
| Trainer.AgentStep | packages/backend-tfjs/src/tools/trainer.ts:36-41 | explores with the drawn random action below epsilon and otherwise takes the first argmax of the online Q-values; fails, changing nothing, exactly when it exploits on a state of the wrong width; otherwise stores the non-terminal transition with reward +1 or -1 and the learner state becomes the training step on the updated memory |
| Trainer.AfterTraining | packages/backend-tfjs/src/tools/trainer.ts:43-52 | the step's report and saves and the best reward after the step; a failing hook that is called ends the step right after it |
| Trainer.TrainAgent | packages/backend-tfjs/src/tools/trainer.ts:19-58 | without failures runs maxSteps steps with valid actions, makes exactly the calls of those steps, then disposes the agent; a throwing `getEnvStep`, an action choice rejected for a state of the wrong width, or a throwing hook ends the run right there, with every earlier step's calls, the failing step's calls up to the hook, and no dispose |
| DemoTrainingStore.ConstantUpdateIsAssign | packages/demo-target-chasing/src/store/trainingStore.ts:62-64 | a functional setter that ignores its argument acts as the plain setter |
| DemoTrainingStore.InitialState | packages/demo-target-chasing/src/store/trainingStore.ts:42-57 | every field of the initial record, with best reward -Infinity, last action -1 and the target at (0, 10, 0) |
| DemoTrainingStore.EpisodeResetCountsOnce | packages/demo-target-chasing/src/store/trainingStore.ts:83-90 | `resetEpisode` counts one episode like `incrementEpisodeCount`, clears only the per-episode fields and keeps all others |
| DemoTrainingStore.ResetsCountEpisodes | packages/demo-target-chasing/src/store/trainingStore.ts:83-89 | n resets add n to the episode count and leave a fresh episode |
| DemoTrainingStore.TrainingStore.constructor | packages/demo-target-chasing/src/store/trainingStore.ts:41-57 | the store starts in the initial state |
| DemoTrainingStore.TrainingStore.SetIsTraining | packages/demo-target-chasing/src/store/trainingStore.ts:60 | sets only that flag |
| DemoTrainingStore.TrainingStore.SetIsTrainingInProgress | packages/demo-target-chasing/src/store/trainingStore.ts:61 | sets only that flag |
| DemoTrainingStore.TrainingStore.SetEpisodeCount | packages/demo-target-chasing/src/store/trainingStore.ts:62-64 | stores the value, or the function applied to the previous count; nothing else changes |
| DemoTrainingStore.TrainingStore.SetReward | packages/demo-target-chasing/src/store/trainingStore.ts:65 | sets only the reward |
| DemoTrainingStore.TrainingStore.SetBestReward | packages/demo-target-chasing/src/store/trainingStore.ts:66 | sets only the best reward |
| DemoTrainingStore.TrainingStore.SetEpisodeSteps | packages/demo-target-chasing/src/store/trainingStore.ts:67-69 | stores the value, or the function applied to the previous steps; nothing else changes |
| DemoTrainingStore.TrainingStore.SetReachedTarget | packages/demo-target-chasing/src/store/trainingStore.ts:70 | sets only that flag |
| DemoTrainingStore.TrainingStore.SetEpisodeTime | packages/demo-target-chasing/src/store/trainingStore.ts:71 | sets only the episode time |
| DemoTrainingStore.TrainingStore.SetEpisodeStartTime | packages/demo-target-chasing/src/store/trainingStore.ts:72 | sets only the start time |
| DemoTrainingStore.TrainingStore.SetSuccessCount | packages/demo-target-chasing/src/store/trainingStore.ts:73-75 | stores the value, or the function applied to the previous count; nothing else changes |
| DemoTrainingStore.TrainingStore.SetDifficulty | packages/demo-target-chasing/src/store/trainingStore.ts:76-78 | stores the value, or the function applied to the previous difficulty; nothing else changes |
| DemoTrainingStore.TrainingStore.SetLastAction | packages/demo-target-chasing/src/store/trainingStore.ts:79 | sets only the last action |
| DemoTrainingStore.TrainingStore.SetTargetPosition | packages/demo-target-chasing/src/store/trainingStore.ts:80 | sets only the target position |
| DemoTrainingStore.TrainingStore.ResetEpisode | packages/demo-target-chasing/src/store/trainingStore.ts:83-89 | the state becomes the episode reset of the old state at the given time |
| DemoTrainingStore.TrainingStore.IncrementEpisodeCount | packages/demo-target-chasing/src/store/trainingStore.ts:90 | adds one to the episode count and changes nothing else |
| WebTrainingStore.InitialState | ignition-web-rl/src/store/trainingStore.ts:22-28 | counters zero, no rewards, flags false, times zero |
| WebTrainingStore.RewardWindow | ignition-web-rl/src/store/trainingStore.ts:31 | the new reward is last, preceded by the at most 30 most recent previous rewards, in order |
| WebTrainingStore.RewardWindowIsLast31 | ignition-web-rl/src/store/trainingStore.ts:31 | after one add the list is the last 31 entries of the old list plus the new reward |
| WebTrainingStore.AddRewardsKeepsLast31 | ignition-web-rl/src/store/trainingStore.ts:31 | after any non-empty run of adds the list is the last 31 rewards of the whole history |
| WebTrainingStore.WebTrainingStore.constructor | ignition-web-rl/src/store/trainingStore.ts:21-28 | the store starts in the initial state |
| WebTrainingStore.WebTrainingStore.IncrementElapsedTime | ignition-web-rl/src/store/trainingStore.ts:29 | adds the delta to the elapsed time only |
| WebTrainingStore.WebTrainingStore.SetCollected | ignition-web-rl/src/store/trainingStore.ts:30 | sets only the collected flag |
| WebTrainingStore.WebTrainingStore.AddReward | ignition-web-rl/src/store/trainingStore.ts:31 | replaces the reward list by its window plus the new reward and keeps it at most 31 long |
| WebTrainingStore.WebTrainingStore.IncrementEpisode | ignition-web-rl/src/store/trainingStore.ts:32 | adds one to the episode count only |
| WebTrainingStore.WebTrainingStore.IncrementSuccess | ignition-web-rl/src/store/trainingStore.ts:33 | adds one to the success count only |
| WebTrainingStore.WebTrainingStore.SetTraining | ignition-web-rl/src/store/trainingStore.ts:34 | sets only the training flag |
| WebTrainingStore.WebTrainingStore.SetElapsedTime | ignition-web-rl/src/store/trainingStore.ts:35 | sets only the elapsed time |
| WebTrainingStore.WebTrainingStore.SetProgressToTarget | ignition-web-rl/src/store/trainingStore.ts:36 | sets only the progress |
| LayerLabels.FindMatch | packages/demo-target-chasing/src/NetworkDesigner.tsx:75 | the regular expression's leftmost match at or after a position, or none when there is none |
| LayerLabels.DigitRun | packages/demo-target-chasing/src/NetworkDesigner.tsx:75 | the greedy `\d+` takes all digits and stops at a non-digit or the end |
| LayerLabels.CaptureSpec | packages/demo-target-chasing/src/NetworkDesigner.tsx:75-76 | the capture is the non-empty, maximal run of digits after the leftmost `Neurons: `; there is none exactly when nothing matches |
| LayerLabels.LayerWidthSpec | packages/demo-target-chasing/src/NetworkDesigner.tsx:74-78 | a width is read exactly from a `default` node whose label contains `Dense` and matches, and it is the captured digits in base ten |
| LayerLabels.DenseLabelRoundTrip | packages/demo-target-chasing/src/NetworkDesigner.tsx:74-77 | the label `Dense (Neurons: n)` reads back as n |
| LayerLabels.DenseLabelCapture | packages/demo-target-chasing/src/NetworkDesigner.tsx:75 | the pattern captures exactly the digits written into such a label |
| LayerLabels.Width64 | packages/demo-target-chasing/src/NetworkDesigner.tsx:26-27 | the starting hidden-layer label reads as 64 |
| LayerLabels.OnlyDefaultNodes | packages/demo-target-chasing/src/NetworkDesigner.tsx:74 | a node without a type, or with a type other than `default`, contributes nothing whatever its label |
| NetworkDesigner.HiddenLayersAppend | packages/demo-target-chasing/src/NetworkDesigner.tsx:71-84 | extraction preserves element order: the layers of a concatenation are the concatenated layers |
| NetworkDesigner.HiddenLayersFromElements | packages/demo-target-chasing/src/NetworkDesigner.tsx:71-84 | at most one width per element, and every width is read from some element of the list |
| NetworkDesigner.InitialLayers | packages/demo-target-chasing/src/NetworkDesigner.tsx:24-33 | the starting graph describes hidden layers [64, 64]; input, output and edges contribute nothing |
| NetworkDesigner.ExtractNetworkStructure | packages/demo-target-chasing/src/NetworkDesigner.tsx:71-84 | the loop returns the widths of the contributing elements in element order |
| NetworkDesigner.RemoveByIdMembers | packages/demo-target-chasing/src/NetworkDesigner.tsx:43-57 | a delete keeps exactly the elements whose id is empty or not removed |
| NetworkDesigner.RemoveByIdAppend | packages/demo-target-chasing/src/NetworkDesigner.tsx:43-57 | a delete keeps the order of what remains |
| NetworkDesigner.RemoveByIdIdempotent | packages/demo-target-chasing/src/NetworkDesigner.tsx:43-57 | deleting the same ids twice changes nothing the second time |
| FlowNetworkDesigner.InitialLayers | r3f/target-chasing/src/components/NetworkDesigner.tsx:34-39 | the starting nodes describe hidden layers [64, 64] |
| FlowNetworkDesigner.SameAsElementExtraction | r3f/target-chasing/src/components/NetworkDesigner.tsx:67-78 | both designer copies read the same widths from the same nodes |
| FlowNetworkDesigner.ExtractNetworkStructure | r3f/target-chasing/src/components/NetworkDesigner.tsx:67-78 | the loop returns the widths of the contributing nodes in node order |
| FlowNetworkDesigner.Panel.constructor | r3f/target-chasing/src/components/NetworkDesigner.tsx:49-82 | the panel starts with the initial nodes and reports their layers once on mount |
| FlowNetworkDesigner.Panel.SetNodes | r3f/target-chasing/src/components/NetworkDesigner.tsx:52-82 | each node-list change replaces the nodes and reports the layers of the new list |

## Left out

- Tensor arithmetic, model building (`buildQNetwork`), `fit` internals, `getWeights`/`setWeights`
  and floating-point rounding: numbers are exact reals and the network is an abstract function.
- `tf.memory()` tensor counting, `tf.dispose`, `tf.disposeVariables` and all `console` logging:
  no effect on the modelled state.
- Timers and asynchrony: `setInterval` is recorded as a call with its period, and the timer
  handle is represented by that period. Awaited promises run one after another.
- The agent's `maybeSaveBestCheckpoint` and `saveCheckpoint` are recorded as calls. What they do
  on the Hub is not part of this model.
- File-system and network effects are recorded calls. `model.save`, `createRepo`, `uploadFiles`,
  `tf.loadLayersModel` and `tf.loadGraphModel` each have a supplied success; a failed `model.save`
  ends the trace after the save. `fs.mkdirSync` and both `fs.readFileSync` calls are taken to
  succeed. `path.resolve` is not applied to the staging directory, and file contents are tags.
- The thrown error after no attempts (`maxRetries <= 0`) is modelled as an absent value, the
  `undefined` the code throws.
- `parseInt` on very long digit strings loses precision in JavaScript. The model's integers are
  unbounded.
- Store counters are unbounded integers. `Date.now()` is a parameter of the actions that read it.
- Dqn.DQNAgent.Train: the exception thrown when a sampled action lies outside `[0, actionSize)` is the
  formatting of the undefined old Q-value; the model treats it like any other failure before the
  fit, which `train` swallows. An empty batch (batch size 0) fails the same way in `tf.tensor2d`,
  and a sampled state of the wrong width in `tf.tensor2d` or `predict`.
- IgnitionEnvDriver.IgnitionEnv.Step: the failing callback is given by its position in the step's
  call list; what the error is and how the host reports it are not modelled.
- IgnitionEnvDriver.IgnitionEnv.Reset: the failing callback is given the same way, by its position in
  the reset's call list.
- Trainer.TrainAgent: the agent's `remember` and `train` are taken not to throw in the loop;
  `train` swallows its errors. `getAction` throws there only for a state of the wrong width, since
  the agent is never disposed before the loop ends.
- ReactFlow's `addEdge`, `applyNodeChanges` and `applyEdgeChanges` are not modelled:
  `FlowNetworkDesigner.Panel.SetNodes` takes the list they produce. The `onConnect` handlers,
  `fitView`, rendering and node styling are left out too.
- The demo designer's effect only runs once the ReactFlow instance is set; that gating is not
  modelled.
- The scene, UI and visualisation components, `setBackend`, `BuildMLP` and the tests are
  context only.
