# GeneticFlappyBird agent core in Dafny

This project models the deterministic core of the GeneticFlappyBird agent. It has three modules:

- **`NeuralNetwork`** (`neural_network.dfy`, from `src/neural_network.rs`). A network is a stack of dense layers.
  - `New` builds one layer per window of two adjacent sizes. It draws the weights row by row, then the biases, from a supplied stream of random draws.
  - `Forward` folds `LayerForward` over the layers. `ForwardPass` is the same computation as the program writes it: a loop that reassigns the input.
  - Values are reals. The activation (the logistic sigmoid in the program) is a function parameter `act`.
- **`Dqn`** (`dqn.dfy`, from `src/dqn.rs`). The deep-Q agent is a class `DeepQN` with:
  - the q-network and the target network;
  - the replay buffer, a bounded FIFO;
  - epsilon and the training counter.

  Its methods are:
  - `ChooseAction`: epsilon-greedy choice. The greedy branch is an argmax over the finite q-values. Ties go to the last index. Action 0 is the default when no value is finite.
  - `StoreExperience`: evicts the oldest entry when the buffer is full, then appends.
  - `UpdateEpsilon`: decays epsilon with the buffer length.
  - `UpdateTargetNetwork`: copies the q-network to the target network.
  - `Train`: first builds every target vector from the networks as they were on entry (`BuildTargets`). Then it takes one gradient step per sample, in order (`ApplySteps`). Finally it increments the counter.

  The gradient step is a function parameter `backward`.
- **`Agent`** (`agent.dfy`, from `src/main.rs`):
  - the sensor list of `spawn_agent`;
  - `update_sensors`: every slot is reset to a far-away sentinel. Each reading is then inserted before the first strictly farther slot among the first `SENSOR_COUNT`, and the last slot is popped;
  - the dead-zone decision of `move_agent`.

  The sensor list is checked against a reference: unbounded stable sorted insertion (`Place`, `PlaceAll`). `UpdateKeepsNearest` proves the following. After `update_sensors`, the first `SENSOR_COUNT` slots equal the first `SENSOR_COUNT` entries of a sorted permutation of the sentinels plus all readings. These are the nearest readings in ascending order, padded with the sentinel.

Random draws are inputs of the model:
- `draw` and `start` for `NeuralNetwork::new`;
- `coin` and `randomAction` for `choose_action`;
- `picks` for the batch indices of `train`.

Distances and directions, which glam computes, are the readings given to `update_sensors`. The frame time is the `dt` given to `move_agent`.

Where the intended design and the code differ, the model follows the code:
- `NeuralNetwork::new` does not reject fewer than two sizes, or a zero size. `windows(2)` yields no window for fewer than two sizes, so the result is a network with no layers. A zero input size gives out_size weight rows with no entries each. A zero output size gives a layer with no rows and no biases, whose output is empty.
- `forward` does not check the input length. `zip` ignores surplus weights or inputs (`DotIsSum`, `DotIgnoresSurplus`).
- The replay buffer can exceed its capacity only if it already did. Epsilon is decayed by the buffer length, which stops growing at the capacity.

## Model

| member | source | states |
|---|---|---|
| NeuralNetwork.New | src/neural_network.rs:28-53 | the network has one layer per window of two sizes (none when there are fewer than two sizes); layer i maps sizes[i] inputs to sizes[i+1] outputs |
| NeuralNetwork.Scaled | src/neural_network.rs:39 | one `rng.gen::<f32>() * 2.0 - 1.0`: a draw in [0, 1) gives a value in [-1, 1) |
| NeuralNetwork.Draws | src/neural_network.rs:38-40 | n values, the k-th being the scaled draw number start + k, consumed in order |
| NeuralNetwork.NewLayer | src/neural_network.rs:33-48 | a layer has out_size weight rows of in_size entries each, and out_size biases |
| NeuralNetwork.NewInRange | src/neural_network.rs:36-46 | with every draw in [0, 1), every initial weight and bias lies in [-1, 1) |
| NeuralNetwork.Dot | src/neural_network.rs:74 | the zipped product-sum, stopping at the shorter operand; `DotIsSum` and `DotIgnoresSurplus` characterise it |
| NeuralNetwork.DotIsSum | src/neural_network.rs:74 | the zipped dot product is the sum of w[k]*x[k] over k < min(\|w\|, \|x\|) |
| NeuralNetwork.DotIgnoresSurplus | src/neural_network.rs:74 | cutting both operands to the shorter length leaves the dot product unchanged, so surplus entries are ignored, not rejected |
| NeuralNetwork.LayerForward | src/neural_network.rs:69-78 | the output has min(#rows, #biases) entries; entry r is act(row r · input + bias r) |
| NeuralNetwork.Forward | src/neural_network.rs:56-64 | with no layers the input comes back unchanged; otherwise the output length is set by the last layer |
| NeuralNetwork.ForwardPass | src/neural_network.rs:56-64 | the loop that reassigns `input` layer by layer computes `Forward` |
| NeuralNetwork.ForwardAppend | src/neural_network.rs:59-61 | running a + b is running b on the output of a, so layer i's output feeds layer i+1 |
| NeuralNetwork.ForwardLength | src/neural_network.rs:28-64 | a network built from at least two sizes returns sizes[last] values for any input |
| NeuralNetwork.ForwardRange | src/neural_network.rs:69-77 | if the activation maps into (0, 1), every output of a network with at least one layer lies in (0, 1) |
| Dqn.MaxIndex | src/dqn.rs:79-84 | None iff no value is finite; otherwise the index of a finite maximum, after which every finite value is strictly smaller (the last of equal maxima) |
| Dqn.GreedyAction | src/dqn.rs:78-84 | the greedy action is 0 when no q-value is finite, otherwise the last index of the largest finite q-value |
| Dqn.MaxFiniteOr0 | src/dqn.rs:138-142 | 0.0 when no value is finite, otherwise a finite value that occurs in the list and is at least every finite value |
| Dqn.Stored | src/dqn.rs:97-106 | the buffer grows by one below capacity and keeps its length at or above it |
| Dqn.StoredAll | src/dqn.rs:97-106 | repeated `store_experience`, one experience after another; `StoredAllKeepsNewest` proves it keeps the newest `capacity` entries in order |
| Dqn.StoredKeepsNewest | src/dqn.rs:97-106 | one store yields the last max(len, capacity) entries of buffer + [e]: e is last, the survivors keep their order, and the length never passes max(len, capacity) |
| Dqn.StoredAllKeepsNewest | src/dqn.rs:97-106 | from a buffer within capacity, any run of stores leaves exactly the newest `capacity` experiences in insertion order |
| Dqn.Epsilon | src/dqn.rs:110-112 | end + (start - end) * decay^len; `EpsilonBounds` proves it stays in [end, start], starts at start and never rises |
| Dqn.EpsilonBounds | src/dqn.rs:110-112 | with decay in [0, 1] and end <= start, epsilon lies in [end, start], equals start for an empty buffer and does not rise as the buffer grows |
| Dqn.Samples | src/dqn.rs:121-129 | one sampled experience per drawn index, with repetition, each taken from the buffer |
| Dqn.TargetValue | src/dqn.rs:138-148 | the reward when done, else reward + gamma * the best finite next value (0.0 if none); `TargetForSpec` places it in the target vector |
| Dqn.TargetFor | src/dqn.rs:144-151 | the current output with index `action` set to the target value; `TargetForSpec` proves only that index changes |
| Dqn.TargetForSpec | src/dqn.rs:144-151 | the target vector has the current output's length; at the taken action it holds the reward (plus gamma times the best finite next value unless done); elsewhere it equals the current output |
| Dqn.DLoss | src/dqn.rs:164-168 | d_loss has min(\|current\|, \|target\|) entries, entry i being current[i] - target[i] |
| Dqn.Descend | src/dqn.rs:157-173 | the q-network after one `backward` step per (state, target) pair in order, each d_loss from the network as updated so far; `ApplySteps` proves the loop computes it |
| Dqn.BuildTargets | src/dqn.rs:131-154 | the first loop collects each sample's state and target vector, in order, all from the networks as given |
| Dqn.ApplySteps | src/dqn.rs:157-173 | the second loop applies one `backward` step per (state, target) pair, in order, each with d_loss from the network as already updated |
| Dqn.DeepQN.constructor | src/dqn.rs:55-67 | the networks as given, an empty buffer, epsilon = epsilon_start, counter 0 |
| Dqn.DeepQN.UpdateTargetNetwork | src/dqn.rs:69-71 | the target network equals the q-network; the q-network, buffer, epsilon and counter are unchanged |
| Dqn.DeepQN.ChooseAction | src/dqn.rs:73-86 | below epsilon, the random action in [0, 4); otherwise the greedy action over the q-network's output for the state |
| Dqn.DeepQN.StoreExperience | src/dqn.rs:88-107 | the buffer becomes `Stored` of the old buffer and the new experience; no other field changes |
| Dqn.DeepQN.UpdateEpsilon | src/dqn.rs:109-114 | epsilon = end + (start - end) * decay^len; no other field changes |
| Dqn.DeepQN.Train | src/dqn.rs:116-176 | with fewer than batch_size experiences nothing changes; otherwise the q-network is the result of the gradient steps on targets that were all built from the entry-time networks, the counter goes up by exactly one, and the buffer, epsilon and target network are unchanged |
| Agent.Cleared | src/main.rs:184-189 | every slot holds distance 10000000.0 and direction 0, with the length kept |
| Agent.SlotFor | src/main.rs:201-202 | the first slot among the first SENSOR_COUNT whose distance is strictly larger than the reading, or SENSOR_COUNT when there is none |
| Agent.WithReading | src/main.rs:201-212 | one reading inserted before the first strictly farther of the first SENSOR_COUNT slots, then the last slot popped; the length is kept, and `WithReadingPlacement` and `WithReadingSorted` characterise where it lands |
| Agent.WithReadingPlacement | src/main.rs:201-212 | the reading lands before the first strictly farther slot and after equal ones; the slots before it are kept and the rest shift by one; a reading no closer than the first SENSOR_COUNT slots leaves the list unchanged |
| Agent.WithReadingSorted | src/main.rs:201-212 | a list sorted by distance stays sorted after one reading |
| Agent.WithReadings | src/main.rs:190-214 | processing all readings keeps the list length |
| Agent.WithReadingsSorted | src/main.rs:190-214 | a sorted list stays sorted after all readings |
| Agent.BoundedMatchesPlace | src/main.rs:201-212 | on the first SENSOR_COUNT slots, one bounded insert-and-pop agrees with unbounded stable insertion |
| Agent.BoundedMatchesPlaceAll | src/main.rs:190-214 | on the first SENSOR_COUNT slots, processing all readings agrees with stable insertion of all of them |
| Agent.PlaceAllSortedPermutation | src/main.rs:178 | stable insertion of all readings into a sorted list yields a sorted permutation of the list plus the readings |
| Agent.UpdateKeepsNearest | src/main.rs:178-214 | after the reset and all readings, the first SENSOR_COUNT slots are the first SENSOR_COUNT entries of the sorted permutation of the sentinels plus the readings |
| Agent.Sensors.constructor | src/main.rs:47-50 | SENSOR_COUNT copies of the default sensor |
| Agent.Sensors.Reset | src/main.rs:184-189 | every slot is reset to the sentinel |
| Agent.Sensors.Insert | src/main.rs:201-212 | the in-place scan with insert, pop and break leaves `WithReading` of the old list |
| Agent.Sensors.Update | src/main.rs:183-214 | `update_sensors` for one agent leaves `WithReadings` of the cleared list |
| Agent.AxisStep | src/main.rs:148-158 | -1 iff the action is below -0.33, +1 iff above 0.33, and 0 iff in [-0.33, 0.33] |
| Agent.MoveAgent | src/main.rs:147-159 | each axis moves by its own step times speed times dt, independently of the other axis |

## Left out

- The logistic sigmoid and its `exp` are the parameter `act`. `_sigmoid_derivative` is unused by the program.
- NeuralNetwork.ForwardRange: assumes an activation strictly inside (0, 1). The f32 sigmoid rounds to 0.0 or 1.0 for large arguments, so the program's outputs lie only in [0, 1].
- f32 arithmetic is not modelled: all values are exact reals.
  - NaN and infinities appear only through `Float` in the argmax and maximum helpers.
  - The real-valued forward pass is always finite.
  - The ±0.33 thresholds are exact reals rather than their f32 roundings.
- The `println!` of the training counter at the end of `train` is not modelled: the model has no logging or other output.
- Random number generation is not modelled. The draws are parameters, and only their ranges are constrained.
- `forward_with_intermediates`, `backward` and the gradient arithmetic are not part of this model. They are the parameter `backward`, which changes only the q-network.
- `train` works on the `NeuralNetwork` of this model. The program's `DeepQN` imports a network type, from `crate::components`, that is not part of this model.
- `Vec2::distance` and `angle_between` are glam geometry. Their results are the readings passed to `Agent.Sensors.Update`.
- `Sensor::default` is not part of this model. It is the `initial` parameter of `Agent.Sensors.constructor`.
- Only the x and y coordinates of the translation are modelled, and only the fields of `GuiParameters` the agent reads (`start`, `episode_counter` and `episode_size` are not).
- Dqn.DeepQN.UpdateEpsilon: does not model the `as i32` conversion of the buffer length. It wraps for lengths of 2^31 or more; the model uses the exact length.
- Dqn.DeepQN.StoreExperience: requires a non-empty buffer or a positive capacity. Otherwise `remove(0)` panics.
- Dqn.DeepQN.Train: requires a non-empty buffer or a positive batch size, since `Uniform::new(0, 0)` panics. When the batch is taken, it also requires `batch_size` picks within the buffer whose actions index the q-network's output; indexing panics otherwise.
- Agent.Sensors.Insert: requires at least SENSOR_COUNT slots. With fewer, the scan may index past the end and panic. The only list the program builds has exactly SENSOR_COUNT slots.
- Agent.Sensors.Update: requires at least SENSOR_COUNT slots, for the same reason as `Insert`.
- The rest of the program is not part of this model:
  - Bevy app setup, queries, spawning, the window and camera, and the debug systems;
  - obstacle movement and bouncing;
  - `src/systems.rs` (bird physics and collisions) and the egui interface in `src/gui.rs`;
  - the genetic selection, crossover and mutation, which have no code among these files.
