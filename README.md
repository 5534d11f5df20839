# Touch alarm: decision, sound debounce and training

A model of the alerting core of a browser app. The app learns two visual states
of a webcam feed, "not touching the face" (`not_touch`) and "touching the face"
(`touch`), from examples the user records. It then classifies frames in a
loop and raises an alarm when it sees `touch`. An external nearest-neighbour
classifier does the classification over embeddings from a pretrained network.
The model covers only the logic the app writes itself:

- **Decision** (`decision.dfy`): a step is touched when the predicted label is
  `touch` and that label's confidence is strictly above 0.8. The classifier's
  result is an input: the predicted label plus the map of per-label confidences.
- **Alert** (`alert.dfy`): the state machine over the `canPlaySound` flag and the
  displayed `touched` state. Each touched step requests one notification. It
  also plays the alarm sound when the flag is set, and clears the flag. The
  sound's `end` signal sets the flag again. First as pure functions over events
  (`Next`, `Emitted`, `Final`, `Trace`) with lemmas about runs of events. Then as
  the `App` class, whose methods update the fields in place and are proved
  against those functions. The self-rescheduling `run` is `RunAll`, a loop over
  a finite sequence of events (inference results and `end` signals).
- **Training** (`training.dfy`): the example store is a map from label to the
  embeddings added under it, in order. `Train` repeats 50 times: add the current
  frame's embedding under the label. The embeddings come in as a parameter.

## Model

| member | source | states |
|---|---|---|
| Decision.IsTouched | src/App.js:94-97 | the decision itself: touched when the predicted label is `touch` and its confidence is strictly above 0.8 (no contract; see below) |
| Decision.ThresholdBoundary | src/App.js:94-97 | for every prediction: a confidence of exactly 0.8 is not touched, another label is never touched, a missing confidence is never touched; 0.81 is touched |
| Decision.DecisionIgnoresOtherLabels | src/App.js:94-97 | the decision depends only on the predicted label and that label's own confidence |
| Decision.DecisionMonotone | src/App.js:96 | raising the confidence of a touched prediction keeps it touched |
| Alert.Next | src/App.js:94-108 | after an inference step `touched` equals the step's decision; the flag stays set only when it was set and the step is not touched; an `end` signal sets the flag and keeps `touched` |
| Alert.Emitted | src/App.js:99-103 | one step plays the sound once exactly when it is touched with the flag set, otherwise never; it requests one notification exactly when touched; nothing else is requested |
| Alert.Final | src/App.js:89-111 | the state after a run: one ending in an inference step shows that step's decision; one ending in an `end` signal may play the sound again; an empty run changes nothing |
| Alert.Trace | src/App.js:99-103 | a run of steps requests only the alarm sound and the alert notification |
| Alert.Split | src/App.js:109-110 | handling two runs in a row is handling their concatenation, for both state and effects |
| Alert.AtMostOneSoundWithoutEnd | src/App.js:99-102 | with no `end` signal in a run, the sound plays at most once, and never if the flag was clear at the start |
| Alert.ExactlyOneWhenArmed | src/App.js:99-102 | when the flag is set, a run with at least one touched step and no `end` signal plays the sound exactly once, whatever untouched steps lie between |
| Alert.PlaysAgainAfterEnd | src/App.js:99-123 | after an `end` signal, a run with a touched step and no further `end` plays the sound exactly once, whatever the flag was before |
| Alert.SoundsBounded | src/App.js:99-102 | over any run the sound plays at most once per `end` signal plus once if the flag was set, and never more often than there are touched steps |
| Alert.NotificationPerTouch | src/App.js:103 | the notifications requested over a run are exactly as many as its touched steps, whatever the flag |
| Alert.Rearm | src/App.js:99-102 | two touched steps in a row play the sound once; with an `end` signal between them, the second one plays it too |
| Alert.FlagIffTouchesEnded | src/App.js:99-102 | after a run the flag is set if and only if every touched step was followed by an `end` signal and the flag was set at the start or some `end` arrived |
| Alert.FlagFromMount | src/App.js:23 | on a freshly mounted component, the flag after a run is set if and only if every touched step was followed by an `end` signal |
| Alert.EndsKeepTouched | src/App.js:121-123 | `end` signals never change `touched` |
| Alert.TouchedIsLastDecision | src/App.js:104-107 | after a run, `touched` is the decision of the last inference step in it |
| Alert.App.constructor | src/App.js:23-24 | the flag starts set, `touched` starts false, no effect requested |
| Alert.App.Run | src/App.js:94-108 | one inference step updates the flag, `touched` and the effect log as `Next` and `Emitted` say |
| Alert.App.OnSoundEnd | src/App.js:121-123 | the `end` handler sets the flag and changes nothing else |
| Alert.App.Handle | src/App.js:94-123 | one event goes to the inference step or to the `end` handler; the new state and the appended effects are as `Next` and `Emitted` say |
| Alert.App.RunAll | src/App.js:89-111 | the loop leaves the state `Final` gives and appends exactly `Trace` to the effect log |
| Training.WithExample | src/App.js:83 | adding an example appends it to its label's bucket, creating the bucket if absent, and leaves every other label alone |
| Training.WithExamples | src/App.js:65-69 | adding embeddings one at a time appends all of them, in order, to the label's bucket and to no other; the label becomes a key once one is added |
| Training.Samples | src/App.js:65 | a session takes exactly 50 samples, the i-th being the i-th frame's embedding |
| Training.Classifier.constructor | src/App.js:31 | a new classifier holds no examples |
| Training.Classifier.AddExample | src/App.js:83 | the store changes exactly as `WithExample` says |
| Training.TrainingStep | src/App.js:80-87 | one sample adds the current frame's embedding under the label |
| Training.Train | src/App.js:63-70 | a session adds exactly 50 examples, all under the label, in capture order; no other label's examples change |

`Decision.IsTouched` carries no contract: its definition is the decision itself. `Decision.ThresholdBoundary`, `Decision.DecisionIgnoresOtherLabels` and `Decision.DecisionMonotone` state its properties.

## Left out

- Camera setup (`setupCamera`) and the start-up sequence (`init`): browser I/O and model loading.
- The embedding network (`infer`) and the nearest-neighbour search (`predictClass`) are external libraries whose metric, K and tie-break are not visible. The classifier's result is an input to `Alert.App.Run`, and each training embedding is an input to `Training.Train`.
- The notification cooldown of 3000 ms lives inside the notification library. The model records that a notification is requested, not whether it is delivered.
- Sound playback itself, and when the `end` signal arrives. `end` is an event in the input sequence. Nothing stops an `end` that follows no playback; it only sets the flag.
- The 100 ms and 200 ms sleeps, and `run` calling itself forever. `Alert.App.RunAll` handles a finite sequence of events instead.
- Overlapping `run` or `train` calls from repeated button presses. That is concurrency.
- React rendering, the JSX, the progress percentage and the console logging. `touched` is modelled as the state value, not as the re-render it causes.
- Confidences are `real`, not IEEE doubles.
- Predicting on an empty example store: `predictClass` (src/App.js:91) rejects, nothing catches it, so `run` rejects before rescheduling itself at src/App.js:110 and the loop stops for good. The classifier's result is an input here, so that path is outside the model.
- A failing training sample: `training` (src/App.js:80-86) wraps an `async` executor in `new Promise`. If `infer` or `addExample` throws (Train pressed before the model is loaded, say), that promise never resolves and the `train` session hangs. The model only covers samples that succeed.

## Behaviour worth noting

- The displayed state starts `false` (src/App.js:24).
- The sound is debounced by the app's own flag (src/App.js:99-102), not by the player refusing to play.
- A training session is never rejected or queued while another one is running.
