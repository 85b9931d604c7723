# FitnessApp core, modelled in Dafny

FitnessApp is a browser fitness coach. It has two parts:

- `script.js`: a single-page client.
- `api/training-plan.js`: a serverless endpoint.

This project models the parts of both that decide something. It proves what they promise.

## What is modelled

**The rep-counting session engine** (`script.js`). The camera's pose detector delivers one frame of body landmarks at a time. The engine handles each frame like this:

- It classifies the frame: average visibility, the stability test, the count of visible keypoints, the symmetry penalty and the COCO keypoints.
- It pushes the frame into two bounded buffers: replay frames (120) and the frames of the current set (200).
- It runs a presence debounce, a leaky counter with a latch that starts the session after three stable frames.
- It hands the landmarks to one of three rep counters:
  - the squat, a two-angle hysteresis with a 500 ms rep interval;
  - the push-up, one angle with an 800 ms dwell time on top of the rep interval;
  - the generic one, a vertical-displacement integrator with progress clamped to [0, 1].

A run of three empty frames drops the session back to WAITING. Other parts of the engine:

- The user can start, pause, resume and stop.
- `saveSet` flushes the pending reps and frames into a set record and credits XP.
- The twelfth rep saves the set automatically.

The model has two layers:

- `RepEngine` holds the engine's state as a value. It has one function per source function and the per-call properties.
- `Training.TrainingSession` is a class whose fields are the source's module-level state: `poseState`, `motionTracker`, `repCount`, `lastRepTimestamp` and the rest. Its methods update those fields step by step. Each method is proved to leave exactly the state the corresponding `RepEngine` function describes.

`SessionProperties` covers behaviour across many calls:

- the invariant every user or detector event preserves;
- that a squat held inside the hysteresis band never counts;
- that for squats and push-ups one rep at most is counted per 500 ms. The generic counter has no rep interval: it can count a rep on every frame whose jump fills the progress;
- that the stability latch needs three stable frames;
- worked squat and push-up cycles.

It also shows a consequence of the code as written. A detector callback for a frame that was sent just before the user paused can still arrive. Such callbacks can clear the stable flag. Resuming then takes the bootstrap branch, which throws away the pending reps.

**Pure helpers of the client**:

- the food-name extraction used on detector answers: validation, trimming, truncation, the item lists and the description fallback;
- `escapeHTML`, proved to be undone by decoding the five entities and to leave no markup characters;
- the muscle rank table, the XP formula and the level-up loop;
- the Mifflin-St Jeor calorie calculator with the macro split;
- weekly archiving of the food log: the oldest seven distinct days become one summary of daily averages;
- the rule-based fallback training plan, proved to pass the endpoint's own plan structure check.

**The training-plan endpoint** (`api/training-plan.js`):

- the in-memory sliding-window rate limiter: 20 requests per minute per client key;
- the handler's early-return gating: method, rate limit, API key, key format and parameters;
- the structure check of a generated plan, with JavaScript values modelled as a `JsValue` datatype.

Clocks, randomness and the camera are parameters:

- `Date.now()` is `now`.
- Each `Math.random()` draw is a real in [0, 1), carried in `Draws`.
- Joint angles are arguments. The trigonometry of `calculateAngle` is not modelled, only its fold into [0, 180].
- `Math.round` is modelled as floor(x + 1/2), which is exactly JavaScript's rule.

## Model

Each row names a member and the source lines it models. A definition without a contract of its own says which members state its properties.

| member | source | states |
|---|---|---|
| Basics.Round | script.js:2122 | `Math.round`: the result is the integer within half a unit of x, ties rounded up |
| Basics.Floor | script.js:2224 | `Math.floor`: the greatest integer not above x |
| Basics.StartsWith | api/training-plan.js:84 | definition only, no contract of its own: `startsWith` holds when the text's first characters are the prefix |
| Basics.Contains | script.js:813-815 | definition only, no contract of its own: `includes` holds when the text occurs at some position |
| PoseFrames.VisibilityOr | script.js:787 | `visibility \|\| fallback`: the confidence is never 0 when the fallback is not 0 |
| PoseFrames.FoldAngle | script.js:796-806 | the joint angle for a bearing difference lies in [0, 180]: the absolute difference, or 360 minus it above 180 |
| PoseFrames.TiltQuality | script.js:639-650 | the symmetry multiplier is in [0.3, 1]: 1 up to 5 % tilt, in [0.5, 0.8) up to 10 %, in [0.3, 0.5) beyond |
| PoseFrames.TiltQualityAntitone | script.js:641-647 | more tilt never gives a better symmetry multiplier |
| PoseFrames.SymmetryPenalty | script.js:594-651 | the multiplier is in [0.3, 1], and it is exactly 1 when a shoulder or hip landmark is missing or has visibility under 0.5 (the helper `PoseFrames.LowVisibility`, script.js:609-610) |
| PoseFrames.ToCocoKeypoints | script.js:754-793 | exactly 17 slots; slot c is filled iff its MediaPipe landmark exists, with id c, the COCO name, the landmark's coordinates and a non-zero confidence |
| PoseFrames.CountVisible | script.js:662 | the number of visible keypoints never exceeds the number of landmarks |
| PoseFrames.SumVisibilityBounds | script.js:656 | with visibilities in [0, 1], their sum lies between 0 and the number of landmarks |
| PoseFrames.AverageConfidence | script.js:656 | the mean visibility, the sum `PoseFrames.SumVisibility` over the count, lies in [0, 1] when every visibility does |
| PoseFrames.ClassifyFrame | script.js:656-680 | the frame carries the clock, the mean confidence, stable iff confidence > 0.7, the visible count, a posture score between 0 and the confidence, and 17 keypoint slots |
| Gamification.RankIndexFor | script.js:2027-2033 | the chosen tier is the last one whose threshold the XP reaches; the next tier's threshold is not reached |
| Gamification.RankMonotone | script.js:2040-2053 | more XP never gives a lower rank |
| Gamification.GetRankForMuscle | script.js:2040-2053 | the loop returns the tier of `RankIndexFor`, which has the highest threshold the XP reaches |
| Gamification.QualityMultiplier | script.js:2111-2115 | the quality bonus factor is between 1 and 1.5 |
| Gamification.CalculateXP | script.js:2106-2123 | a set earns at least 5 XP per rep; without weight at most 7.5 per rep, and exactly 5 per rep when quality is 80 or less |
| Gamification.CalculateXPMonotoneInQuality | script.js:2106-2123 | a higher quality never earns less XP for the same reps and weight |
| Gamification.NextXpStep | script.js:2224 | the level threshold never shrinks when it is raised by 20 % |
| Gamification.LevelUp | script.js:2221-2226 | after the loop the XP is below the threshold; level and threshold never drop, the XP never grows, and nothing changes iff the XP was below the threshold |
| RepEngine.Initial | script.js:430-475 | the page starts STOPPED with detection off, no pending reps and both phases up |
| RepEngine.RomLabel | script.js:1960-1961 | the saved range-of-motion label is full or partial; a known full or partial label is kept |
| RepEngine.SetQuality | script.js:1962-1963 | the saved quality lies in [60, 98]: the clamped last quality when it is positive, otherwise a draw in [70, 95] |
| RepEngine.Tip | script.js:1973-1980 | the coach tip is "focus on control" iff the average quality is under 50 and "perfect form" iff it is at least 80 |
| RepEngine.ResetPoseTracking | script.js:516-538 | presence flags, pending reps, set frames, progress and both frame counters are cleared; training state, sets, replay frames and the rep clock are kept |
| RepEngine.StartPoseBootstrap | script.js:1126-1136 | the bootstrap ends WAITING with detection running and presence, pending reps and set frames cleared; the history, XP, replay frames, phases and rep clock are kept and the progress is zeroed |
| RepEngine.StartRepDetection | script.js:1867-1886 | without stable keypoints nothing changes; otherwise ACTIVE, both phases up, progress 0 and both push-up stamps 0, with reps and sets kept |
| RepEngine.PauseTraining | script.js:1907-1918 | only ACTIVE or READY become PAUSED; every other state is left as it was |
| RepEngine.ResumeTraining | script.js:1920-1922 | outside PAUSED the call changes nothing |
| RepEngine.ResumeTrainingSpec | script.js:1920-1935 | from PAUSED: with stable keypoints and a detected person it becomes ACTIVE and keeps the pending reps; otherwise it becomes WAITING and the bootstrap zeroes the pending reps and counters |
| RepEngine.SaveSet | script.js:1955-1958 | with no pending reps nothing is saved and nothing changes |
| RepEngine.SaveSetSpec | script.js:1953-2020 | with pending reps exactly one set is appended: those reps, a copy of the set frames, quality in [60, 98] and the XP credited; then reps and frames are cleared; the session state is untouched unless PAUSED; total reps are conserved |
| RepEngine.StopCamera | script.js:1846-1865 | detection stops and the presence flags clear; training state, reps, sets, set frames and motion are kept |
| RepEngine.HandleStartTraining | script.js:1888-1905 | from PAUSED the button resumes; otherwise a live camera bootstraps into WAITING, a failed start only stops the camera, an unavailable one changes nothing |
| RepEngine.SwitchCamera | script.js:3489-3495 | changing the camera restarts the bootstrap when a stream was live and the new one starts, stops the camera when it fails, and otherwise changes nothing |
| RepEngine.StopTrainingSpec | script.js:1937-1951 | stopping ends STOPPED with detection off and presence cleared; pending reps are flushed iff there were any; total reps are conserved |
| RepEngine.StopTraining | script.js:1937-1951 | definition only, no contract of its own: STOPPED, the camera stopped, then `saveSet` iff reps are pending; `StopTrainingSpec` states the outcome |
| RepEngine.NewSet | script.js:1959-1990 | definition only, no contract of its own: the set record of `saveSet`; `SaveSetSpec` states its reps and quality bounds |
| RepEngine.AverageQuality | script.js:1964-1968 | definition only, no contract of its own: the mean posture score (the sum `RepEngine.SumPosture` over the frame count) times 100, rounded, or the set quality when there are no frames; it picks the coach tip |
| RepEngine.Credit | script.js:2174-2226 | definition only, no contract of its own: the set's XP added, then the level-up loop; `Gamification.LevelUp` states the loop's outcome |
| RepEngine.SquatRepQuality | script.js:865-869 | a counted squat has quality 90..99 after a full descent and 70..84 otherwise |
| RepEngine.PushupRepQuality | script.js:927 | a counted push-up has quality 85..99 |
| RepEngine.AfterRep | script.js:872-874 | below twelve pending reps the auto-save does nothing |
| RepEngine.AfterRepSpec | script.js:872-874 | at twelve pending reps the set is flushed as an automatic save; afterwards fewer than twelve reps are pending and total reps are conserved |
| RepEngine.CountSquatReps | script.js:832-834 | a frame missing landmark 11, 23, 25 or 27 changes nothing |
| RepEngine.SquatGoesDown | script.js:846-851 | from up the phase goes down iff hip < 100 and knee < 110; the range is full iff hip < 90; no rep is counted |
| RepEngine.SquatComesUp | script.js:852-878 | from down exactly one rep is counted iff hip > 150, knee > 150 and 500 ms passed since the last rep; it stamps the rep clock, sets quality by range and returns to up (or auto-saves at twelve); otherwise only the hip angle is recorded |
| RepEngine.CountSquatRepsFrame | script.js:824-879 | any squat frame counts at most one rep, only after the 500 ms interval, keeps the session state and the generic progress, and never leaves twelve reps pending |
| RepEngine.CountPushupReps | script.js:889-891 | a frame missing landmark 11, 13, 15 or 23 changes nothing |
| RepEngine.PushupGoesDown | script.js:904-912 | from up the phase goes down iff elbow < 90 and the last up stamp is 0 or 800 ms old; going down stamps the down time; no rep is counted |
| RepEngine.PushupComesUp | script.js:914-934 | from down exactly one rep is counted iff elbow > 160, 800 ms since going down and 500 ms since the last rep; quality 85..99, phase up and the up stamp set; otherwise nothing changes |
| RepEngine.CountPushupRepsFrame | script.js:882-935 | any push-up frame counts at most one rep, only after the 500 ms interval, keeps the session state and never leaves twelve reps pending |
| RepEngine.TorsoYs | script.js:941-950 | at most the four torso landmarks contribute to the vertical average |
| RepEngine.AverageY | script.js:941-953 | definition only, no contract of its own: the mean y of the torso landmarks that are present |
| RepEngine.PreviousVertical | script.js:956 | definition only, no contract of its own: `lastVerticalPos \|\| avgY` |
| RepEngine.MoveVertically | script.js:955-974 | definition only, no contract of its own: the movement integrator; `GenericCountsOnFullProgress`, `MoveVerticallyCounts` and `MoveVerticallyFrame` state what it does |
| RepEngine.CountGenericReps | script.js:952 | a frame with none of the four torso landmarks changes nothing |
| RepEngine.GenericCountsOnFullProgress | script.js:956-974 | a rep is counted iff the movement exceeds 0.05 and the progress plus twice the movement reaches 1; counting resets the progress; the position is always recorded |
| RepEngine.MoveVerticallyCounts | script.js:956-974 | a generic frame counts at most one rep, leaves the rep clock alone and never leaves twelve reps pending |
| RepEngine.MoveVerticallyFrame | script.js:960-965 | the generic progress stays in [0, 1] and the session state is kept |
| RepEngine.ProcessRepCountingSpec | script.js:809-821 | whichever counter the exercise name selects, a frame counts at most one rep (the squat and push-up ones only after the 500 ms interval), keeps progress in [0, 1] and never leaves twelve reps pending |
| RepEngine.ExerciseOf | script.js:813-820 | definition only, no contract of its own: "Kniebeugen" or a name containing "Squat" selects the squat counter, then "Liegestütze" or "Push" the push-up counter, anything else the generic one |
| RepEngine.ProcessRepCounting | script.js:809-821 | definition only, no contract of its own: the dispatch by `ExerciseOf`; `ProcessRepCountingSpec` states the outcome |
| RepEngine.Bounded | script.js:683-690 | push-then-shift keeps a buffer at its cap with the new frame last, dropping the oldest frame only when the buffer was full |
| RepEngine.Presence | script.js:697 | a frame with confidence at most 0.6 leaves the presence state alone |
| RepEngine.PresenceSpec | script.js:697-724 | above 0.6 the person is detected, the stable counter rises by one on a stable frame or decays by one (not below 0), the latch closes at three, and closing it in WAITING starts rep detection; nothing else changes state |
| RepEngine.PresenceKeepsCounters | script.js:697-724 | the presence debounce never touches reps, sets, frame buffers, the loss counter or the rep clock |
| RepEngine.BufferFrame | script.js:683-695 | the replay buffer always takes the frame; the set buffer only while ACTIVE or READY; the loss counter resets; nothing else changes |
| RepEngine.GatedRepCounting | script.js:727-729 | rep counting runs only while ACTIVE with stable keypoints |
| RepEngine.GatedRepCountingSpec | script.js:727-729 | the gated counter counts at most one rep, only while ACTIVE, and keeps progress in [0, 1] and fewer than twelve pending reps |
| RepEngine.TrackFrameBuffers | script.js:654-730 | a landmark frame ends with the frame last in the replay buffer; set frames grow only while ACTIVE or READY and stay within 200; the presence outcome is that of the debounce |
| RepEngine.ProcessPoseLandmarks | script.js:654-730 | definition only, no contract of its own: classify the frame, then `TrackFrame` |
| RepEngine.TrackFrame | script.js:682-730 | definition only, no contract of its own: buffering, then presence, then gated counting, in the source's order; `TrackFrameBuffers` and `TrackFrameCounts` state the outcome |
| RepEngine.TrackFrameCounts | script.js:654-730 | a landmark frame counts at most one rep, only while ACTIVE, for squats and push-ups only after the rep interval (the generic counter has none), and otherwise keeps reps, sets and the rep clock |
| RepEngine.HandleNoPerson | script.js:733-751 | every empty frame raises the loss counter; the third clears presence and the stable counter and moves ACTIVE or READY to WAITING; reps, sets and motion are never touched |
| RepEngine.OnPoseResults | script.js:568-585 | with detection off a callback does nothing; an empty result is handled as a lost person |
| RepEngine.FrameTick | script.js:1142-1151 | while PAUSED or with detection off no frame is sent, so nothing changes |
| SessionProperties.InitialInv | script.js:430-475 | the page-load state satisfies the session invariant |
| SessionProperties.ResumeKeepsInv | script.js:1920-1935 | resuming preserves the session invariant |
| SessionProperties.SaveSetKeepsInv | script.js:1953-2020 | saving a set preserves the session invariant |
| SessionProperties.BufferKeepsInv | script.js:683-695 | buffering a frame keeps both buffers within their caps |
| SessionProperties.PresenceKeepsInv | script.js:697-724 | the presence debounce preserves the session invariant |
| SessionProperties.GateKeepsInv | script.js:727-729 | gated rep counting preserves the session invariant |
| SessionProperties.PipelineKeepsInv | script.js:654-730 | processing a landmark frame preserves the session invariant |
| SessionProperties.CallbackKeepsInv | script.js:568-585 | every detector callback preserves the session invariant |
| SessionProperties.StepKeepsInv | script.js:1888-1951 | every button, camera change, frame turn or callback preserves the invariant: buffers capped, fewer than twelve pending reps, progress in [0, 1], stable keypoints only with a detected person, no lingering READY |
| SessionProperties.RunKeepsInv | script.js:1142-1167 | the invariant holds after any sequence of events |
| SessionProperties.StepKeepsSyncInv | script.js:1148-1151 | without late callbacks a paused session with detection running keeps its stable keypoints |
| SessionProperties.ResumeKeepsPendingReps | script.js:1925-1927 | without late callbacks resuming a paused live session returns to ACTIVE with the pending reps intact |
| SessionProperties.InFlightLossDropsPendingReps | script.js:1932-1933 | a late empty callback that completes a loss streak while PAUSED clears the stable flag, so resuming discards the pending reps without saving them |
| SessionProperties.CallbackCountsAtMostOne | script.js:654-751 | one callback either leaves reps, sets and the rep clock alone, or counts one rep while ACTIVE, for squats and push-ups only after the rep interval (the generic counter has none) |
| SessionProperties.SquatBandStep | script.js:846-852 | a squat frame inside the hysteresis band changes no count |
| SessionProperties.SquatBandNeverCounts | script.js:846-876 | any run of frames whose angles stay inside the hysteresis band counts no rep |
| SessionProperties.WindowAfterRepCountsNone | script.js:855 | for squats and push-ups, within 500 ms of the last rep no frame counts a rep |
| SessionProperties.OneRepPerInterval | script.js:855-859 | for squats and push-ups, any run of frames inside a 500 ms window counts at most one rep; the generic counter has no such bound |
| SessionProperties.LatchStep | script.js:705-712 | a callback raises the stable counter by at most one per stable frame, and the latch only closes at three |
| SessionProperties.LatchNeedsThreeStableFrames | script.js:705-712 | fewer than three stable frames never close the stability latch |
| SessionProperties.ThreeEmptyFramesDropToWaiting | script.js:733-751 | an ACTIVE session survives two empty frames and falls back to WAITING on the third, keeping its reps |
| SessionProperties.FullSquatCountsOneRep | script.js:846-870 | standing, squatting below 90 degrees at the hip and standing up 700 ms later counts one rep with quality 90..99 |
| SessionProperties.FastSquatWaitsForInterval | script.js:852-859 | a partial squat that comes up 200 ms after the last rep is not counted until 500 ms have passed, then scores 70..84 |
| SessionProperties.PushupDwellTime | script.js:904-927 | a push-up that comes up 300 ms after going down is not counted; at 900 ms it counts one rep with quality 85..99 |
| SessionProperties.TwelfthRepAutoSaves | script.js:872-874 | the twelfth squat saves an automatic set of twelve reps and clears the pending reps and set frames while staying ACTIVE |
| Training.TrainingSession.constructor | script.js:430-475 | the fields start as the page-load state, which satisfies the invariant with no late callbacks |
| Training.TrainingSession.ResetPoseTracking | script.js:516-538 | the fields become `RepEngine.ResetPoseTracking` of the old state |
| Training.TrainingSession.StartPoseBootstrap | script.js:1126-1136 | the fields become `RepEngine.StartPoseBootstrap` of the old state |
| Training.TrainingSession.StartRepDetection | script.js:1867-1886 | the fields become `RepEngine.StartRepDetection` of the old state |
| Training.TrainingSession.StopCamera | script.js:1846-1865 | the fields become `RepEngine.StopCamera` of the old state |
| Training.TrainingSession.PauseTraining | script.js:1907-1918 | the fields become `RepEngine.PauseTraining` of the old state, and the invariant is kept |
| Training.TrainingSession.ResumeTraining | script.js:1920-1935 | the fields become `RepEngine.ResumeTraining` of the old state |
| Training.TrainingSession.HandleStartTraining | script.js:1888-1905 | the fields become `RepEngine.HandleStartTraining` of the old state, and the invariant is kept |
| Training.TrainingSession.ProcessGamification | script.js:2174-2226 | the loop credits the set's XP and levels up until the XP is below the threshold, as `Credit` describes |
| Training.TrainingSession.SaveSet | script.js:1953-2020 | the fields become `RepEngine.SaveSet` of the old state, and the invariant is kept |
| Training.TrainingSession.StopTraining | script.js:1937-1951 | the fields become `RepEngine.StopTraining` of the old state, and the invariant is kept |
| Training.TrainingSession.AutoSave | script.js:872-874 | the fields become `RepEngine.AfterRep` of the old state |
| Training.TrainingSession.CountSquatReps | script.js:824-879 | the fields become `RepEngine.CountSquatReps` of the old state |
| Training.TrainingSession.CountPushupReps | script.js:882-935 | the fields become `RepEngine.CountPushupReps` of the old state |
| Training.TrainingSession.CountGenericReps | script.js:938-975 | the fields become `RepEngine.CountGenericReps` of the old state |
| Training.TrainingSession.ProcessRepCounting | script.js:809-821 | the fields become `RepEngine.ProcessRepCounting` of the old state |
| Training.TrainingSession.BufferFrame | script.js:683-695 | the fields become `RepEngine.BufferFrame` of the old state |
| Training.TrainingSession.UpdatePresence | script.js:697-724 | the fields become `RepEngine.Presence` of the old state |
| Training.TrainingSession.ProcessPoseLandmarks | script.js:654-730 | the fields become `RepEngine.ProcessPoseLandmarks` of the old state |
| Training.TrainingSession.HandleNoPerson | script.js:733-751 | the fields become `RepEngine.HandleNoPerson` of the old state |
| Training.TrainingSession.OnPoseResults | script.js:568-585 | the fields become `RepEngine.OnPoseResults` of the old state, and the invariant is kept |
| Training.TrainingSession.ProcessFrame | script.js:1142-1163 | the fields become `RepEngine.FrameTick` of the old state, and the invariant is kept |
| JsValues.Prop | api/training-plan.js:264 | a property read fails (TypeError) exactly on undefined or null; a primitive or array yields undefined for a missing key; an object yields its field |
| JsValues.OptionalProp | script.js:152 | optional chaining yields undefined on anything that is not an object |
| JsValues.Or | api/training-plan.js:73 | `a \|\| b` is truthy iff a or b is |
| JsValues.Truthy | api/training-plan.js:73-75 | definition only, no contract of its own: undefined, null, false, 0 and the empty string are falsy, everything else truthy |
| EscapeHtml.ReplaceAll | script.js:479-483 | definition only, no contract of its own: one global `replace`; `ReplaceAllMembers` states what it does |
| EscapeHtml.ReplaceAllMembers | script.js:479-483 | after a global replace no occurrence of the character is left (unless the replacement holds it); every other character survives and only replacement characters are added |
| EscapeHtml.EscapeHTML | script.js:477-484 | definition only, no contract of its own: the five replacements in the source's order, `&` first; `EscapeHTMLIsCharwise`, `EscapeHTMLNoMarkup` and `EscapeHTMLRoundTrip` state its properties |
| EscapeHtml.EscapeChar | script.js:477-484 | a character escapes to an entity (starting with `&`) iff it is one of `& < > " '` |
| EscapeHtml.EscapeHTMLAppend | script.js:477-484 | escaping distributes over concatenation |
| EscapeHtml.EscapeHTMLChar | script.js:477-484 | the replace chain escapes each single character to its entity or itself, without double escaping |
| EscapeHtml.EscapeHTMLAmp | script.js:479 | `&` becomes `&amp;` |
| EscapeHtml.EscapeHTMLLt | script.js:480 | `<` becomes `&lt;` |
| EscapeHtml.EscapeHTMLGt | script.js:481 | `>` becomes `&gt;` |
| EscapeHtml.EscapeHTMLQuot | script.js:482 | `"` becomes `&quot;` |
| EscapeHtml.EscapeHTMLApos | script.js:483 | `'` becomes `&#039;` |
| EscapeHtml.EscapeHTMLOrdinary | script.js:477-484 | every other character passes through unchanged |
| EscapeHtml.EscapeHTMLIsCharwise | script.js:477-484 | the chain of five global replaces equals escaping character by character |
| EscapeHtml.EscapeHTMLNoMarkup | script.js:477-484 | escaped text contains none of `< > " '` |
| EscapeHtml.EscapeHTMLPlain | script.js:477-484 | text without special characters is returned unchanged |
| EscapeHtml.UnescapeStep | script.js:477-484 | decoding an escaped character followed by anything restores the character first |
| EscapeHtml.EscapeHTMLRoundTrip | script.js:477-484 | decoding the five entities restores the original text of any escaped string |
| Nutrition.CalculateBMR | script.js:2590-2602 | Mifflin-St Jeor: base +5 for men, -161 for women, and their mean (-78) otherwise |
| Nutrition.BaseMetabolism | script.js:2592-2600 | definition only, no contract of its own: the term 10 w + 6.25 h - 5 a shared by the three branches |
| Nutrition.BMROrdering | script.js:2590-2602 | women get the lowest value, and men's exceeds women's by 166 kcal |
| Nutrition.ActivityMultiplier | script.js:2604-2612 | the multiplier lies in [1.2, 1.725] and defaults to 1.55 for an unknown level |
| Nutrition.CalculateMacros | script.js:2614-2637 | protein per kg lies in [1.8, 2.2], 2.0 iff bulking and 2.2 iff cutting; fat is 25 % or 30 % when maintaining; maintenance calories round the TDEE |
| Nutrition.GoalCaloriesOrdered | script.js:2619-2634 | for a non-negative TDEE cutting never targets more calories than maintaining, nor maintaining more than bulking |
| Nutrition.MacroSplit | script.js:2659-2661 | protein and fat grams are non-negative, and the three macros' energy (4/9/4 kcal per g) is within 2 kcal of the calorie target |
| NutritionArchive.Less | script.js:2848 | definition only, no contract of its own: the default `sort()` order on date keys, character by character, a prefix first |
| NutritionArchive.LessIrreflexive | script.js:2848 | no date key sorts before itself |
| NutritionArchive.LessTransitive | script.js:2848 | the sort order is transitive |
| NutritionArchive.LessTotal | script.js:2848 | of two different keys one sorts before the other |
| NutritionArchive.LessAsymmetric | script.js:2848 | two keys never sort before each other |
| NutritionArchive.Insert | script.js:2837-2846 | adding a date to the set keeps exactly the old dates plus the new one |
| NutritionArchive.InsertSorted | script.js:2849 | insertion keeps the date list sorted without duplicates |
| NutritionArchive.SortedDatesSpec | script.js:2835-2849 | the sorted date list is strictly increasing and holds exactly the log's distinct dates |
| NutritionArchive.SortedDates | script.js:2835-2849 | definition only, no contract of its own: each dated entry's key inserted into the sorted set; `SortedDatesSpec` states the result |
| NutritionArchive.SortedDatesCount | script.js:2849-2852 | the list is as long as the number of distinct days |
| NutritionArchive.Remaining | script.js:2907-2912 | the kept entries are exactly those whose date was not archived |
| NutritionArchive.Totals | script.js:2866-2890 | definition only, no contract of its own: calories and macros summed over the entries of archived dates; `SumArchived` computes it with a loop |
| NutritionArchive.ArchiveWeek | script.js:2852-2901 | a week is archived iff there are at least seven distinct dates; the summary is numbered one past the existing ones |
| NutritionArchive.ArchiveWhenSevenDays | script.js:2852 | archiving happens exactly when the log spans at least seven distinct days |
| NutritionArchive.ArchiveTakesOldestDays | script.js:2854-2856 | the summary starts at the log's earliest date and ends after it, and every remaining dated entry is later than the archived week |
| NutritionArchive.ArchiveRemovesSevenDays | script.js:2907-2912 | after archiving the log spans exactly seven distinct days fewer |
| NutritionArchive.NutritionLog.CheckAndArchiveWeeks | script.js:2833-2924 | reports whether a week was archived; if so the summary is appended and the entries become the remaining ones, otherwise the log is unchanged |
| NutritionArchive.CollectDates | script.js:2835-2849 | the loop collects the distinct dates, sorted oldest first |
| NutritionArchive.SumArchived | script.js:2859-2888 | the loop sums calories and macros over the entries of the archived dates |
| NutritionArchive.KeepUnarchived | script.js:2907-2912 | the filter keeps, in order, exactly the entries whose date was not archived |
| FallbackPlan.BaseExercises | script.js:3051-3077 | every equipment list has six exercises with names, reps, 3..4 sets and 45..120 s rest |
| FallbackPlan.AdjustForLevel | script.js:3080-3090 | the level adjustment keeps name and reps, keeps sets within 2..5 and rest within 45..120, and leaves other levels unchanged |
| FallbackPlan.AdjustAll | script.js:3080-3090 | every exercise is adjusted, in order |
| FallbackPlan.DayCount | script.js:3093 | the plan has 2 to 6 days: the whole part of the frequency when it is in range, 6 for a frequency of 6 or more, 2 for a frequency of 2 or less |
| FallbackPlan.ExerciseCount | script.js:3106-3111 | every day has 3, 4 or 5 exercises |
| FallbackPlan.Focus | script.js:3096-3103 | every day has a non-empty focus |
| FallbackPlan.GenerateFallbackPlan | script.js:3049-3122 | day i is named after weekday i with the goal's focus and the level's number of exercises, each with 2..5 sets, 45..120 s rest, a name and reps |
| FallbackPlan.FallbackPlanWellFormed | script.js:3049-3122 | every fallback plan passes the endpoint's plan structure check |
| FoodName.IsJsWhitespace | script.js:95 | definition only, no contract of its own: the characters `trim` and `\s` treat as whitespace |
| FoodName.TrimStart | script.js:95 | the result is a suffix of the input that does not start with whitespace |
| FoodName.TrimEnd | script.js:95 | the result is a prefix of the input that does not end with whitespace |
| FoodName.TrimStartDropsWhitespace | script.js:95 | every character dropped at the front is whitespace |
| FoodName.TrimEndDropsWhitespace | script.js:95 | every character dropped at the back is whitespace |
| FoodName.Trim | script.js:95 | the trimmed string has no whitespace at either end and is no longer than the input |
| FoodName.TrimEmptyIffBlank | script.js:95-100 | trimming yields the empty string iff the input is all whitespace |
| FoodName.TrimTrimmed | script.js:95 | trimming a trimmed string changes nothing |
| FoodName.IsPlaceholder | script.js:102-106 | definition only, no contract of its own: the lower-cased text is "undefined", "null" or "none" |
| FoodName.ToLowerAscii | script.js:103 | lower-casing keeps the length |
| FoodName.SanitizeText | script.js:88-120 | an accepted name is trimmed, non-empty, has a letter or digit and is at most 43 characters long |
| FoodName.SanitizeRejects | script.js:95-111 | the name is rejected exactly when the trimmed text is empty, a placeholder word in any letter case, or free of letters and digits |
| FoodName.SanitizeShort | script.js:95-119 | an accepted text of at most 40 characters after trimming is returned trimmed and contains a letter or digit |
| FoodName.SanitizeLong | script.js:113-117 | an accepted longer text becomes its first 40 characters, trimmed again, followed by "..." |
| FoodName.TrimNotBlank | script.js:115 | text starting with a visible character does not trim to the empty string, so a truncated name is never just "..." |
| FoodName.SanitizeTextSpec | script.js:88-120 | rejected iff blank, a placeholder word or without letters and digits; a short name is returned trimmed; a long one is cut to 40, re-trimmed and ends in "..." |
| FoodName.ValidateAndSanitize | script.js:88-92 | only strings can be accepted, and an accepted name has the sanitised shape |
| FoodName.SanitizeStable | script.js:88-120 | sanitising an accepted short name again gives the same name |
| FoodName.FirstSentence | script.js:135 | the first sentence is a prefix without `.` or a line break |
| FoodName.DropWhitespace | script.js:142 | skipping whitespace shortens a string that starts with whitespace |
| FoodName.SplitOnWhitespace | script.js:142 | splitting always yields at least one part |
| FoodName.Take | script.js:142 | taking n elements yields min(n, length) of them |
| FoodName.Join | script.js:142 | definition only, no contract of its own: `join` with a separator; `JoinShape` states the shape of the `", "` join |
| FoodName.FirstWords | script.js:142 | definition only, no contract of its own: the first five whitespace-separated words joined by one space |
| FoodName.DeriveShortName | script.js:127-144 | a derived name has the sanitised shape |
| FoodName.DeriveUsesFirstSentence | script.js:132-139 | a description whose first sentence is 1..40 characters is named by that sentence, which contains no `.` |
| FoodName.FilterTruthy | script.js:152 | `filter(Boolean)` keeps only truthy values |
| FoodName.LabelItems | script.js:151-153 | the label strategy's item list holds only truthy values |
| FoodName.ItemLabel | script.js:161-169 | an item's label, when accepted, has the sanitised shape |
| FoodName.ItemLabels | script.js:160-170 | every collected item label has the sanitised shape |
| FoodName.ItemsName | script.js:173-176 | the joined name, or the first label plus " u.a.", has the sanitised shape up to 48 characters |
| FoodName.JoinShape | script.js:173 | joining trimmed non-empty labels with ", " gives a trimmed non-empty name starting with the first label |
| FoodName.FirstValidField | script.js:182-190 | the first accepted alternative field has the sanitised shape |
| FoodName.FirstDerivedName | script.js:193-201 | the first name derived from a description field has the sanitised shape |
| FoodName.ItemList | script.js:151 | items are only read from an `items` array |
| FoodName.FromLabel | script.js:147-156 | a name taken from the label is sanitised and never the backend's unknown-food label |
| FoodName.FromItems | script.js:159-179 | a name built from items has the sanitised shape, and its item list is non-empty strings |
| FoodName.ExtractFoodName | script.js:78-205 | every result yields a sanitised name of at most 48 characters, and a falsy result yields "Essen" |
| FoodName.LabelWins | script.js:147-155 | a valid label that is not the unknown-food label becomes the name |
| FoodName.AlternativeNameUsed | script.js:182-188 | without label or items, an acceptable `name` field becomes the name and the only item |
| FoodName.ItemsBeforeFields | script.js:158-190 | without a usable label, usable items name the food before any alternative field is consulted |
| FoodName.FieldsBeforeDescriptions | script.js:181-201 | without label or items, a usable alternative field names the food before any description is consulted |
| FoodName.DescriptionsUsed | script.js:192-201 | when the first three strategies find nothing, the first description that yields a short name names the food |
| FoodName.FallbackOnlyWhenNothingFound | script.js:73-204 | a truthy result named "Essen" had its first successful strategy yield exactly "Essen", or no strategy succeeded and the items are the fallback's |
| RateLimit.ClientKey | api/training-plan.js:19 | a falsy address is bucketed under "unknown"; any other address is its own key |
| RateLimit.InWindow | api/training-plan.js:25 | the filter keeps exactly the timestamps less than 60 s old |
| RateLimit.InWindowKeepsRecent | api/training-plan.js:25 | a list already inside the window is kept whole |
| RateLimit.InWindowIdempotent | api/training-plan.js:25 | filtering twice at the same time changes nothing more |
| RateLimit.RateLimitStep | api/training-plan.js:17-34 | refused iff 20 or more in-window timestamps; refused leaves the map as it was; accepted stores the in-window timestamps plus now (at most 20, now last); other keys untouched |
| RateLimit.RateLimitStepBounded | api/training-plan.js:25-33 | no call lets any key hold more than 20 timestamps |
| RateLimit.SaturatedKeyRefused | api/training-plan.js:25-29 | once a key holds 20 in-window requests, further calls inside the window are refused |
| RateLimit.RateLimiter.constructor | api/training-plan.js:13 | a cold start has an empty map |
| RateLimit.RateLimiter.CheckRateLimit | api/training-plan.js:17-34 | the verdict and the new map are those of `RateLimitStep` |
| PlanApi.GateStatus | api/training-plan.js:50-97 | preflight is 200, a wrong method 405, the rate limit 429, a thrown TypeError 500, and 400 exactly for a missing key, a bad key format or missing parameters |
| PlanApi.ClientIp | api/training-plan.js:61 | the client address is never empty, and the forwarded-for header wins when present |
| PlanApi.GateBody | api/training-plan.js:71-97 | each outcome iff its condition: a nullish body or a truthy non-string key throws; no key gives "API key required"; a string key without "AIza" gives the format error; a good key with a falsy parameter gives "missing parameters"; otherwise it proceeds with the body's or the server's key |
| PlanApi.HasAllParameters | api/training-plan.js:92 | definition only, no contract of its own: all eight plan parameters are truthy |
| PlanApi.Gate | api/training-plan.js:50-97 | OPTIONS is answered first, then non-POST is refused, then the rate limit (which only POST consumes), then the body checks |
| PlanApi.ProceedPassedEveryCheck | api/training-plan.js:50-97 | a request that proceeds was a POST under the rate limit with a key starting "AIza" and all parameters |
| PlanApi.HandleRequest | api/training-plan.js:50-97 | the handler's verdict and the limiter's new map are those of `Gate` |
| PlanApi.PlanStatus | api/training-plan.js:254-287 | only an accepted plan gets status 200, everything else 500 |
| PlanApi.ExercisesVerdict | api/training-plan.js:273-281 | an exercise list fails only with a thrown error or "invalid exercise structure" |
| PlanApi.DayVerdict | api/training-plan.js:263-281 | a failing day never accepts the plan |
| PlanApi.DaysVerdict | api/training-plan.js:263-282 | a failing day list never accepts the plan |
| PlanApi.ValidatePlan | api/training-plan.js:253-282 | the nested validation loops return the verdict of `PlanCheck` |
| PlanApi.ExerciseVerdict | api/training-plan.js:273-281 | definition only, no contract of its own: a nullish exercise throws, one without truthy name, sets or reps is rejected; `ExerciseVerdictNone` states it |
| PlanApi.ExerciseVerdictNone | api/training-plan.js:274 | an exercise passes iff it has truthy name, sets and reps |
| PlanApi.ExercisesVerdictNone | api/training-plan.js:273-281 | an exercise list passes iff every exercise does |
| PlanApi.DayVerdictNone | api/training-plan.js:264-281 | a day passes iff it has truthy day and focus and an array of passing exercises |
| PlanApi.DaysVerdictNone | api/training-plan.js:263-282 | a day list passes iff every day does |
| PlanApi.PlanCheckAccepts | api/training-plan.js:253-282 | a plan is accepted iff `days` is a non-empty array of well-formed days with well-formed exercises |
| PlanApi.PlanCheck | api/training-plan.js:253-282 | definition only, no contract of its own: the plan check in the source's order; `PlanCheckAccepts` and `PlanStatus` state it |

## Left out

- Rendering, the DOM, canvas drawing, toasts, the replay player and `updateReplayLog` are left out: they display state and decide nothing.
- Persistence (`persist`, the localStorage load and migration, import and export) is left out: it is storage plumbing.
- The camera and MediaPipe plumbing is reduced to parameters. The outcome of `startCamera` is a `CameraOutcome`, and detector results arrive as a `DetectorOutput`.
- The network calls to the model endpoints are left out. So are the JSON extraction from the model's reply, the CORS header selection, the food-scan handlers and the health endpoints.
- `calculateAngle`'s trigonometry (`atan2`, `Math.PI`) is floating point. Angles enter the rep counters as arguments, and only the fold above 180 degrees is modelled.
- Numbers are reals and integers. NaN, infinities and floating-point rounding are not modelled, so `x || 0` on a numeric field is taken to be x.
- Strings are sequences of Unicode scalar values, while JavaScript uses UTF-16 code units. Lengths and the sort order of date keys differ only for characters outside the Basic Multilingual Plane.
- `toLowerCase` is modelled on ASCII letters only. That is enough for the placeholder test: no other character lower-cases to a letter of "undefined", "null" or "none".
- Property lookups inherited from `Object.prototype` (for example `multipliers['constructor']`) are not modelled. Objects have only their own fields.
- Archive date keys are given as strings. The conversion of a numeric or string timestamp into its `YYYY-MM-DD` key (`toISOString().slice(0, 10)`) is not modelled.
- The archive sums all entries of the seven days directly, instead of per day and then across days. In real arithmetic the totals are the same.
- The summary id `"week_" + Date.now()` is kept as the clock reading, and its label `"Woche n"` as the number n.
- The muscle-mastery part of `processGamification` is left out: the per-muscle XP, the secondary arms credit and rank-up toasts. The rank table itself is modelled as `GetRankForMuscle`.
- Gamification.LevelUp: the threshold is taken to be at least 1. With a stored threshold of 0, the source's loop would never end.
- The tempo label is a constant, since nothing in the engine changes `lastTempo`.
- Frame records are values. The same frame object shared between the replay buffer and the set buffer is not observable in the source, because neither buffer's frames are mutated.
- Detector callbacks are serialised one per event. `InFlightResult` covers a callback for a frame sent before a pause. Arbitrary reordering of several pending callbacks is not modelled.
- EscapeHtml.EscapeHTML: takes a string. The source first coerces its argument with `String(str)`, so an undefined or null field (for example a missing `message`, `reasoning` or `notes`) renders as the text "undefined" or "null". That coercion is not modelled, so the model says nothing about what such callers display.
- FoodName.SanitizeStable: stated only for names of at most 40 characters. A truncated name ends in "..." and is longer than 40, so sanitising it again truncates it once more.
- FallbackPlan.DayCount: the frequency is a number. A string frequency from a form field, which `Math.min` would coerce, is the caller's business.
- The `Tag n` fallback day name of `generateFallbackPlan` is unreachable, because a plan never has more than six days.
