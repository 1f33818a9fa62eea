# heartwave in Dafny

heartwave estimates a person's heart rate from webcam video. Blood flow
changes the green intensity of facial skin a little with every beat. The
program works in stages:

- the **face tracker** finds faces with an OpenCV cascade detector and
  follows them from frame to frame with one MedianFlow tracker per face;
- the **scene analyzer** matches the faces of each frame to the persons
  already known (by centroid containment), creates persons for new faces
  and drops persons whose face is gone;
- each **person** keeps rolling buffers of green-channel samples over the
  forehead and nose bands of its face. It corrects the samples for jumps of
  the face region, band-passes them, takes the power spectrum, refines its
  peak with a parabola fit, and records the peak as beats per minute. It
  also keeps a running average;
- the processing stages run as **RunQueue** or **Runner** objects. A
  consumer feeds them input, a worker thread reads it, and results come back
  on an output queue that the consumer iterates over.

The model has one module per source file, plus two shared modules:

- `Common`: rectangles, the configuration, Python's `int()` and slicing, and
  list filtering;
- `PersonSignal`: `heartwave/person.py`;
- `SceneAnalysis`: `heartwave/sceneanalyzer.py`;
- `FaceTracking`: `heartwave/facetracker.py`;
- `Stages`: the life cycle that `RunQueue` and `Runner` share;
- `StageQueue`: `heartwave/runqueue.py`;
- `StageRunner`: `heartwave/runner.py`.

Every object the source updates in place is a class:

- `Person`, `SceneAnalyzer`, `Tracker` and `FaceTracker`;
- `RunQueue`, `Runner` and the `OutQueue` a runner reports its results on.

Each class has a `State()` value. Each of its methods is proved to produce
the state that a pure function of the old state describes (`Analyzed`,
`MatchAll`, `OnSourceState`, `Stopped`, …). The properties of the program
are proved as lemmas about those functions.

Where the code and its design description differ, the model follows the
code:

- `RunQueue.stop` puts the Stop marker on its output queue and then
  `clear()` removes it again. So after a stop the output queue is empty,
  and the marker that `stop()` itself put there never reaches a consumer
  of a `RunQueue` (`Stages.Stopped`). The consumer still sees a marker
  that a worker sends with `output(Stop)`, as the frame grabber does when
  its capture ends; that marker is what ends an `async for` over the stage
  (`Stages.StopSeenOnlyAfterOutput`, `Stages.AsyncEndsAfterStopOutput`).
  `Runner.stop` instead leaves its marker on the queue it abandons
  (`StageRunner.Runner.Stop`).
- A tracker's eviction time is `lastTrackTime`. Both tracking and detection
  set it, so the description's rule that trackers untouched by either are
  evicted holds.

## Model

| member | source | states |
|---|---|---|
| Common.Centroid | heartwave/sceneanalyzer.py:14-16 | the centroid is equidistant from the left and right edges and from the top and bottom edges |
| Common.Trunc | heartwave/person.py:87 | Python's `int()` of a float truncates toward zero: the result is within 1 of r on r's side of 0 |
| Common.PyIndex | heartwave/person.py:88-89 | a slice bound is resolved as Python does: taken as is in [0, n], counted from the end when negative, clamped to [0, n] |
| Common.PySlice | heartwave/person.py:88-89 | a slice `[i:j]` selects the half-open range from bound i to bound j, and is empty when j resolves before i |
| Common.MeanWithin | heartwave/person.py:80 | the mean (`np.average`) of values in [lo, hi] lies in [lo, hi] |
| Common.SumWithin | heartwave/person.py:80 | the sum of n values in [lo, hi] lies in [n*lo, n*hi] |
| Common.Kept | heartwave/sceneanalyzer.py:25 | the positions of the set flags: count, increasing order, each flagged position present |
| Common.SurvivorsExactly | heartwave/sceneanalyzer.py:25 | a list comprehension with a filter keeps every flagged element and only flagged elements, in list order |
| Common.SurvivorsFrom | heartwave/sceneanalyzer.py:25 | survivors come from the list, and a list without repetitions has survivors without repetitions |
| Common.SurvivorsSnoc | heartwave/sceneanalyzer.py:25 | filtering a list extended by one element extends the filtered list by it exactly when it is flagged |
| PersonSignal.RowSum | heartwave/person.py:91 | a sum of w byte pixels lies in [0, 255*w] |
| PersonSignal.BlockSum | heartwave/person.py:91 | `ndarray.sum()` of a block of byte pixels lies in [0, 255 * its pixel count] |
| PersonSignal.SampleBands | heartwave/person.py:87-89 | the forehead band (top quarter), the nose band (third quarter) and the columns of the truncated face box always lie inside the image |
| PersonSignal.BandsMeanRange | heartwave/person.py:90-92 | the mean over the two bands is a byte value |
| PersonSignal.SignalRange | heartwave/person.py:83-92 | `_getSignal` lies in [0, 255] and is the neutral 128.0 when the bands hold no pixel |
| PersonSignal.SignalOfUniform | heartwave/person.py:83-92 | on an image of constant intensity c, the sample of any region holding a pixel is c: it is a mean, not a sum |
| PersonSignal.Fps | heartwave/person.py:94-105 | fewer than two samples give 0.0; otherwise fps is positive and fps times the time span equals the sample count minus one |
| PersonSignal.Filtered | heartwave/person.py:107-126 | fewer than 22 samples give the empty series |
| PersonSignal.Linspace | heartwave/person.py:136 | `numpy.linspace` has n points, the first is the start and the last is the stop |
| PersonSignal.Restrict | heartwave/person.py:137-139 | every kept bin is in the BPM band, there are as many frequencies as powers, and nothing is kept exactly when no bin is in the band |
| PersonSignal.Power | heartwave/person.py:140-141 | normalising and squaring keeps one power per bin |
| PersonSignal.PowerNormalised | heartwave/person.py:140-141 | the powers lie in [0, 1], and the strongest bin has power exactly 1 unless the spectrum is all zero |
| PersonSignal.Spectrum | heartwave/person.py:128-142 | when some bin is in the band the frequencies and powers are equally long, non-empty and in the band; otherwise the result is None, where NumPy raises |
| PersonSignal.ArgMax | heartwave/person.py:149 | `np.argmax`: an index of a largest value, with every earlier value strictly smaller (the first maximum) |
| PersonSignal.ArgMaxOf | heartwave/person.py:149 | the same for the first n values |
| PersonSignal.LeftEdge | heartwave/person.py:153-156 | the left walk stops at bin l ≥ 1; every bin from l to the peak is at or above the threshold, and the bin left of l is below it unless l is 1 |
| PersonSignal.RightEdge | heartwave/person.py:157-159 | the mirror image, stopping at bin len(y) - 2 at the latest |
| PersonSignal.WalkLeft | heartwave/person.py:153-156 | the `for ... break` loop computes LeftEdge |
| PersonSignal.WalkRight | heartwave/person.py:157-159 | the `for ... break` loop computes RightEdge |
| PersonSignal.BracketAroundPeak | heartwave/person.py:151-159 | the bracket of an interior peak lies in [1, len(y) - 2], contains the peak, and all of it is at or above half the peak |
| PersonSignal.PeakNearMaximum | heartwave/person.py:161-169 | an interior peak yields its bin's frequency or a vertex between the neighbouring bins' frequencies; a peak in the first or last bin yields that bin's frequency |
| PersonSignal.PeakInBand | heartwave/person.py:137-169 | the peak of a band-restricted spectrum is in the band, so the range test at line 74 never rejects it |
| PersonSignal.FindPeak | heartwave/person.py:144-170 | the method returns the refined peak PeakOf |
| PersonSignal.ClosedContainsEdges | heartwave/person.py:35-40 | `contains` includes all four edges, and points one pixel outside any edge are excluded |
| PersonSignal.AveragePeriod | heartwave/person.py:78 | `int(0.5 + period * fps)` is never negative |
| PersonSignal.FrameSamples | heartwave/person.py:56-60 | the frame is sampled over the face, and over the previous face exactly when one is pending |
| PersonSignal.SampledShape | heartwave/person.py:50-63 | after a sample is recorded the times still run from earlier to later, with one corrected value per time |
| PersonSignal.SampledBuffers | heartwave/person.py:50-63 | the times, raw and corrected buffers each grow by one until full, then drop their oldest element; the newest entry is the new time, sample or corrected sample |
| PersonSignal.SampledFields | heartwave/person.py:50-63 | the pending previous face is cleared and its sample multiplies the correction by prev / raw; full BPM histories drop their oldest value; face, count and spectrum stay |
| PersonSignal.SampledContinues | heartwave/person.py:59-63 | the corrected signal is continuous across a change of region: the new region's first corrected sample equals the old region's sample under the old correction |
| PersonSignal.CorrectionCancels | heartwave/person.py:61-63 | multiplying the correction by prev / raw corrects raw to prev under the old factor |
| PersonSignal.SampledValid | heartwave/person.py:50-63 | recording a sample keeps the person valid, with room for one more BPM value and one more average |
| PersonSignal.RecordEffect | heartwave/person.py:74-81 | an accepted BPM value is appended and counted; an average is appended exactly when the history is full and the count is a multiple of a period of at least one sample, and it is the mean of the last period's values; a period of 0 is the ZeroDivisionError outcome |
| PersonSignal.RecordValid | heartwave/person.py:74-81 | recording an in-range value keeps the BPM history and its averages in range and within capacity |
| PersonSignal.EstimateFrame | heartwave/person.py:65-81 | estimation leaves the sample buffers, the faces and the correction untouched |
| PersonSignal.EstimateEffect | heartwave/person.py:65-81 | too few samples leave the spectrum and history alone; an empty band keeps the old spectrum; otherwise the new spectrum is in the band and its peak is recorded; the range test never rejects |
| PersonSignal.EstimateRecords | heartwave/person.py:71-81 | a step that obtains a spectrum ends by recording its peak |
| PersonSignal.EstimateValid | heartwave/person.py:65-81 | estimation keeps the person valid |
| PersonSignal.AnalyzedWarmup | heartwave/person.py:46-49 | the first-frame time is set on the first call (0.0 counts as unset); before the startup time has passed nothing else changes, whatever the frame's content |
| PersonSignal.AnalyzedSteps | heartwave/person.py:50-81 | past the startup time, `analyze` records the frame's samples and then estimates from the recorded buffers |
| PersonSignal.AnalyzedValid | heartwave/person.py:42-81 | `analyze` keeps the person valid: bounded buffers of equal length, increasing times, BPM values and averages in the band |
| PersonSignal.Person.constructor | heartwave/person.py:13-26 | a new person has the face, no previous face, correction 1.0 and empty buffers |
| PersonSignal.Person.SetFace | heartwave/person.py:28-33 | the old face becomes the pending previous face |
| PersonSignal.Person.Contains | heartwave/person.py:35-40 | the face box contains the point, all edges included |
| PersonSignal.Person.Analyze | heartwave/person.py:42-81 | the new state and outcome are Analyzed of the old state, and the person stays valid |
| PersonSignal.Person.RecordSample | heartwave/person.py:50-63 | the fields become Sampled of the old state |
| PersonSignal.Person.Estimation | heartwave/person.py:65-81 | the fields and outcome become Estimate of the old state |
| PersonSignal.Person.Recording | heartwave/person.py:74-81 | the fields and outcome become Record of the old state |
| SceneAnalysis.Green | heartwave/sceneanalyzer.py:27 | `frame.image[:, :, 1]` has the frame's shape and each pixel's green value |
| SceneAnalysis.FirstContaining | heartwave/sceneanalyzer.py:17-18 | the first person in list order whose face contains the point, or None when no face does |
| SceneAnalysis.MatchFace | heartwave/sceneanalyzer.py:13-24 | one face of the matching loop keeps one present flag per person |
| SceneAnalysis.MatchAll | heartwave/sceneanalyzer.py:12-24 | the matching loop keeps one present flag per person and never loses a person |
| SceneAnalysis.PresentAtMostFaces | heartwave/sceneanalyzer.py:12-25 | each face makes at most one person present, and a frame without faces makes none present |
| SceneAnalysis.MatchAllEffect | heartwave/sceneanalyzer.py:13-24 | unmatched persons are the old ones, unchanged; present persons hold a face of the frame; old persons only change face and previous face; a matched old person has a previous face, its face before the frame or a face of the frame; appended persons are present and new, with no previous face or one from the frame |
| SceneAnalysis.MatchSingleFace | heartwave/sceneanalyzer.py:13-24 | with one face, the first person containing its centroid gets it by setFace, its previous face being its face before the frame, and nobody else changes; with no such person a new one is appended |
| SceneAnalysis.MatchAllShape | heartwave/sceneanalyzer.py:13-24 | unmatched persons are unchanged, present ones hold a face of the frame, old persons change only face and previous face, and appended persons are new |
| SceneAnalysis.MatchAllPrevFaces | heartwave/sceneanalyzer.py:19-20 | a matched old person's previous face is its face before the frame or a face of the frame; a new person has none or a face of the frame |
| SceneAnalysis.MatchAllValid | heartwave/sceneanalyzer.py:13-24 | matching keeps every person valid |
| SceneAnalysis.RunAllEach | heartwave/sceneanalyzer.py:28-29 | every person before the first exception is analyzed once, in list order; the one that raises is analyzed; the rest are untouched; only the persons reached need to be able to take the step |
| SceneAnalysis.RunFromStep | heartwave/sceneanalyzer.py:28-29 | at a person it reaches, the loop stops after that person when it raises and otherwise goes on from the next |
| SceneAnalysis.ReachedOfAll | heartwave/sceneanalyzer.py:28-29 | when every person can take the step, so can every person the loop reaches |
| SceneAnalysis.AnalysisStep | heartwave/sceneanalyzer.py:29 | the step of one person is `Person.analyze` for every person that may analyze the frame |
| SceneAnalysis.Analyzable | heartwave/person.py:42-63 | a person may analyze the frame exactly when it is valid and ready for the frame |
| SceneAnalysis.SceneReadyOfAll | heartwave/sceneanalyzer.py:11-30 | `analyze` needs readiness only of the persons its loop reaches, so every kept person being ready is enough |
| SceneAnalysis.AnalysisKeepsValid | heartwave/sceneanalyzer.py:28-29 | the analysis loop keeps every person valid |
| SceneAnalysis.MatchedValid | heartwave/sceneanalyzer.py:25 | the persons kept after matching are valid |
| SceneAnalysis.SceneSize | heartwave/sceneanalyzer.py:11-30 | at most one person per face survives a frame, and none survives a frame without faces |
| SceneAnalysis.SceneEach | heartwave/sceneanalyzer.py:11-30 | the kept persons analyze the frame in list order until one raises; the rest keep their matched state; all stay valid |
| SceneAnalysis.Marks | heartwave/sceneanalyzer.py:25 | flag i says whether person i is in `present` |
| SceneAnalysis.SceneAnalyzer.constructor | heartwave/sceneanalyzer.py:8-9 | a new analyzer has no persons |
| SceneAnalysis.SceneAnalyzer.Find | heartwave/sceneanalyzer.py:17-18 | the generator search returns FirstContaining of the persons' states |
| SceneAnalysis.SceneAnalyzer.SetFaceAt | heartwave/sceneanalyzer.py:20 | only the matched person changes, by WithFace |
| SceneAnalysis.SceneAnalyzer.AddPerson | heartwave/sceneanalyzer.py:22-23 | a new person is appended to the list |
| SceneAnalysis.SceneAnalyzer.MatchOne | heartwave/sceneanalyzer.py:14-24 | one face updates the persons and `present` as MatchFace says |
| SceneAnalysis.SceneAnalyzer.MatchStep | heartwave/sceneanalyzer.py:13-24 | iteration j takes MatchAll of the first j faces to MatchAll of the first j+1 |
| SceneAnalysis.SceneAnalyzer.Match | heartwave/sceneanalyzer.py:12-24 | the matching loop leaves the persons and `present` as MatchAll says |
| SceneAnalysis.SceneAnalyzer.Prune | heartwave/sceneanalyzer.py:25 | the list keeps exactly the present persons, in order |
| SceneAnalysis.SceneAnalyzer.AnalyzeAt | heartwave/sceneanalyzer.py:29 | only person i changes, by one analysis step |
| SceneAnalysis.SceneAnalyzer.AnalyzeStep | heartwave/sceneanalyzer.py:28-29 | one iteration of the loop: the reached person analyzes the frame, and the loop's result is either that stop or the loop from the next person |
| SceneAnalysis.SceneAnalyzer.AnalyzeEach | heartwave/sceneanalyzer.py:28-29 | the states and outcomes become RunAll of the old states |
| SceneAnalysis.SceneAnalyzer.Rematch | heartwave/sceneanalyzer.py:12-25 | the persons become the matched and pruned list |
| SceneAnalysis.SceneAnalyzer.Analyze | heartwave/sceneanalyzer.py:11-30 | the persons and outcomes become SceneAnalyzed of the old persons, and the returned list is the analyzer's list |
| FaceTracking.ScaleFace | heartwave/facetracker.py:56-66 | the whole face keeps the detection's width and horizontal centre, is 1.4 times as tall, and starts 0.35 of the height higher |
| FaceTracking.ScaleFaceLinear | heartwave/facetracker.py:56-66 | scaling the detected box by k scales the face by k |
| FaceTracking.Scaled | heartwave/facetracker.py:39-41 | one scaled face per detection, in detection order |
| FaceTracking.OverlapsSharedPoint | heartwave/facetracker.py:108-116 | boxes of non-negative size overlap exactly when some point lies in both closed boxes |
| FaceTracking.OverlapsSymmetric | heartwave/facetracker.py:108-116 | overlap is symmetric |
| FaceTracking.OverlapsTouching | heartwave/facetracker.py:108-116 | boxes that only share an edge overlap |
| FaceTracking.OverlapsSelf | heartwave/facetracker.py:108-116 | every box of non-negative size overlaps itself |
| FaceTracking.StrictlyInsideNoEdges | heartwave/facetracker.py:101-106 | `Tracker.contains` excludes every edge, and a point strictly inside is inside the closed box |
| FaceTracking.BlendProperties | heartwave/facetracker.py:83 | weight 1 replaces the region, weight 0 keeps it, blending a region with itself keeps it, and a weight in [0, 1] stays componentwise between the old and new regions |
| FaceTracking.RoiUpdated | heartwave/facetracker.py:77-89 | `updateROI` stamps both times with t and makes the tracker ok |
| FaceTracking.NewTracker | heartwave/facetracker.py:73-75 | a new tracker holds exactly the face, both times t, and ok |
| FaceTracking.Tracked | heartwave/facetracker.py:91-99 | a tracker that is not ok does not change; a failed track only clears ok; a successful one takes the region and stamps the tracking time; the detection time never changes |
| FaceTracking.TrackAll | heartwave/facetracker.py:28-29 | every tracker is updated, none is added or removed |
| FaceTracking.AliveFlags | heartwave/facetracker.py:30-32 | flag i says whether tracker i tracked within the timeout |
| FaceTracking.SurvivingExactly | heartwave/facetracker.py:30-32 | the surviving trackers are exactly the trackers alive at t1, in list order |
| FaceTracking.FirstOverlapping | heartwave/facetracker.py:44-45 | the first tracker in list order whose region overlaps the face, or None when none does |
| FaceTracking.DetectFace | heartwave/facetracker.py:42-51 | one detection adds at most one tracker |
| FaceTracking.DetectUpTo | heartwave/facetracker.py:42-51 | n detections add at most n trackers |
| FaceTracking.DetectFaceEffect | heartwave/facetracker.py:42-51 | the face goes to the first overlapping tracker, or to a new tracker at the end; that tracker is stamped with t and ok, and moved a fifth of the way to the face when it was ok, onto the face otherwise; the others are unchanged |
| FaceTracking.DetectKeepsAlive | heartwave/facetracker.py:42-51 | with a positive timeout, trackers alive before the detection loop are alive after it, and so are new ones |
| FaceTracking.Rois | heartwave/facetracker.py:53 | the emitted faces are the trackers' regions, in list order |
| FaceTracking.OnSourceDetection | heartwave/facetracker.py:25-54 | before the pause, only tracking and eviction happen and t0 stays; after it, t0 becomes t1 and each detection adds at most one tracker; the faces emitted are the trackers' regions |
| FaceTracking.OnSourceAlive | heartwave/facetracker.py:25-54 | with a positive timeout, every tracker left after a frame tracked or was detected within the timeout |
| FaceTracking.Tracker.constructor | heartwave/facetracker.py:73-75 | the fields become NewTracker |
| FaceTracking.Tracker.UpdateRoi | heartwave/facetracker.py:77-89 | the fields become RoiUpdated |
| FaceTracking.Tracker.Update | heartwave/facetracker.py:91-99 | the fields become Tracked |
| FaceTracking.Tracker.Contains | heartwave/facetracker.py:101-106 | the answer is StrictlyInside |
| FaceTracking.Tracker.OverlapsRoi | heartwave/facetracker.py:108-116 | the answer is Overlaps |
| FaceTracking.FaceTracker.constructor | heartwave/facetracker.py:16-23 | no trackers, and t0 is 0.0 |
| FaceTracking.FaceTracker.UpdateAt | heartwave/facetracker.py:29 | only tracker i changes, by Tracked |
| FaceTracking.FaceTracker.UpdateAll | heartwave/facetracker.py:28-29 | the trackers become TrackAll of their old states |
| FaceTracking.FaceTracker.Evict | heartwave/facetracker.py:30-32 | the list keeps exactly the surviving trackers, in order |
| FaceTracking.FaceTracker.FindOverlapping | heartwave/facetracker.py:44-45 | the generator search returns FirstOverlapping |
| FaceTracking.FaceTracker.UpdateRoiAt | heartwave/facetracker.py:46-48 | only tracker k changes, by RoiUpdated |
| FaceTracking.FaceTracker.AddTracker | heartwave/facetracker.py:50-51 | a new tracker is appended |
| FaceTracking.FaceTracker.DetectOne | heartwave/facetracker.py:43-51 | one detection changes the trackers as DetectFace says |
| FaceTracking.FaceTracker.DetectStep | heartwave/facetracker.py:42-51 | iteration j takes DetectUpTo j to DetectUpTo j+1 |
| FaceTracking.FaceTracker.Detect | heartwave/facetracker.py:42-51 | the detection loop changes the trackers as DetectUpTo says |
| FaceTracking.FaceTracker.Regions | heartwave/facetracker.py:53 | the returned faces are Rois of the states |
| FaceTracking.FaceTracker.Refresh | heartwave/facetracker.py:28-32 | the trackers become the survivors of TrackAll |
| FaceTracking.FaceTracker.OnSource | heartwave/facetracker.py:25-54 | the new state and the emitted faces are OnSourceState of the old state |
| Stages.Get | heartwave/runqueue.py:94-98 | `get()` returns the front and leaves the rest; it blocks on an empty queue (None) |
| Stages.GetManyInOrder | heartwave/runqueue.py:94-98 | the input queue is first in, first out: n gets return the first n items in order and leave the others |
| Stages.GetManyAll | heartwave/runqueue.py:94-98 | getting every queued item in turn returns the whole queue, in order, and empties it |
| Stages.PutGetCommute | heartwave/runqueue.py:79-98 | a get after a put on an empty queue returns what was put; on a non-empty queue put and get commute |
| Stages.Latest | heartwave/runqueue.py:100-110 | `getLatestInput` always empties the queue, and blocks (None) exactly when it was empty |
| Stages.DrainFromLast | heartwave/runqueue.py:104-109 | the drain loop ends with the last item of the queue |
| Stages.LatestIsLastOfAll | heartwave/runqueue.py:100-110 | `getLatestInput` returns the most recent item and leaves what getting every item in turn would leave |
| Stages.Initial | heartwave/runqueue.py:14-19 | a new stage is good: empty queues, not running, no worker |
| Stages.Started | heartwave/runqueue.py:56-64 | after start the stage runs and both queues are unchanged |
| Stages.Stopped | heartwave/runqueue.py:66-77 | after stop the stage does not run; a running stage gets the Stop marker at the end of its input, an empty output and no worker; a stage not running is unchanged |
| Stages.Fed | heartwave/runqueue.py:79-84 | feed puts the value at the back of the input queue and keeps the rest |
| Stages.WithOutput | heartwave/runqueue.py:88-92 | output puts its argument, a result or the Stop marker, at the back of the output queue and keeps the rest |
| Stages.NextTaken | heartwave/runqueue.py:46-50 | `__next__` raises StopIteration (None) exactly when the output queue is empty |
| Stages.StartIdempotent | heartwave/runqueue.py:56-64 | a second start does nothing; a start launches a worker only when the stage is not running |
| Stages.StopIdempotent | heartwave/runqueue.py:66-77 | a second stop does nothing |
| Stages.GoodPreserved | heartwave/runqueue.py:36-110 | every operation keeps a worker held exactly while running |
| Stages.RunGood | heartwave/runqueue.py:14-110 | every state a new stage reaches holds a worker exactly while running |
| Stages.FeedFifo | heartwave/runqueue.py:79-98 | after feeding values to an empty input queue, as many getInput calls return exactly those values, in order |
| Stages.LatestAfterFeeds | heartwave/runqueue.py:79-110 | after a burst of input, getLatestInput hands over only the most recent value and empties the queue |
| Stages.StopReachesWorker | heartwave/runqueue.py:66-77 | after a stop the worker gets the inputs still queued and then the Stop marker, which is also what getLatestInput returns |
| Stages.OutputNext | heartwave/runqueue.py:88-92 | output reaches the consumer first in, first out: `__next__` after `output` on an empty queue returns that item and restores the state, and the two commute otherwise |
| Stages.AsyncNextNeverStop | heartwave/runqueue.py:36-41 | `__anext__` never yields the Stop marker; when not running it ends the iteration without consuming anything; a running stage with output takes what `__next__` would, yielding it exactly when it is a result and ending exactly when it is the marker |
| Stages.NextAfterStop | heartwave/runqueue.py:46-50 | `__next__` returns the front of the output queue, whatever it is, and after a stop there is nothing to return unless the stage was not running |
| Stages.ApplyMarkers | heartwave/runqueue.py:66-92 | no operation but `output(Stop)` adds a Stop marker to the output queue, and that one adds one |
| Stages.MarkersFromOutput | heartwave/runqueue.py:14-110 | in every run from a new stage, the output queue holds no more markers than the run's `output(Stop)` calls |
| Stages.StopSeenOnlyAfterOutput | heartwave/runqueue.py:36-50 | `__next__` returns the marker, or a running stage's `__anext__` ends the iteration, only in a run where a worker called `output(Stop)` |
| Stages.AsyncEndsAfterStopOutput | heartwave/runqueue.py:36-41 | after a worker's `output(Stop)`, asynchronous iteration yields the waiting results in order, then ends, leaving the output queue empty |
| Stages.HasOutputIffLen | heartwave/runner.py:93-97 | `hasOutput()` holds exactly when `len()` is positive, exactly when `__next__` returns a result |
| StageQueue.RunQueue.constructor | heartwave/runqueue.py:14-19 | the fields become Initial |
| StageQueue.RunQueue.Start | heartwave/runqueue.py:56-64 | the fields become Started |
| StageQueue.RunQueue.Clear | heartwave/runqueue.py:52-54 | the output queue is emptied and nothing else changes |
| StageQueue.RunQueue.Stop | heartwave/runqueue.py:66-77 | the fields become Stopped |
| StageQueue.RunQueue.Feed | heartwave/runqueue.py:79-86 | the fields become Fed, and the stage itself is returned |
| StageQueue.RunQueue.Output | heartwave/runqueue.py:88-92 | the fields become WithOutput |
| StageQueue.RunQueue.GetInput | heartwave/runqueue.py:94-98 | the item and fields are InputTaken |
| StageQueue.RunQueue.GetLatestInput | heartwave/runqueue.py:100-110 | the draining loop gives the item and fields of LatestTaken |
| StageQueue.RunQueue.Next | heartwave/runqueue.py:46-50 | the item and fields are NextTaken |
| StageQueue.RunQueue.AsyncNext | heartwave/runqueue.py:36-41 | the step and fields are AsyncNextTaken |
| StageRunner.OutQueue.constructor | heartwave/runner.py:16 | a new output queue is empty |
| StageRunner.Runner.constructor | heartwave/runner.py:14-19 | the fields become Initial, with a new output queue |
| StageRunner.Runner.Start | heartwave/runner.py:55-63 | the fields become Started, and the output queue stays the same object |
| StageRunner.Runner.Stop | heartwave/runner.py:65-76 | the fields become Stopped; a running runner puts the Stop marker after the results of the queue it abandons, and gets a new queue |
| StageRunner.Runner.Feed | heartwave/runner.py:78-85 | the fields become Fed, and the runner itself is returned |
| StageRunner.Runner.Output | heartwave/runner.py:87-91 | the fields become WithOutput |
| StageRunner.Runner.HasOutput | heartwave/runner.py:93-97 | the answer is whether a result is waiting |
| StageRunner.Runner.Length | heartwave/runner.py:21-22 | the answer is the number of results waiting |
| StageRunner.Runner.GetInput | heartwave/runner.py:99-103 | the item and fields are InputTaken |
| StageRunner.Runner.GetLatestInput | heartwave/runner.py:105-115 | the draining loop gives the item and fields of LatestTaken |
| StageRunner.Runner.Next | heartwave/runner.py:49-53 | the item and fields are NextTaken |
| StageRunner.Runner.AsyncNext | heartwave/runner.py:36-41 | the step and fields are AsyncNextTaken |

## Left out

- OpenCV:
  - the cascade detector, colour conversion and histogram equalisation (heartwave/facetracker.py:18-21, 35-38) are replaced by the list of detected boxes, an input to `OnSource`;
  - the MedianFlow tracker (heartwave/facetracker.py:85-88, 96) is replaced by a function giving each tracker's `(ok, roi)` answer by list position;
  - the image argument `im` is dropped.
- SciPy and NumPy numerics are uninterpreted functions of the `Numerics` value:
  - the Butterworth design with `filtfilt` and `np.interp` onto a uniform time grid;
  - the Hann window with the zero-padded `rfft` magnitude;
  - `np.polyfit`.
  The model relies only on the band-pass returning one value per sample (`NumericsOk`). That also assumes `butter` never raises: with the shipped settings the `min(1, …)` clamp (heartwave/person.py:121-123) makes a band edge exactly 1 once the frame rate is 6 frames per second or less, which SciPy releases that demand 0 < Wn < 1 reject with `ValueError`; the model returns the oracle's series there. Floating point is modelled by exact reals.
- PersonSignal.Power: when every magnitude in the band is 0, NumPy produces NaN; the model stores 0.0. The peak is then the first band frequency, as `np.argmax` gives.
- PersonSignal.Person.Analyze requires two things the source does not check:
  - frame times strictly increase, since `_getFPS` divides by zero on equal times;
  - on a frame past the startup time, a region that replaces a pending previous face does not sample to 0, since line 61 divides by it. Frames in the startup time may have any content.
- SceneAnalysis.SceneAnalyzer.Analyze requires the same two things of each kept person its loop reaches, and of no other person.
- NumPy's `ValueError` on an empty band and the `ZeroDivisionError` of `_index % p` with p = 0 are `Outcome` values. They end the analysis loop of `SceneAnalyzer.analyze` at that person.
- Threads and asyncio:
  - `threading.Thread`, `join` and `call_soon_threadsafe` are not modelled; the stages are sequential state machines;
  - a blocking `get()` on an empty queue, or an `await` on an empty output queue, is modelled as returning None or Waiting with no change;
  - how the worker and the event loop interleave is not modelled;
  - `run()` is an empty hook in both classes.
- `__aenter__`, `__aexit__`, `__aiter__` and `__iter__` only call start, stop or return the object; `__await__` of Runner is a pending get on its output queue. None of them is modelled separately.
- `RunQueue.__len__` is the same as `Runner.__len__` (`Stages.Len`) and has no method of its own.
- numpy in-place `+=` on a tracker's region array aliases the array that was emitted in an earlier frame's face list. The model treats regions as values.
- Configuration: the `exec` of a user file (heartwave/conf.py) is not modelled; the constants are a `Config` parameter with the shipped defaults in `Common.Defaults`.
- The video capture loops (heartwave/framegrabber.py, heartwave/videostream.py) and the Qt interface (heartwave/app.py, heartwave/widgets.py, heartwave/plot.py, heartwave/util.py) are not part of this model.
