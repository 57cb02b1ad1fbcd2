# Emotion-based music recommender: verified model of its original logic

The application is a single Streamlit script (`music.py`). A webcam callback builds a
feature vector from face and hand landmarks, a pretrained classifier scores it, and the
winning emotion label is saved to `emotion.npy`. On each script run the saved emotion is
loaded and a `run` flag in the session state is set from it. The webcam is shown only
while no emotion is stored. The "Recommend Me Songs" button opens a YouTube search for
language, emotion, "song" and singer, then clears the store.

This project models that logic in Dafny:

- `wrappers.dfy` (`Wrappers`): the `Option` type, used for absent hands and a missing store file.
- `features.dfy` (`Features`): the feature-vector builder. `FeatureSpec` is the layout as a
  function. `BuildFeatures` is the appending loops of `recv`, proved equal to it. Lemmas
  give the length, every face and hand entry, the slice positions, the zero pairs at the
  anchors (face landmark 1, hand landmark 8) and the 42 zeros of an absent hand.
- `classify.dfy` (`Classify`): `np.argmax` as the first maximal index, and the label
  lookup `label[argmax(scores)]`. The lookup includes the two ways it raises: an empty
  score vector, and an index past the vocabulary.
- `recommender.dfy` (`Recommender`): the class `App` holds four fields:
  - `store`: the file `emotion.npy`;
  - `emotion`: the script variable loaded from the file at startup;
  - `run`: the session flag;
  - `launched`: the URLs handed to the browser.

  Its methods model startup, the button, one webcam frame and one whole script run. Pure
  functions give the run flag, the webcam gate and the search URL. Lemmas show that the
  URL's `+`-separated query terms are exactly language, emotion, `song`, singer. The
  scenario methods replay sample sessions.

Coordinates are `real`. The classifier is a parameter `predict: seq<real> -> seq<real>`,
and the label vocabulary is a parameter too.

The button acts on `emotion`, the value loaded at the top of the run (line 64). It does
not re-read the file, so a label that `recv` saves during a run takes effect only on the
next run. The model keeps these two apart for this reason. Likewise, the `run` values
written by the button (lines 131 and 135) are replaced by lines 68-71 at the start of the
next run. `App.Rerun` states this: after every run, `run` depends only on the store as loaded at
the start of that run.

Notes on what the code does:

- An absent hand contributes a fixed 42 zeros. The zeros are not tied to the hand's
  landmark count.
- The query terms are joined with `+` inside the URL. Nothing is URL-encoded.
- The button is always rendered. Its state does not depend on the inputs.

## Model

| member | source | states |
|---|---|---|
| Features.Deltas | music.py:82-84 | the relative coordinates of a landmark set have exactly two entries per landmark |
| Features.HandSlice | music.py:86-100 | a hand contributes 2·(landmark count) entries when present and 42 when absent |
| Features.HandWidth | music.py:86-100 | a hand is 42 entries wide when absent and two entries per landmark when present |
| Features.FeatureSpec | music.py:81-100 | the vector's length is 2·|face| + the left hand's width + the right hand's width |
| Features.AppendDeltas | music.py:82-84 | the per-landmark loop appends exactly the deltas of every point to its anchor, in order |
| Features.AppendZeros | music.py:90-92 | the `range(42)` loop appends exactly n zeros |
| Features.AppendHand | music.py:86-92 | a present hand appends its deltas to landmark 8; an absent hand appends 42 zeros |
| Features.BuildFeatures | music.py:79-100 | the appended vector is exactly face deltas, then the left slice, then the right slice |
| Features.DeltasAt | music.py:82-84 | entry 2i is point i's x minus the anchor's x, and entry 2i+1 is the same for y |
| Features.FaceEntries | music.py:82-84 | in the vector, entry 2i is face[i].x − face[1].x and entry 2i+1 is face[i].y − face[1].y |
| Features.FaceAnchorZero | music.py:83-84 | the face anchor's pair (entries 2 and 3) is (0, 0) |
| Features.SlicePositions | music.py:81-100 | the face slice is first; the left slice starts at 2·|face|; the right slice starts right after the left one |
| Features.HandEntries | music.py:87-89 | pair i of a present hand's slice is landmark i minus landmark 8 |
| Features.HandAnchorZero | music.py:86-97 | a present hand's landmark-8 pair is (0, 0) at its place in the vector, for the left and the right hand |
| Features.AbsentHandZero | music.py:90-100 | an absent hand's 42 entries at its fixed place are all zero |
| Features.FaceOnlyLength | music.py:81-100 | 468 face points and no hands give 1020 features |
| Features.FullHandsKeepLength | music.py:86-100 | fully detected 21-point hands take the same width as absent ones, so the length stays fixed |
| Classify.ArgMax | music.py:103 | the index holds a maximal score, and every earlier score is strictly smaller (numpy's first-index tie-break) |
| Classify.ArgMaxIsTheFirstMax | music.py:103 | any first maximal index is the one ArgMax returns |
| Classify.PickLabel | music.py:103 | an empty score vector raises; otherwise the label is a member of the vocabulary, or the lookup raises for an index past it; scores no longer than the vocabulary always give a label |
| Classify.PickLabelAtFirstMax | music.py:103 | the picked label is the vocabulary entry at the first maximal score |
| Recommender.LoadEmotion | music.py:63-66 | a missing or unreadable file reads as ""; a saved file reads as its stored label (see also App.Startup) |
| Recommender.WebcamShown | music.py:120 | the webcam is shown only when language and singer are both non-empty, never when run is "false", and always when both are filled and run is "true" (see also GateAfterStartup) |
| Recommender.SearchUrl | music.py:133 | the URL begins with the YouTube search prefix and has room for exactly the three inputs plus the separators `+`, `+song+` (see SearchUrlTerms for the terms) |
| Recommender.RunFlag | music.py:68-71 | run is "true" exactly when the emotion is empty, and "false" exactly when it is not |
| Recommender.GateAfterStartup | music.py:120 | after startup, the webcam is shown exactly when language and singer are non-empty and no emotion is stored |
| Recommender.SearchUrlTerms | music.py:133 | the URL is the YouTube search prefix followed by a query whose `+`-separated terms are exactly language, emotion, "song", singer, when no input holds a `+` |
| Recommender.SearchUrlInjective | music.py:133 | under the same condition, equal URLs come only from equal language, emotion and singer |
| Recommender.App.constructor | music.py:60-61 | a new session starts with run "true", no URL opened, and the store file as found |
| Recommender.App.Startup | music.py:63-71 | emotion is the stored label, or "" when the file is missing or unreadable; run is "true" exactly when that emotion is empty |
| Recommender.App.Recommend | music.py:128-135 | with no emotion, it warns, sets run to "true", opens nothing and leaves the store alone; otherwise it opens exactly the search URL, empties the store and sets run to "false" |
| Recommender.App.Recv | music.py:79-105 | with no face, no vector is built and the store is unchanged; with a face, the vector is the specified layout and the store receives the picked label, or stays unchanged when the lookup raises; a store holding a vocabulary label or nothing keeps that property |
| Recommender.App.Rerun | music.py:60-135 | one script run: afterwards run is the flag derived from the store as loaded at the start of the run, whether or not the button was pressed; the webcam is shown exactly when both inputs are filled and no emotion was stored; the button then acts as Recommend does |
| Recommender.HappyHindiScenario | music.py:132-135 | stored "happy", language "hindi", singer "arijit": the button opens `...search_query=hindi+happy+song+arijit` and the store then reads empty |
| Recommender.NoEmotionScenario | music.py:128-131 | nothing stored, language "english", singer "adele": the webcam is shown; the button warns, opens nothing and the store stays empty |
| Recommender.CaptureScenario | music.py:79-105 | a 468-point face and no hands, scored highest for "happy": 1020 features are built, and "happy" is drawn and saved |
| Recommender.RecommendCycleScenario | music.py:120-135 | with "happy" stored the webcam is hidden; the button opens the search; the following run shows the webcam again |

## Left out

- Page configuration, CSS, headers, text inputs and button rendering (lines 11-50, 115-126): user interface only.
- Loading the Keras model, `model.predict` and `labels.npy` (lines 53-54, 103): the classifier and the vocabulary are parameters.
- MediaPipe holistic detection, the image flip and the colour conversion (lines 55-58, 76-78): the landmark sets are inputs, with `Option` for each hand.
- The classifier `predict` is a total function. A classifier that fails has the same effect as `predict` returning `[]`: the lookup yields `NoScores` and the store is unchanged.
- Landmarks are never empty in the model. The face needs at least its anchor (index 1), and a present hand needs landmark 8; these are requirements of `BuildFeatures` and `Recv`. The detector always reports 468 face points and 21 hand points. With fewer points the index reads raise `IndexError`, except for an empty set, which is indexed nowhere. An empty face set would give a vector without face deltas, and an empty present hand would add 0 entries instead of 42; that vector would then go to a classifier with a fixed input shape.
- Drawing the label and the landmarks, and converting frames (lines 104, 107-112): rendering only. `Recv` returns the label it would draw.
- File I/O with `np.save`/`np.load` (lines 64, 105, 134): the file is the field `store`. `None` stands for a missing or unreadable file.
- `webbrowser.open` (line 133): it becomes an append to `launched`. A failing browser launch is not modelled.
- The webcam callback thread racing against script reruns: concurrency is not modelled. `Recv` and `Rerun` are atomic steps.
- Floating-point behaviour of the coordinate deltas and of the scores: the model uses reals, and there are no NaN scores.
- Recommender.SearchUrlTerms: the query terms are recovered only when no input holds a `+`. The code does no escaping, so an input containing `+` yields extra terms.
