/**
 * The script-level state of music.py: the persisted emotion file, the `run` flag in
 * the session state, the webcam gate and the "Recommend Me Songs" action, together
 * with the store write at the end of `EmotionProcessor.recv`.
 */
module Recommender {
  import opened Wrappers
  import opened Features
  import opened Classify

  const SearchPrefix: string := "https://www.youtube.com/results?search_query="

  /** What `np.load("emotion.npy")[0]` gives: the saved label, or "" when the file is missing or unreadable. */
  function LoadEmotion(file: Option<string>): (emotion: string)
    ensures file.None? ==> emotion == ""
    ensures file.Some? ==> emotion == file.value
  {
    match file
    case None => ""
    case Some(saved) => saved
  }

  /** The `run` flag the script sets from the loaded emotion. */
  function RunFlag(emotion: string): (run: string)
    ensures run == "true" <==> emotion == ""
    ensures run == "false" <==> emotion != ""
  {
    if emotion == "" then "true" else "false"
  }

  /** Whether the webcam streamer is rendered. */
  function WebcamShown(lang: string, singer: string, run: string): (shown: bool)
    ensures shown ==> lang != "" && singer != ""
    ensures run == "false" ==> !shown
    ensures lang != "" && singer != "" && run == "true" ==> shown
  {
    lang != "" && singer != "" && run != "false"
  }

  /** The search URL launched by the button; the terms are joined with '+' and not encoded. */
  function SearchUrl(lang: string, emotion: string, singer: string): (url: string)
    ensures |url| == |SearchPrefix| + |lang| + |emotion| + |singer| + 7
    ensures url[..|SearchPrefix|] == SearchPrefix
  {
    SearchPrefix + lang + "+" + emotion + "+song+" + singer
  }

  /** Splits a query at every '+'; a query without '+' is a single term. */
  function SplitTerms(s: string): (terms: seq<string>)
    ensures |terms| >= 1
    decreases |s|
  {
    if |s| == 0 then [""]
    else
      var rest := SplitTerms(s[1..]);
      if s[0] == '+' then [""] + rest else [[s[0]] + rest[0]] + rest[1..]
  }

  lemma {:induction false} SplitSingle(a: string)
    requires '+' !in a
    ensures SplitTerms(a) == [a]
    decreases |a|
  {
    if |a| > 0 {
      SplitSingle(a[1..]);
      assert [a[0]] + a[1..] == a;
    }
  }

  lemma {:induction false} SplitJoin(a: string, b: string)
    requires '+' !in a
    ensures SplitTerms(a + "+" + b) == [a] + SplitTerms(b)
    decreases |a|
  {
    if |a| == 0 {
      assert a + "+" + b == "+" + b;
      assert ("+" + b)[1..] == b;
    } else {
      assert (a + "+" + b)[1..] == a[1..] + "+" + b;
      SplitJoin(a[1..], b);
      assert [a[0]] + a[1..] == a;
    }
  }

  /**
   * The URL is the search prefix followed by a query whose '+'-separated terms are
   * exactly language, emotion, "song", singer, when no input itself holds a '+'.
   */
  lemma SearchUrlTerms(lang: string, emotion: string, singer: string)
    requires '+' !in lang && '+' !in emotion && '+' !in singer
    ensures |SearchUrl(lang, emotion, singer)| > |SearchPrefix|
    ensures SearchUrl(lang, emotion, singer)[..|SearchPrefix|] == SearchPrefix
    ensures SplitTerms(SearchUrl(lang, emotion, singer)[|SearchPrefix|..]) == [lang, emotion, "song", singer]
  {
    var query := lang + "+" + emotion + "+song+" + singer;
    assert SearchUrl(lang, emotion, singer) == SearchPrefix + query;
    assert query == lang + "+" + (emotion + "+" + ("song" + "+" + singer));
    SplitJoin(lang, emotion + "+" + ("song" + "+" + singer));
    SplitJoin(emotion, "song" + "+" + singer);
    SplitJoin("song", singer);
    SplitSingle(singer);
  }

  /** Different emotions (or languages, or singers) give different URLs. */
  lemma SearchUrlInjective(lang: string, emotion: string, singer: string,
                           lang': string, emotion': string, singer': string)
    requires '+' !in lang && '+' !in emotion && '+' !in singer
    requires '+' !in lang' && '+' !in emotion' && '+' !in singer'
    requires SearchUrl(lang, emotion, singer) == SearchUrl(lang', emotion', singer')
    ensures lang == lang' && emotion == emotion' && singer == singer'
  {
    SearchUrlTerms(lang, emotion, singer);
    SearchUrlTerms(lang', emotion', singer');
  }

  /** After the script's startup lines, the webcam is offered exactly when both inputs are filled and no emotion is stored. */
  lemma GateAfterStartup(lang: string, singer: string, file: Option<string>)
    ensures WebcamShown(lang, singer, RunFlag(LoadEmotion(file))) <==>
      lang != "" && singer != "" && LoadEmotion(file) == ""
  {
  }

  /** The store holds a label of the vocabulary, or nothing yet. */
  predicate LabelOrEmpty(file: Option<string>, labels: seq<string>)
  {
    LoadEmotion(file) == "" || LoadEmotion(file) in labels
  }

  /** What pressing the button did: warned, or launched a URL. */
  datatype Action = Warned | Opened(url: string)

  class App {
    /** emotion.npy: None when the file is missing or unreadable. */
    var store: Option<string>
    /** The script's `emotion`, loaded from the store at the top of each run. */
    var emotion: string
    /** st.session_state["run"]. */
    var run: string
    /** Every URL handed to the browser, oldest first. */
    var launched: seq<string>

    /** A fresh browser session over an existing store file: "run" is not yet in the session state and is set to "true". */
    constructor (file: Option<string>)
      ensures store == file && emotion == "" && run == "true" && launched == []
    {
      store := file;
      emotion := "";
      run := "true";
      launched := [];
    }

    /** The top of every script run: load the stored emotion and derive the run flag from it. */
    method Startup()
      modifies this`emotion, this`run
      ensures emotion == LoadEmotion(store)
      ensures store.None? ==> emotion == ""
      ensures run == "true" <==> emotion == ""
      ensures run == RunFlag(emotion)
    {
      emotion := LoadEmotion(store);
      run := RunFlag(emotion);
    }

    /** The "Recommend Me Songs" button, acting on the emotion loaded at startup. */
    method Recommend(lang: string, singer: string) returns (action: Action)
      modifies this`store, this`run, this`launched
      ensures emotion == "" ==>
        action == Warned && run == "true" && store == old(store) && launched == old(launched)
      ensures emotion != "" ==>
        action == Opened(SearchUrl(lang, emotion, singer)) &&
        launched == old(launched) + [action.url] &&
        store == Some("") && run == "false"
      ensures LoadEmotion(store) == "" || store == old(store)
    {
      if emotion == "" {
        action := Warned;
        run := "true";
      } else {
        var url := SearchUrl(lang, emotion, singer);
        launched := launched + [url];
        action := Opened(url);
        store := Some("");
        run := "false";
      }
    }

    /**
     * One frame through `recv`: with a face, build the features, classify them with
     * `predict` and save the label; without a face, or when the lookup raises, the
     * store is untouched. Returns the vector built and the label drawn on the frame.
     */
    method Recv(face: Option<seq<Point>>, left: Option<seq<Point>>, right: Option<seq<Point>>,
                predict: seq<real> -> seq<real>, labels: seq<string>)
      returns (features: Option<seq<real>>, drawn: Option<string>)
      requires face.Some? ==> WellFormed(face.value, left, right)
      modifies this`store
      ensures face.None? ==> features == None && drawn == None && store == old(store)
      ensures face.Some? ==> features == Some(FeatureSpec(face.value, left, right))
      ensures face.Some? ==>
        var p := PickLabel(predict(FeatureSpec(face.value, left, right)), labels);
        (p.Predicted? ==> store == Some(p.emotion) && drawn == Some(p.emotion)) &&
        (!p.Predicted? ==> store == old(store) && drawn == None)
      ensures LabelOrEmpty(old(store), labels) ==> LabelOrEmpty(store, labels)
    {
      features, drawn := None, None;
      if face.Some? {
        var lst := BuildFeatures(face.value, left, right);
        features := Some(lst);
        var p := PickLabel(predict(lst), labels);
        if p.Predicted? {
          drawn := Some(p.emotion);
          store := Some(p.emotion);
        }
      }
    }

    /**
     * A whole script run: startup, the webcam gate, then the button if it was pressed.
     * Returns whether the webcam was shown and what the button did.
     */
    method Rerun(lang: string, singer: string, pressed: bool) returns (webcam: bool, action: Option<Action>)
      modifies this`emotion, this`run, this`store, this`launched
      ensures emotion == LoadEmotion(old(store))
      ensures run == RunFlag(LoadEmotion(old(store)))
      ensures webcam <==> lang != "" && singer != "" && emotion == ""
      ensures !pressed ==>
        action == None && store == old(store) && launched == old(launched) && run == RunFlag(emotion)
      ensures pressed && emotion == "" ==>
        action == Some(Warned) && store == old(store) && launched == old(launched) && run == "true"
      ensures pressed && emotion != "" ==>
        action == Some(Opened(SearchUrl(lang, emotion, singer))) &&
        launched == old(launched) + [SearchUrl(lang, emotion, singer)] &&
        store == Some("") && run == "false"
    {
      Startup();
      webcam := WebcamShown(lang, singer, run);
      action := None;
      if pressed {
        var a := Recommend(lang, singer);
        action := Some(a);
      }
    }
  }

  /**
   * Stored emotion "happy", language "hindi", singer "arijit": pressing the button opens
   * the query hindi+happy+song+arijit and empties the store.
   */
  method HappyHindiScenario() returns (action: Option<Action>, after: Option<string>)
    ensures action == Some(Opened("https://www.youtube.com/results?search_query=hindi+happy+song+arijit"))
    ensures after == Some("") && LoadEmotion(after) == ""
  {
    var app := new App(Some("happy"));
    var webcam;
    webcam, action := app.Rerun("hindi", "arijit", true);
    after := app.store;
    assert SearchUrl("hindi", "happy", "arijit") == SearchPrefix + "hindi+happy+song+arijit";
    assert SearchPrefix + "hindi+happy+song+arijit" == "https://www.youtube.com/results?search_query=hindi+happy+song+arijit";
  }

  /**
   * No emotion stored, language "english", singer "adele": the webcam is offered, and
   * pressing the button warns, leaves the store empty and opens nothing.
   */
  method NoEmotionScenario() returns (webcam: bool, action: Option<Action>, after: Option<string>, urls: seq<string>)
    ensures webcam
    ensures action == Some(Warned)
    ensures after == None && LoadEmotion(after) == ""
    ensures urls == []
  {
    var app := new App(None);
    webcam, action := app.Rerun("english", "adele", true);
    after, urls := app.store, app.launched;
  }

  /**
   * A frame with a 468-point face and no hands, scored highest for "happy": the
   * classifier sees 1020 features and "happy" is saved and drawn.
   */
  method CaptureScenario() returns (width: nat, drawn: Option<string>, captured: Option<string>)
    ensures width == 1020
    ensures drawn == Some("happy") && captured == Some("happy")
  {
    var app := new App(None);
    var face := seq(468, i => Point(i as real, 0.0));
    var labels := ["sad", "happy"];
    var predict := (v: seq<real>) => [0.25, 0.75];
    PickLabelAtFirstMax([0.25, 0.75], labels, 1);
    var features;
    features, drawn := app.Recv(Some(face), None, None, predict, labels);
    width := |features.value|;
    captured := app.store;
  }

  /**
   * Runs around a captured emotion: with "happy" stored the webcam is hidden, the
   * button opens the search and clears the store, and the next run offers the webcam again.
   */
  method RecommendCycleScenario() returns (during: bool, action: Option<Action>, again: bool)
    ensures !during && again
    ensures action == Some(Opened("https://www.youtube.com/results?search_query=english+happy+song+adele"))
  {
    var app := new App(Some("happy"));
    var a1, a2;
    during, a1 := app.Rerun("english", "adele", false);
    again, action := app.Rerun("english", "adele", true);
    again, a2 := app.Rerun("english", "adele", false);
    assert SearchUrl("english", "happy", "adele") == SearchPrefix + "english+happy+song+adele";
    assert SearchPrefix + "english+happy+song+adele" == "https://www.youtube.com/results?search_query=english+happy+song+adele";
  }
}
