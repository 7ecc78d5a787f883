/**
 * The mood rule and the folder-tagging loop. `ClassifyMood` maps a rounded
 * BPM and a key to one of four labels; `ProcessFolder` walks a directory
 * listing, keeps the `.mp3` names, runs extraction and classification on each
 * and records the label, skipping (and counting) the files whose extraction
 * raises.
 */
module MoodDetector {
  import opened Base
  import opened PyStr
  import opened AudioUtils

  /** The closed vocabulary of the mood rule; `Label` is the string stored in the tags. */
  datatype Mood = Sad | Happy | Vibe | Motivation {
    function Label(): (s: string)
      ensures s in {"sad", "happy", "vibe", "motivation"}
    {
      match this
      case Sad => "sad"
      case Happy => "happy"
      case Vibe => "vibe"
      case Motivation => "motivation"
    }
  }

  /** Different moods are stored as different strings, and none of them is "unknown". */
  lemma LabelInjective(m: Mood, n: Mood)
    ensures m.Label() == n.Label() <==> m == n
    ensures m.Label() != "unknown"
  {
  }

  /**
   * `classify_mood(bpm, key)`. Each label's condition is stated on its own:
   * the "vibe" band 90..110 is disjoint from the "sad" (below 80) and "happy"
   * (above 120) bands, so the order of the branches never decides a result.
   */
  function ClassifyMood(bpm: int, key: Key): (m: Mood)
    ensures m == Sad <==> bpm < 80 && key == Minor
    ensures m == Happy <==> bpm > 120 && key == Major
    ensures m == Vibe <==> 90 <= bpm <= 110
    ensures m == Motivation <==> !(bpm < 80 && key == Minor) && !(bpm > 120 && key == Major) && !(90 <= bpm <= 110)
  {
    if bpm < 80 && key == Minor then Sad
    else if bpm > 120 && key == Major then Happy
    else if 90 <= bpm <= 110 then Vibe
    else Motivation
  }

  /** The inputs that fall through to "motivation", listed band by band. */
  lemma MotivationCases(bpm: int, key: Key)
    ensures ClassifyMood(bpm, key) == Motivation <==>
      || (bpm < 80 && key == Major)
      || 80 <= bpm <= 89
      || 111 <= bpm <= 120
      || (bpm > 120 && key == Minor)
  {
  }

  /** `filename.endswith(".mp3")`, case-sensitive: "song.MP3" is not tagged. */
  predicate IsMp3(name: string): (b: bool)
    ensures b <==> |name| >= 4 && name[|name| - 4] == '.' && name[|name| - 3] == 'm' &&
                   name[|name| - 2] == 'p' && name[|name| - 1] == '3'
  {
    EndsWith(name, ".mp3")
  }

  /** The label recorded for a file whose extraction gave `extracted`. */
  function MoodLabel(extracted: (int, Key)): string
  {
    ClassifyMood(extracted.0, extracted.1).Label()
  }

  /**
   * A Python dictionary from file name to mood label, keeping its insertion
   * order: `names` are the keys in that order, `moods` the entries.
   */
  datatype MoodTags = MoodTags(names: seq<string>, moods: map<string, string>) {
    ghost predicate Valid()
    {
      Distinct(names) && (forall n :: n in names <==> n in moods)
    }

    /** `tags[name] = mood`: a new key goes at the end, an existing one keeps its place. */
    function Set(name: string, mood: string): (t: MoodTags)
      requires Valid()
      ensures t.Valid()
      ensures t.moods == moods[name := mood]
      ensures t.names == if name in moods then names else names + [name]
    {
      if name in moods then MoodTags(names, moods[name := mood])
      else MoodTags(names + [name], moods[name := mood])
    }
  }

  /** A dictionary has as many entries as its key order has names: `len(tags) == len(tags.keys())`. */
  lemma TagsCount(t: MoodTags)
    requires t.Valid()
    ensures |t.moods| == |t.names|
  {
    assert t.moods.Keys == set n | n in t.names;
    DistinctCardinality(t.names);
  }

  /** The `.mp3` names of a listing, in listing order. */
  function Mp3Files(listing: seq<string>): seq<string>
  {
    if listing == [] then []
    else
      var last := listing[|listing| - 1];
      Mp3Files(listing[..|listing| - 1]) + if IsMp3(last) then [last] else []
  }

  /** The `.mp3` names whose extraction succeeds, in listing order. */
  function Tagged(listing: seq<string>, analyze: string -> Option<Analysis>): seq<string>
  {
    if listing == [] then []
    else
      var last := listing[|listing| - 1];
      Tagged(listing[..|listing| - 1], analyze)
        + if IsMp3(last) && ExtractBpmKey(analyze, last).Some? then [last] else []
  }

  /** The `.mp3` names whose extraction raises, in listing order. */
  function Failed(listing: seq<string>, analyze: string -> Option<Analysis>): seq<string>
  {
    if listing == [] then []
    else
      var last := listing[|listing| - 1];
      Failed(listing[..|listing| - 1], analyze)
        + if IsMp3(last) && ExtractBpmKey(analyze, last).None? then [last] else []
  }

  /** Every `.mp3` file is either tagged or failed. */
  lemma {:induction false} TaggedPlusFailed(listing: seq<string>, analyze: string -> Option<Analysis>)
    ensures |Tagged(listing, analyze)| + |Failed(listing, analyze)| == |Mp3Files(listing)|
    decreases |listing|
  {
    if listing != [] {
      TaggedPlusFailed(listing[..|listing| - 1], analyze);
    }
  }

  /** The tagged names are exactly the listed `.mp3` names whose extraction succeeds. */
  lemma {:induction false} TaggedMembers(listing: seq<string>, analyze: string -> Option<Analysis>, n: string)
    ensures n in Tagged(listing, analyze) <==> n in listing && IsMp3(n) && ExtractBpmKey(analyze, n).Some?
    decreases |listing|
  {
    if listing != [] {
      var init := listing[..|listing| - 1];
      TaggedMembers(init, analyze, n);
      assert listing == init + [listing[|listing| - 1]];
    }
  }

  /** How the listing-order functions grow when the loop reaches `listing[i]`. */
  lemma ListingStep(listing: seq<string>, i: nat, analyze: string -> Option<Analysis>)
    requires i < |listing|
    ensures Tagged(listing[..i + 1], analyze) == Tagged(listing[..i], analyze) +
              (if IsMp3(listing[i]) && ExtractBpmKey(analyze, listing[i]).Some? then [listing[i]] else [])
    ensures Failed(listing[..i + 1], analyze) == Failed(listing[..i], analyze) +
              (if IsMp3(listing[i]) && ExtractBpmKey(analyze, listing[i]).None? then [listing[i]] else [])
    ensures forall n :: n in listing[..i + 1] <==> n in listing[..i] || n == listing[i]
  {
    assert listing[..i + 1] == listing[..i] + [listing[i]];
    assert listing[..i + 1][..i] == listing[..i];
  }

  /**
   * `process_folder(folder_path)`. `listing` is what `os.listdir` returns
   * (names without repetition) and `analyze` the audio library applied to the
   * file of that name in the folder. The result holds exactly the `.mp3` names
   * whose extraction succeeded, in listing order, each mapped to the label of
   * its own extraction; `failures` counts the `.mp3` names that were skipped.
   */
  method ProcessFolder(listing: seq<string>, analyze: string -> Option<Analysis>)
    returns (tags: MoodTags, failures: nat)
    requires Distinct(listing)
    ensures tags.Valid()
    ensures tags.names == Tagged(listing, analyze)
    ensures forall n :: n in tags.moods <==> n in listing && IsMp3(n) && ExtractBpmKey(analyze, n).Some?
    ensures forall n :: n in tags.moods ==>
              ExtractBpmKey(analyze, n).Some? && tags.moods[n] == MoodLabel(ExtractBpmKey(analyze, n).value)
    ensures failures == |Failed(listing, analyze)|
    ensures |tags.names| + failures == |Mp3Files(listing)|
    ensures |tags.moods| + failures == |Mp3Files(listing)|
  {
    tags := MoodTags([], map[]);
    failures := 0;
    var i := 0;
    while i < |listing|
      invariant 0 <= i <= |listing|
      invariant tags.Valid()
      invariant tags.names == Tagged(listing[..i], analyze)
      invariant forall n :: n in tags.moods <==> n in listing[..i] && IsMp3(n) && ExtractBpmKey(analyze, n).Some?
      invariant forall n :: n in tags.moods ==>
                  ExtractBpmKey(analyze, n).Some? && tags.moods[n] == MoodLabel(ExtractBpmKey(analyze, n).value)
      invariant failures == |Failed(listing[..i], analyze)|
    {
      var filename := listing[i];
      ListingStep(listing, i, analyze);
      if IsMp3(filename) {
        match ExtractBpmKey(analyze, filename) {
          case Some(extracted) =>
            assert filename !in listing[..i];
            tags := tags.Set(filename, MoodLabel(extracted));
          case None =>
            failures := failures + 1;
        }
      }
      i := i + 1;
    }
    assert listing[..i] == listing;
    TaggedPlusFailed(listing, analyze);
    TagsCount(tags);
  }
}
