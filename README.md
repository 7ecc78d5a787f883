# Mood tagging and mood-filtered playback, modelled in Dafny

The music player tags every `.mp3` file of a folder with one of four moods,
"sad", "happy", "vibe" or "motivation". The tag comes from the track's tempo
and a rough major/minor key estimate. The player can then restrict its queue to
one mood. This project models the three pieces of logic between the audio
library and the user interface, and proves what they promise:

- `AudioUtils` (`utils/audio_utils.py`): what the extractor does with the
  audio library's results. It averages each of the 12 chroma rows over time and
  takes the first pitch class of greatest mean (as `numpy.argmax` does). The key
  is "major" exactly when that pitch class is 0, 5 or 7. The tempo is rounded
  the way Python's `round` rounds: to the nearest integer, ties to even.
- `MoodDetector` (`utils/mood_detector.py`): the BPM/key rule `ClassifyMood`
  and the loop `ProcessFolder`. The loop walks a directory listing, keeps the
  names ending in `.mp3`, and extracts and classifies each one. A file whose
  extraction raises is skipped and counted. `MoodTags` models the Python
  dictionary the loop fills, including its insertion order, because the player
  uses that order.
- `PlayerGui` (`ui/player_gui.py`): the player's navigation state as a class
  `Player`. Its fields are the queue `filteredSongs` and the index
  `currentIndex`. Its methods are the buttons: play, next, previous, shuffle,
  and search by mood.
- `PyStr` models the Python string methods used: `endswith`, `strip`, `lower`.
  `Base` holds `Option`, `Distinct` and the subsequence relation.

The audio library is a parameter `analyze: string -> Option<Analysis>`. It
stands for `librosa.load`, `beat.beat_track` and `feature.chroma_stft` run on
the named file of the folder. `None` means one of them raised. `Some` holds
the tempo and a 12-row chroma matrix of reals with at least one frame per row.

The only classifier is the BPM/key rule `ClassifyMood`. A file whose
extraction fails is left out of the tags, not given a label of its own. The
rule sees the integer `round(tempo)`. The whole audio file is loaded.

## Model

| member | source | states |
|---|---|---|
| `AudioUtils.Key.Name` | utils/audio_utils.py:10-13 | the key string the extractor returns is always "major" or "minor" |
| `AudioUtils.ChromaMean` | utils/audio_utils.py:9 | one entry per pitch-class row (12); entry i times the row's frame count is the row's total, so it is the row's arithmetic mean |
| `AudioUtils.MeanBounds` | utils/audio_utils.py:9 | a row's mean lies between any lower and upper bound of its frames |
| `AudioUtils.ArgMax` | utils/audio_utils.py:10 | the result is an index of the vector, its entry is at least every entry, and every earlier entry is strictly smaller (ties go to the lowest index, as `numpy.argmax` does) |
| `AudioUtils.FirstMaxUnique` | utils/audio_utils.py:10 | only one index is a first maximum, so the argmax is determined by the vector |
| `AudioUtils.EstimateKey` | utils/audio_utils.py:10-13 | the key is Major if and only if the first maximum of the chroma means is pitch class 0, 5 or 7; every other first-maximum pitch class (1-4, 6, 8-11) gives Minor |
| `AudioUtils.RoundHalfEven` | utils/audio_utils.py:14 | the result is an integer within 1/2 of the tempo, and even when the tempo lies exactly halfway |
| `AudioUtils.RoundHalfEvenUnique` | utils/audio_utils.py:14 | no other integer is nearest with ties to even, so the rounding is determined |
| `AudioUtils.ExtractBpmKey` | utils/audio_utils.py:5-14 | the extractor raises exactly when the audio library does; otherwise it returns the rounded tempo (within 1/2 of it) and the estimated key |
| `MoodDetector.Mood.Label` | utils/mood_detector.py:5-13 | every label is one of "sad", "happy", "vibe", "motivation" |
| `MoodDetector.LabelInjective` | utils/mood_detector.py:5-13 | distinct moods have distinct labels, and no label is "unknown" |
| `MoodDetector.ClassifyMood` | utils/mood_detector.py:5-13 | "sad" iff BPM < 80 and minor; "happy" iff BPM > 120 and major; "vibe" iff 90 <= BPM <= 110 for either key; "motivation" iff none of these; each condition stands alone, so the branch order does not decide any result |
| `MoodDetector.MotivationCases` | utils/mood_detector.py:12-13 | "motivation" exactly for: BPM < 80 and major, 80-89, 111-120, BPM > 120 and minor |
| `MoodDetector.MoodTags.Set` | utils/mood_detector.py:23 | dictionary assignment keeps the keys distinct and equal to the entries; a new key is appended to the key order, an existing one keeps its place |
| `MoodDetector.IsMp3` | utils/mood_detector.py:18 | a name is an `.mp3` name iff its last four characters are '.', 'm', 'p', '3' (case-sensitive) |
| `MoodDetector.TagsCount` | utils/mood_detector.py:16-23 | the dictionary has one entry per name of its key order, so `len(mood_tags)` is the number of keys |
| `MoodDetector.TaggedPlusFailed` | utils/mood_detector.py:18-26 | each `.mp3` name is either tagged or failed, so tagged + failed = number of `.mp3` names |
| `MoodDetector.TaggedMembers` | utils/mood_detector.py:18-23 | a name is tagged iff it is listed, ends in ".mp3" and its extraction succeeds |
| `MoodDetector.ProcessFolder` | utils/mood_detector.py:15-27 | the keys are exactly the listed `.mp3` names whose extraction succeeded, in listing order; each maps to the label of its own extraction; failed files are absent; failures counts them; `len(mood_tags)` + failures = number of `.mp3` names |
| `PyStr.EndsWith` | utils/mood_detector.py:18 | true iff the suffix is no longer than the string and matches its last characters one by one |
| `PyStr.IsSpaceMatchesTable` | ui/player_gui.py:40 | the whitespace predicate `strip` uses holds of exactly the 29 code points of Python 3's `str.isspace` table |
| `PyStr.Strip` | ui/player_gui.py:40 | the result is the input without its leading and trailing whitespace, and has no whitespace at either end |
| `PyStr.StripEmptyIff` | ui/player_gui.py:40-42 | `strip` leaves the empty string if and only if every character of the input is whitespace |
| `PyStr.StripTrimmed` | ui/player_gui.py:40 | a string that neither starts nor ends with whitespace is left unchanged by `strip` |
| `PyStr.Lower` | ui/player_gui.py:40 | same length, each character lower-cased: no ASCII capital is left and other characters are unchanged |
| `PyStr.Normalize` | ui/player_gui.py:40-42 | the typed mood is empty after `strip().lower()` iff the text is all whitespace, and it holds no ASCII capital |
| `PyStr.NormalizeIdempotent` | ui/player_gui.py:40 | normalising an already normalised mood changes nothing |
| `PlayerGui.LabelIsSearchable` | ui/player_gui.py:40-44 | typing a label exactly as the detector writes it searches for that label |
| `PlayerGui.PyMod` | ui/player_gui.py:28 | Python's `%` with a positive divisor: in [0, n) and differing from the dividend by a multiple of n |
| `PlayerGui.NextIndex` | ui/player_gui.py:28 | the new index is in [0, n); from a valid index it is the next one, and the last wraps to 0 |
| `PlayerGui.PrevIndex` | ui/player_gui.py:32 | the new index is in [0, n); from a valid index it is the previous one, and 0 wraps to n - 1 |
| `PlayerGui.PrevUndoesNext` | ui/player_gui.py:28-32 | "previous" after "next" returns to the original index, and so does "next" after "previous" |
| `PlayerGui.AdvanceIsRotation` | ui/player_gui.py:28 | k <= n presses of "next" move k places forward, wrapping past the end at most once |
| `PlayerGui.NextVisitsEveryTrack` | ui/player_gui.py:28 | repeated "next" reaches every track of the queue, and n presses return to the start |
| `PlayerGui.SongsWithMood` | ui/player_gui.py:44 | the filtered list is a subsequence of the tag keys (dictionary order kept), and holds exactly the keys whose label equals the mood |
| `PlayerGui.QueueIsOrderedSelection` | ui/player_gui.py:17-49 | every queue the player can hold is a subsequence of the tag keys and holds no name twice |
| `PlayerGui.Player.constructor` | ui/player_gui.py:16-17 | the initial queue is all tag keys in dictionary order, and the index is 0 |
| `PlayerGui.Player.LoadSong` | ui/player_gui.py:19-20 | the track at the index plays, a negative index counting from the end as Python's list indexing does; an index outside [-n, n) raises IndexError |
| `PlayerGui.Player.PlaySong` | ui/player_gui.py:75 | the play button plays the track at the current index; on an empty queue the lookup raises IndexError |
| `PlayerGui.Player.NextSong` | ui/player_gui.py:27-29 | the index becomes `NextIndex` of the old one and that track plays; the queue is unchanged; an empty queue raises ZeroDivisionError and nothing changes |
| `PlayerGui.Player.PrevSong` | ui/player_gui.py:31-33 | the index becomes `PrevIndex` of the old one and that track plays; the queue is unchanged; an empty queue raises ZeroDivisionError and nothing changes |
| `PlayerGui.Player.ShuffleSong` | ui/player_gui.py:35-37 | the index becomes some index in [0, n - 1] and that track plays; the queue is unchanged; an empty queue makes `randint` raise ValueError and nothing changes |
| `PlayerGui.Player.FilterByMood` | ui/player_gui.py:39-51 | an all-whitespace entry shows the error dialog and changes nothing; a mood no track carries shows the information dialog and changes nothing; otherwise the queue becomes exactly the keys with that label, in dictionary order, the index becomes 0, and the first of them plays |

## Left out

- librosa: loading, beat tracking and the chroma transform are the abstract
  parameter `analyze`. The folder path is folded into it, so `os.path.join` is
  not modelled.
- Floating point: tempo and chroma values are Dafny reals. NaN, infinities and
  binary rounding of the mean are not modelled. Python's `round` is modelled on
  the exact value.
- A chroma matrix with no frames is excluded by the `Chroma` type. numpy would
  average it to NaN, but the chroma transform always yields at least one frame.
- The beat tracker's tempo is modelled as one number. Newer librosa versions
  return a one-element array, which `round` and the comparisons treat as that
  number.
- `ClassifyMood` cannot raise on an integer and a key, so in the model only
  extraction failures are caught by the loop's `except`.
- The `print` logging in `process_folder`: only the number of failures is kept.
- `MoodDetector.ProcessFolder`: `print` is assumed never to raise. If the
  "tagged" print raised (for instance a UnicodeEncodeError on a name stdout
  cannot encode), the file would stay tagged and also be counted as failed. If
  the "error" print raised, the loop would stop. The model promises neither.
- `os.listdir` itself: the listing is an input with no repeated names, in
  whatever order the operating system gives.
- `PyStr.Lower`: does not model case mapping outside ASCII, because `str.lower`
  uses the full Unicode tables. Letters A-Z are lowered. Every other character
  is unchanged in the model.
- The player's side effects: tkinter widgets, message boxes, `pygame.mixer`
  loading and playing, album art (`utils/album_art.py`) and image resizing.
  `load_song` always counts as playing the chosen file. If pygame fails there,
  the new index stands, and that case is not modelled.
- `PlayerGui.Player.ShuffleSong`: `random.randint` is modelled as an unspecified
  choice in range. There is no probability distribution.
- Tag persistence (`utils/tag_manager.py`, plain JSON reading and writing) and
  the program entry (`main.py`, a folder dialog and wiring). Tags loaded from
  JSON reach the player as any `MoodTags`, whose labels may be any strings.
- The essentia constant-Q regression test. It tests a vendored third-party
  library whose source is not part of this model.
