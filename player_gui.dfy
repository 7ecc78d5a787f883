/**
 * The navigation state of the mood player: the queue of file names being
 * played (`filtered_songs`) and the position in it (`current_index[0]`),
 * with the operations behind the player's buttons. Windows, dialogs, audio
 * playback and album art are not modelled; an operation reports what it would
 * load and play, or the exception or dialog that ends it instead.
 */
module PlayerGui {
  import opened Base
  import opened PyStr
  import opened MoodDetector

  /**
   * A whole multiple of `n`. It has no counterpart in the player: it only
   * gives the existential in `PyMod`'s contract a term to trigger on.
   */
  function Times(q: int, n: int): int
  {
    q * n
  }

  /** Python's `a % n` for a positive divisor: the remainder in [0, n) that differs from `a` by a multiple of `n`. */
  function PyMod(a: int, n: int): (r: int)
    requires n > 0
    ensures 0 <= r < n
    ensures exists q :: a == Times(q, n) + r
  {
    assert a == Times(a / n, n) + a % n;
    a % n
  }

  /** `next_song`'s index: one further, from the last track back to the first. */
  function NextIndex(i: int, n: int): (j: int)
    requires n > 0
    ensures 0 <= j < n
    ensures 0 <= i < n ==> j == if i == n - 1 then 0 else i + 1
  {
    PyMod(i + 1, n)
  }

  /** `prev_song`'s index: one back, from the first track round to the last. */
  function PrevIndex(i: int, n: int): (j: int)
    requires n > 0
    ensures 0 <= j < n
    ensures 0 <= i < n ==> j == if i == 0 then n - 1 else i - 1
  {
    PyMod(i - 1, n)
  }

  /** "Previous" undoes "next" and "next" undoes "previous". */
  lemma PrevUndoesNext(i: int, n: int)
    requires 0 <= i < n
    ensures PrevIndex(NextIndex(i, n), n) == i
    ensures NextIndex(PrevIndex(i, n), n) == i
  {
  }

  /** The index after pressing "next" `k` times, starting at `i`. */
  function Advance(i: int, n: int, k: nat): (j: int)
    requires n > 0
    decreases k
  {
    if k == 0 then i else Advance(NextIndex(i, n), n, k - 1)
  }

  /** Up to `n` presses of "next" move `k` places forward, wrapping past the end once. */
  lemma {:induction false} AdvanceIsRotation(i: int, n: int, k: nat)
    requires 0 <= i < n && k <= n
    ensures Advance(i, n, k) == if i + k < n then i + k else i + k - n
    decreases k
  {
    if k > 0 {
      AdvanceIsRotation(NextIndex(i, n), n, k - 1);
    }
  }

  /**
   * "Next" cycles through the whole queue: every track is reached within
   * fewer than `n` presses, and `n` presses come back to the start.
   */
  lemma NextVisitsEveryTrack(i: int, n: int, j: int)
    requires 0 <= i < n && 0 <= j < n
    ensures Advance(i, n, if i <= j then j - i else j - i + n) == j
    ensures Advance(i, n, n) == i
  {
    AdvanceIsRotation(i, n, if i <= j then j - i else j - i + n);
    AdvanceIsRotation(i, n, n);
  }

  /**
   * `[s for s in mood_tags if mood_tags[s] == mood]`: the names carrying the
   * mood, in the dictionary's order.
   */
  function SongsWithMood(names: seq<string>, moods: map<string, string>, mood: string): (r: seq<string>)
    ensures IsSubsequence(r, names)
    ensures forall s :: s in r <==> s in names && s in moods && moods[s] == mood
    decreases |names|
  {
    if names == [] then []
    else
      var rest := SongsWithMood(names[1..], moods, mood);
      assert forall s :: s in names <==> s == names[0] || s in names[1..];
      if names[0] in moods && moods[names[0]] == mood then [names[0]] + rest else rest
  }

  /** What the player's queue is: every tagged name, or the names carrying the searched mood. */
  function QueueFor(tags: MoodTags, filter: Option<string>): seq<string>
  {
    match filter
    case None => tags.names
    case Some(mood) => SongsWithMood(tags.names, tags.moods, mood)
  }

  /** Every queue the player can hold lists tagged names, in tag order, each at most once. */
  lemma QueueIsOrderedSelection(tags: MoodTags, filter: Option<string>)
    requires tags.Valid()
    ensures IsSubsequence(QueueFor(tags, filter), tags.names)
    ensures Distinct(QueueFor(tags, filter))
  {
    SubsequenceReflexive(tags.names);
    SubsequenceDistinct(QueueFor(tags, filter), tags.names);
  }

  /** Typing a mood exactly as the detector writes it searches for that very label. */
  lemma LabelIsSearchable(m: Mood)
    ensures Normalize(m.Label()) == m.Label()
  {
    match m
    case Sad => NormalizeNormal("sad");
    case Happy => NormalizeNormal("happy");
    case Vibe => NormalizeNormal("vibe");
    case Motivation => NormalizeNormal("motivation");
  }

  /** The exceptions a button press can end in once the queue is empty. */
  datatype PyError = ZeroDivisionError | ValueError | IndexError

  /** How a button press ends. */
  datatype Outcome =
    | Playing(song: string)      // `load_song` loads and plays this file
    | Raised(error: PyError)     // the callback raised before changing anything
    | EmptyMoodError             // the "Type a mood to search!" error dialog
    | NoSongsInfo(mood: string)  // the "No songs found for mood" information dialog

  /** The state `launch_player` keeps between button presses. */
  class Player {
    const moodTags: MoodTags
    var filteredSongs: seq<string>
    var currentIndex: int
    /** The mood the queue was last filtered by, if any. */
    ghost var filter: Option<string>

    ghost predicate Valid()
      reads this
    {
      && moodTags.Valid()
      && filteredSongs == QueueFor(moodTags, filter)
      && (filter.Some? ==> filteredSongs != [])
      && if filteredSongs == [] then currentIndex == 0 else 0 <= currentIndex < |filteredSongs|
    }

    /** The start of `launch_player`: every tagged name in dictionary order, at index 0. */
    constructor (tags: MoodTags)
      requires tags.Valid()
      ensures Valid()
      ensures moodTags == tags && filteredSongs == tags.names && currentIndex == 0
    {
      moodTags := tags;
      filteredSongs := tags.names;
      currentIndex := 0;
      filter := None;
    }

    /**
     * `load_song(index)`: the track `filtered_songs[index]` is loaded and
     * played. Python indexing accepts -n <= index < n, a negative index
     * counting from the end; any other index raises IndexError.
     */
    method LoadSong(index: int) returns (o: Outcome)
      ensures -|filteredSongs| <= index < |filteredSongs| ==>
                o == Playing(filteredSongs[if index < 0 then index + |filteredSongs| else index])
      ensures !(-|filteredSongs| <= index < |filteredSongs|) ==> o == Raised(IndexError)
    {
      if -|filteredSongs| <= index < 0 {
        o := Playing(filteredSongs[index + |filteredSongs|]);
      } else if 0 <= index < |filteredSongs| {
        o := Playing(filteredSongs[index]);
      } else {
        o := Raised(IndexError);
      }
    }

    /** The play button: `lambda: load_song(current_index[0])`. */
    method PlaySong() returns (o: Outcome)
      requires Valid()
      ensures filteredSongs == [] ==> o == Raised(IndexError)
      ensures filteredSongs != [] ==> o == Playing(filteredSongs[currentIndex])
    {
      o := LoadSong(currentIndex);
    }

    /** `next_song`: `(i + 1) % len(filtered_songs)`, which divides by zero on an empty queue. */
    method NextSong() returns (o: Outcome)
      requires Valid()
      modifies this`currentIndex
      ensures Valid() && filteredSongs == old(filteredSongs)
      ensures old(filteredSongs) == [] ==> currentIndex == old(currentIndex) && o == Raised(ZeroDivisionError)
      ensures old(filteredSongs) != [] ==>
                currentIndex == NextIndex(old(currentIndex), |filteredSongs|) &&
                o == Playing(filteredSongs[currentIndex])
    {
      if filteredSongs == [] {
        return Raised(ZeroDivisionError);
      }
      currentIndex := NextIndex(currentIndex, |filteredSongs|);
      o := LoadSong(currentIndex);
    }

    /** `prev_song`: `(i - 1) % len(filtered_songs)`, which divides by zero on an empty queue. */
    method PrevSong() returns (o: Outcome)
      requires Valid()
      modifies this`currentIndex
      ensures Valid() && filteredSongs == old(filteredSongs)
      ensures old(filteredSongs) == [] ==> currentIndex == old(currentIndex) && o == Raised(ZeroDivisionError)
      ensures old(filteredSongs) != [] ==>
                currentIndex == PrevIndex(old(currentIndex), |filteredSongs|) &&
                o == Playing(filteredSongs[currentIndex])
    {
      if filteredSongs == [] {
        return Raised(ZeroDivisionError);
      }
      currentIndex := PrevIndex(currentIndex, |filteredSongs|);
      o := LoadSong(currentIndex);
    }

    /**
     * `shuffle_song`: `random.randint(0, len(filtered_songs) - 1)`, some index
     * of the queue; on an empty queue the range is empty and randint raises.
     */
    method ShuffleSong() returns (o: Outcome)
      requires Valid()
      modifies this`currentIndex
      ensures Valid() && filteredSongs == old(filteredSongs)
      ensures old(filteredSongs) == [] ==> currentIndex == old(currentIndex) && o == Raised(ValueError)
      ensures old(filteredSongs) != [] ==>
                0 <= currentIndex < |filteredSongs| && o == Playing(filteredSongs[currentIndex])
    {
      if filteredSongs == [] {
        return Raised(ValueError);
      }
      var k :| 0 <= k < |filteredSongs|;
      currentIndex := k;
      o := LoadSong(currentIndex);
    }

    /**
     * `filter_by_mood` with `text` in the mood box: an empty mood or one that
     * no track carries only opens a dialog; otherwise the queue becomes the
     * tracks carrying that mood and playback starts at its first track.
     */
    method FilterByMood(text: string) returns (o: Outcome)
      requires Valid()
      modifies this`filteredSongs, this`currentIndex, this`filter
      ensures Valid()
      ensures var mood := Normalize(text);
              var found := SongsWithMood(moodTags.names, moodTags.moods, mood);
              if mood == [] then
                o == EmptyMoodError && filteredSongs == old(filteredSongs) && currentIndex == old(currentIndex)
              else if found == [] then
                o == NoSongsInfo(mood) && filteredSongs == old(filteredSongs) && currentIndex == old(currentIndex)
              else
                o == Playing(found[0]) && filteredSongs == found && currentIndex == 0
    {
      var mood := Normalize(text);
      if mood == [] {
        return EmptyMoodError;
      }
      var newList := SongsWithMood(moodTags.names, moodTags.moods, mood);
      if newList == [] {
        return NoSongsInfo(mood);
      }
      filteredSongs := newList;
      filter := Some(mood);
      currentIndex := 0;
      o := LoadSong(currentIndex);
    }
  }
}
