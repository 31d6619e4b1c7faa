/**
  Playback navigation of shuffleplay: the `paused` flag and the song index
  of the shared state record, the commands the listener thread dispatches
  on, and the driver loop that announces and plays `songs[song_idx]`.

  Signals to the player process and the rendezvous between the two threads
  are not modelled: each command the listener handles is one atomic step,
  taken while the current track plays.
*/
module Playback {

  /** The C `max` macro. */
  function Max(a: int, b: int): int
  {
    if a > b then a else b
  }

  /** The navigation part of the shared state record. */
  datatype Nav = Nav(paused: bool, songIdx: int)

  /** What the listener prints after handling one read. */
  datatype Notice =
    | SongPlaying
    | SongPaused
    | Skipping
    | Replaying
    | PlayingPrevious
    | BlankLine
    | InvalidCommand

  /**
    What happens while a track plays: one `read` of the listener returns
    `input`, the at most 32 bytes it got from the terminal (one `char` per
    byte, so that commands read as the character literals the C code tests),
    or the player process exits by itself.
  */
  datatype Event = Typed(input: string) | TrackFinished

  /**
    The character the listener dispatches on.  Its buffer is cleared before
    every read, so a read that returns nothing leaves a NUL there.
  */
  function Command(input: string): char
  {
    if |input| == 0 then '\0' else input[0]
  }

  /** The commands that kill the current player process. */
  predicate EndsSong(c: char)
  {
    c == 'n' || c == 'r' || c == 'b'
  }

  /**
    The effect of one command on the state: `p` toggles the pause flag, `n`
    ends the song, `r` and `b` step the index back by one or two (never
    below -1) and end the song; a song ended this way is no longer paused.
    Every other character changes nothing.
  */
  function Step(s: Nav, c: char): (r: Nav)
    ensures s.songIdx >= -1 ==> r.songIdx == s.songIdx || Max(-1, s.songIdx - 2) <= r.songIdx < s.songIdx
    ensures !EndsSong(c) ==> r.songIdx == s.songIdx
    ensures EndsSong(c) ==> !r.paused
    ensures c == 'p' ==> r.paused != s.paused
    ensures c != 'p' && !EndsSong(c) ==> r == s
  {
    match c
    case 'p' => s.(paused := !s.paused)
    case 'n' => s.(paused := false)
    case 'r' => Nav(false, Max(-1, s.songIdx - 1))
    case 'b' => Nav(false, Max(-1, s.songIdx - 2))
    case _ => s
  }

  /** The input the listener prints for command `c` in state `s`. */
  function NoticeFor(s: Nav, c: char): Notice
  {
    match c
    case 'p' => if s.paused then SongPlaying else SongPaused
    case 'n' => Skipping
    case 'r' => Replaying
    case 'b' => PlayingPrevious
    case '\n' => BlankLine
    case _ => InvalidCommand
  }

  /**
    The listener during one track: it handles the reads until one of them ends
    the song or the player exits by itself.  The result is the state when
    the track is over and the events still to come.  With no events left the
    track simply plays to its end.
  */
  function Listen(s: Nav, events: seq<Event>): (r: (Nav, seq<Event>))
    ensures events == [] ==> r == (s, [])
    ensures events != [] ==> |r.1| < |events|
    ensures s.songIdx >= -1 ==> r.0.songIdx == s.songIdx || Max(-1, s.songIdx - 2) <= r.0.songIdx < s.songIdx
    decreases |events|
  {
    if events == [] then (s, [])
    else
      match events[0]
      case TrackFinished => (s, events[1..])
      case Typed(input) =>
        var c := Command(input);
        if EndsSong(c) then (Step(s, c), events[1..])
        else Listen(Step(s, c), events[1..])
  }

  /**
    The indices the driver loop announces and plays, from state `s` on:
    while the index is below the number of songs it plays that song, lets
    the listener act, and then increments the index.
  */
  function Schedule(numSongs: nat, s: Nav, events: seq<Event>): seq<int>
    decreases |events|, numSongs - s.songIdx
  {
    if s.songIdx >= numSongs then []
    else
      var (t, rest) := Listen(s, events);
      [s.songIdx] + Schedule(numSongs, t.(songIdx := t.songIdx + 1), rest)
  }

  /** The indices `lo`, `lo + 1`, ..., `hi - 1`. */
  function Upto(lo: int, hi: int): (r: seq<int>)
    ensures |r| == Max(0, hi - lo)
    ensures forall i :: 0 <= i < |r| ==> r[i] == lo + i
    decreases hi - lo
  {
    if lo >= hi then [] else [lo] + Upto(lo + 1, hi)
  }

  /**
    Every index the driver uses is inside the song array: navigation never
    takes the index below -1 and the loop increments it before using it.
  */
  lemma {:induction false} ScheduleInBounds(numSongs: nat, s: Nav, events: seq<Event>)
    requires 0 <= s.songIdx
    ensures forall i :: 0 <= i < |Schedule(numSongs, s, events)| ==> 0 <= Schedule(numSongs, s, events)[i] < numSongs
    decreases |events|, numSongs - s.songIdx
  {
    if s.songIdx < numSongs {
      var (t, rest) := Listen(s, events);
      ScheduleInBounds(numSongs, t.(songIdx := t.songIdx + 1), rest);
    }
  }

  /** Without input every remaining song is played once, in list order, and the loop ends. */
  lemma {:induction false} ScheduleWithoutInput(numSongs: nat, s: Nav)
    ensures Schedule(numSongs, s, []) == Upto(s.songIdx, numSongs)
    decreases numSongs - s.songIdx
  {
    if s.songIdx < numSongs {
      ScheduleWithoutInput(numSongs, s.(songIdx := s.songIdx + 1));
    }
  }

  /** A track that finishes by itself is followed by the next index. */
  lemma NaturalEndAdvances(numSongs: nat, s: Nav, rest: seq<Event>)
    requires 0 <= s.songIdx < numSongs
    ensures Schedule(numSongs, s, [TrackFinished] + rest)
         == [s.songIdx] + Schedule(numSongs, s.(songIdx := s.songIdx + 1), rest)
  {
    assert ([TrackFinished] + rest)[1..] == rest;
  }

  /**
    `n` moves on to the next index; after the last song the loop ends.
    This and the two lemmas after it abstract from signals: they describe
    the program only when the player is not paused, since a stopped player
    may never act on the interrupt that ends it.
  */
  lemma SkipPlaysNext(numSongs: nat, s: Nav, input: string, rest: seq<Event>)
    requires 0 <= s.songIdx < numSongs && Command(input) == 'n'
    ensures Schedule(numSongs, s, [Typed(input)] + rest)
         == [s.songIdx] + Schedule(numSongs, Nav(false, s.songIdx + 1), rest)
  {
    assert ([Typed(input)] + rest)[1..] == rest;
  }

  /** `r` plays the same song again, the last song included. */
  lemma RestartReplays(numSongs: nat, s: Nav, input: string, rest: seq<Event>)
    requires 0 <= s.songIdx < numSongs && Command(input) == 'r'
    ensures Schedule(numSongs, s, [Typed(input)] + rest)
         == [s.songIdx] + Schedule(numSongs, Nav(false, s.songIdx), rest)
  {
    assert ([Typed(input)] + rest)[1..] == rest;
  }

  /** `b` plays the previous song; on the first song it plays that song again. */
  lemma BackPlaysPrevious(numSongs: nat, s: Nav, input: string, rest: seq<Event>)
    requires 0 <= s.songIdx < numSongs && Command(input) == 'b'
    ensures Schedule(numSongs, s, [Typed(input)] + rest)
         == [s.songIdx] + Schedule(numSongs, Nav(false, Max(0, s.songIdx - 1)), rest)
  {
    assert ([Typed(input)] + rest)[1..] == rest;
  }

  /**
    `p`, a newline, an empty read and any other character keep the current song
    playing: the listener goes on within the same track, the index is
    untouched, and only `p` changes the pause flag.
  */
  lemma OtherCommandsKeepTrack(s: Nav, input: string, rest: seq<Event>)
    requires !EndsSong(Command(input))
    ensures Listen(s, [Typed(input)] + rest) == Listen(Step(s, Command(input)), rest)
    ensures Step(s, Command(input)).songIdx == s.songIdx
    ensures Command(input) != 'p' ==> Step(s, Command(input)) == s
  {
    assert ([Typed(input)] + rest)[1..] == rest;
  }

  /** Pressing `p` twice restores the state. */
  lemma PauseTwiceRestores(s: Nav)
    ensures Step(Step(s, 'p'), 'p') == s
  {
  }

  /**
    The state record shared by the driver and the listener.  The C field
    `paused` is an `int` that only ever holds 0 or 1; here it is a `bool`.
  */
  class PlayerState {
    var paused: bool
    var songIdx: int

    function View(): Nav
      reads this
    {
      Nav(paused, songIdx)
    }

    /** `state_init`: playing, at the first song. */
    constructor ()
      ensures !paused && songIdx == 0
    {
      paused := false;
      songIdx := 0;
    }

    /** `state_play`: the player is resumed. */
    method Play()
      modifies this
      ensures !paused && songIdx == old(songIdx)
    {
      paused := false;
    }

    /** `state_pause`: the player is stopped. */
    method Pause()
      modifies this
      ensures paused && songIdx == old(songIdx)
    {
      paused := true;
    }

    /** `state_end_song`: the player is killed; the next song starts unpaused. */
    method EndSong()
      modifies this
      ensures !paused && songIdx == old(songIdx)
    {
      paused := false;
    }

    /** One pass of the listener loop: dispatch on the first byte that one read returned. */
    method HandleCommand(input: string) returns (notice: Notice)
      modifies this
      ensures View() == Step(old(View()), Command(input))
      ensures notice == NoticeFor(old(View()), Command(input))
    {
      var c := Command(input);
      if c == 'p' {
        if paused {
          Play();
          notice := SongPlaying;
        } else {
          Pause();
          notice := SongPaused;
        }
      } else if c == 'n' {
        notice := Skipping;
        EndSong();
      } else if c == 'r' {
        notice := Replaying;
        songIdx := Max(-1, songIdx - 1);
        EndSong();
      } else if c == 'b' {
        notice := PlayingPrevious;
        songIdx := Max(-1, songIdx - 2);
        EndSong();
      } else if c == '\n' {
        notice := BlankLine;
      } else {
        notice := InvalidCommand;
      }
    }

    /** The listener while one track plays; returns the events still to come. */
    method ListenDuringTrack(events: seq<Event>) returns (rest: seq<Event>)
      modifies this
      ensures (View(), rest) == Listen(old(View()), events)
    {
      rest := events;
      while rest != []
        invariant Listen(old(View()), events) == Listen(View(), rest)
        decreases |rest|
      {
        match rest[0]
        case TrackFinished =>
          rest := rest[1..];
          return;
        case Typed(input) =>
          var _ := HandleCommand(input);
          rest := rest[1..];
          if EndsSong(Command(input)) {
            return;
          }
      }
    }
  }

  /**
    The driver loop: from index 0, while the index is below the number of
    songs, announce and play `songs[songIdx]`, let the listener act during
    the track, and increment the index.  It returns the indices and the
    songs it played, in order; the index ends just past the last song.
  */
  method Drive<T>(st: PlayerState, songs: array<T>, events: seq<Event>) returns (order: seq<int>, played: seq<T>)
    modifies st
    ensures order == Schedule(songs.Length, Nav(old(st.paused), 0), events)
    ensures |played| == |order|
    ensures forall i :: 0 <= i < |order| ==> 0 <= order[i] < songs.Length && played[i] == songs[order[i]]
    ensures st.songIdx == songs.Length
  {
    order, played := [], [];
    st.songIdx := 0;
    ghost var start := st.View();
    var rest := events;
    while st.songIdx < songs.Length
      invariant 0 <= st.songIdx <= songs.Length
      invariant order + Schedule(songs.Length, st.View(), rest) == Schedule(songs.Length, start, events)
      invariant |played| == |order|
      invariant forall i :: 0 <= i < |order| ==> 0 <= order[i] < songs.Length && played[i] == songs[order[i]]
      decreases |rest|, songs.Length - st.songIdx
    {
      ghost var before, pending := st.View(), rest;
      played := played + [songs[st.songIdx]];
      order := order + [st.songIdx];
      rest := st.ListenDuringTrack(rest);
      st.songIdx := st.songIdx + 1;
      assert Schedule(songs.Length, before, pending) == [before.songIdx] + Schedule(songs.Length, st.View(), rest);
    }
  }
}
