/**
  The body of shuffleplay's `main` once the working directory is the music
  directory: list the names, shuffle them, initialise the shared state and
  drive playback until the index runs past the last song.
*/
module ShufflePlay {
  import Shuffle
  import Listing
  import Playback

  /**
    `buf[..n]` is what `ls` wrote, `rolls` the values `rand()` returns and
    `events` what happens while the tracks play.  The result is the indices
    the driver plays and the start offset of every name it announces, in
    order: the name at each index of the shuffled table.  Every announced
    name is one of the listed names, and when nobody types anything every
    listed name is played exactly once.
  */
  method Run(buf: array<Listing.Byte>, n: nat, rolls: seq<Shuffle.Roll>, events: seq<Playback.Event>)
      returns (numSongs: nat, order: seq<int>, played: seq<nat>)
    requires n <= buf.Length
    requires Listing.Count(buf[..n], Listing.NEWLINE) >= 1
    requires |rolls| == 4 * Listing.Count(buf[..n], Listing.NEWLINE)
    modifies buf
    ensures numSongs == Listing.Count(old(buf[..n]), Listing.NEWLINE)
    ensures buf[..n] == Listing.Terminated(old(buf[..n]))
    ensures buf[n..] == old(buf[n..])
    ensures 1 <= numSongs <= Listing.Count(buf[..n], Listing.NUL)
    ensures order == Playback.Schedule(numSongs, Playback.Nav(false, 0), events)
    ensures |played| == |order|
    ensures forall i :: 0 <= i < |order| ==>
              0 <= order[i] < numSongs && played[i] == ShuffledTable(buf[..n], numSongs, rolls)[order[i]]
    ensures forall i :: 0 <= i < |played| ==> played[i] in Listing.OffsetTable(buf[..n], numSongs)
    ensures events == [] ==> multiset(played) == multiset(Listing.OffsetTable(buf[..n], numSongs))
  {
    var songs;
    songs, numSongs := Listing.GetList(buf, n);
    ghost var table := songs[..];
    Shuffle.Shuffle(songs, rolls);
    ghost var shuffled := songs[..];
    var st := new Playback.PlayerState();
    order, played := Playback.Drive(st, songs, events);
    assert songs[..] == shuffled;
    AnnouncedAreListed(played, order, shuffled, table, events);
  }

  /** The table of name offsets after the shuffle draws `rolls`. */
  function ShuffledTable(text: seq<Listing.Byte>, numSongs: nat, rolls: seq<Shuffle.Roll>): (r: seq<nat>)
    requires 1 <= numSongs <= Listing.Count(text, Listing.NUL) + 1
    ensures |r| == numSongs
  {
    Shuffle.Shuffled(Listing.OffsetTable(text, numSongs), rolls)
  }

  /**
    Songs announced by index from a shuffled table are names of the table,
    and without input each name is announced once.
  */
  lemma AnnouncedAreListed(played: seq<nat>, order: seq<int>, shuffled: seq<nat>, table: seq<nat>, events: seq<Playback.Event>)
    requires multiset(shuffled) == multiset(table)
    requires order == Playback.Schedule(|shuffled|, Playback.Nav(false, 0), events)
    requires |played| == |order|
    requires forall i :: 0 <= i < |order| ==> 0 <= order[i] < |shuffled| && played[i] == shuffled[order[i]]
    ensures forall i :: 0 <= i < |played| ==> played[i] in table
    ensures events == [] ==> multiset(played) == multiset(table)
  {
    forall i | 0 <= i < |played|
      ensures played[i] in table
    {
      assert played[i] in multiset(shuffled);
    }
    if events == [] {
      Playback.ScheduleWithoutInput(|shuffled|, Playback.Nav(false, 0));
      assert played == shuffled;
    }
  }
}
