/**
  The tail of shuffleplay's `getlist`: the `n` bytes that `ls` wrote into
  the buffer are split into names in place.  Every newline becomes a NUL
  terminator, the terminators are counted, and a table of start offsets,
  one per name, is built.  The C code keeps pointers into the buffer; here
  an entry of the table is the offset such a pointer has from the start
  of the buffer.
*/
module Listing {

  newtype Byte = b: int | 0 <= b < 256

  const NEWLINE: Byte := 10
  const NUL: Byte := 0

  /** Number of occurrences of `b` in `s`. */
  function Count(s: seq<Byte>, b: Byte): (c: nat)
    ensures c <= |s|
  {
    if s == [] then 0
    else Count(s[..|s| - 1], b) + (if s[|s| - 1] == b then 1 else 0)
  }

  /** The byte that the split loop leaves in place of `b`. */
  function Terminator(b: Byte): Byte
  {
    if b == NEWLINE then NUL else b
  }

  /** `s` after the split loop: every newline is a NUL, every other byte is kept. */
  function Terminated(s: seq<Byte>): (r: seq<Byte>)
    ensures |r| == |s|
    ensures forall i :: 0 <= i < |s| ==> r[i] == (if s[i] == NEWLINE then NUL else s[i])
  {
    if s == [] then []
    else Terminated(s[..|s| - 1]) + [Terminator(s[|s| - 1])]
  }

  /** The positions of the NUL bytes of `s`, in increasing order. */
  function Zeros(s: seq<Byte>): (z: seq<nat>)
    ensures |z| == Count(s, NUL)
  {
    if s == [] then []
    else if s[|s| - 1] == NUL then Zeros(s[..|s| - 1]) + [|s| - 1]
    else Zeros(s[..|s| - 1])
  }

  /**
    Where name `j` starts: the first name starts the buffer, and every
    later one starts one past the terminator of the name before it.
  */
  function NameStart(s: seq<Byte>, j: nat): nat
    requires j <= Count(s, NUL)
  {
    if j == 0 then 0 else Zeros(s)[j - 1] + 1
  }

  /** The offset table for `numSongs` names. */
  function OffsetTable(s: seq<Byte>, numSongs: nat): seq<nat>
    requires 1 <= numSongs <= Count(s, NUL) + 1
  {
    seq(numSongs, j requires 0 <= j < numSongs => NameStart(s, j))
  }

  /** Each newline of the input yields one NUL on top of the NULs already there. */
  lemma {:induction false} TerminatedCount(s: seq<Byte>)
    ensures Count(Terminated(s), NUL) == Count(s, NUL) + Count(s, NEWLINE)
  {
    if s != [] {
      var init := s[..|s| - 1];
      TerminatedCount(init);
      assert Terminated(s)[..|s| - 1] == Terminated(init);
    }
  }

  /** `Zeros` lists NUL positions only, each inside `s`, in strictly increasing order. */
  lemma {:induction false} ZerosSound(s: seq<Byte>)
    ensures forall m :: 0 <= m < |Zeros(s)| ==> Zeros(s)[m] < |s| && s[Zeros(s)[m]] == NUL
    ensures forall m, m' :: 0 <= m < m' < |Zeros(s)| ==> Zeros(s)[m] < Zeros(s)[m']
  {
    if s != [] {
      var init := s[..|s| - 1];
      ZerosSound(init);
    }
  }

  /** `Zeros` misses no NUL position of `s`. */
  lemma {:induction false} ZerosComplete(s: seq<Byte>)
    ensures forall p :: 0 <= p < |s| && s[p] == NUL ==> p in Zeros(s)
  {
    if s != [] {
      var init := s[..|s| - 1];
      ZerosComplete(init);
      forall p | 0 <= p < |s| && s[p] == NUL
        ensures p in Zeros(s)
      {
        if p < |s| - 1 {
          assert init[p] == s[p];
        }
      }
    }
  }

  /** The NUL positions of a prefix are the first NUL positions of the whole. */
  lemma {:induction false} ZerosPrefix(s: seq<Byte>, i: nat)
    requires i <= |s|
    ensures Zeros(s[..i]) <= Zeros(s)
    decreases |s|
  {
    if i < |s| {
      var init := s[..|s| - 1];
      assert init[..i] == s[..i];
      ZerosPrefix(init, i);
    } else {
      assert s[..i] == s;
    }
  }

  /** A NUL at `i` is the NUL numbered by how many NULs come before it. */
  lemma ZeroAt(s: seq<Byte>, i: nat)
    requires i < |s| && s[i] == NUL
    ensures Count(s[..i], NUL) < |Zeros(s)| && Zeros(s)[Count(s[..i], NUL)] == i
  {
    assert s[..i + 1][..i] == s[..i];
    ZerosPrefix(s, i + 1);
  }

  /**
    Name `j` runs from its offset up to the `j`-th terminator (counting
    from zero) with no NUL in between, so it ends at its own terminator
    inside the buffer.
  */
  lemma NameRunsToTerminator(s: seq<Byte>, j: nat)
    requires j < Count(s, NUL)
    ensures Zeros(s)[j] < |s| && s[Zeros(s)[j]] == NUL
    ensures NameStart(s, j) <= Zeros(s)[j]
    ensures forall p :: NameStart(s, j) <= p < Zeros(s)[j] ==> s[p] != NUL
  {
    var z := Zeros(s);
    ZerosSound(s);
    forall p | NameStart(s, j) <= p < z[j]
      ensures s[p] != NUL
    {
      BetweenNeighbours(z, j, p);
      ZerosComplete(s);
    }
  }

  /** In a strictly increasing sequence, nothing lies strictly between neighbours. */
  lemma BetweenNeighbours(z: seq<nat>, j: nat, p: nat)
    requires forall m, m' :: 0 <= m < m' < |z| ==> z[m] < z[m']
    requires j < |z| && (j == 0 || z[j - 1] < p) && p < z[j]
    ensures p !in z
  {
    forall m | 0 <= m < |z|
      ensures z[m] != p
    {
      if m < j - 1 {
        assert z[m] < z[j - 1];
      } else if m > j {
        assert z[j] < z[m];
      }
    }
  }

  /** The table starts at offset 0 and is strictly increasing. */
  lemma OffsetsIncrease(s: seq<Byte>, numSongs: nat)
    requires 1 <= numSongs <= Count(s, NUL) + 1
    ensures |OffsetTable(s, numSongs)| == numSongs && OffsetTable(s, numSongs)[0] == 0
    ensures forall j, j' :: 0 <= j < j' < numSongs ==> OffsetTable(s, numSongs)[j] < OffsetTable(s, numSongs)[j']
  {
    ZerosSound(s);
  }

  /** Without NUL bytes in the input, the terminators are exactly the former newlines. */
  lemma TerminatorsAreNewlines(s: seq<Byte>)
    requires Count(s, NUL) == 0
    ensures Count(Terminated(s), NUL) == Count(s, NEWLINE)
    ensures forall p :: 0 <= p < |s| ==> (Terminated(s)[p] == NUL <==> s[p] == NEWLINE)
  {
    TerminatedCount(s);
    forall p | 0 <= p < |s|
      ensures s[p] != NUL
    {
      if s[p] == NUL {
        ZerosComplete(s);
        assert false;
      }
    }
  }

  /**
    The split loop of `getlist`: every newline of `buf[..n]` becomes a NUL,
    and the newlines are counted.
  */
  method SplitLines(buf: array<Byte>, n: nat) returns (numSongs: nat)
    requires n <= buf.Length
    modifies buf
    ensures numSongs == Count(old(buf[..n]), NEWLINE)
    ensures buf[..n] == Terminated(old(buf[..n]))
    ensures buf[n..] == old(buf[n..])
  {
    ghost var input := buf[..n];
    numSongs := 0;
    var i := 0;
    while i < n
      invariant 0 <= i <= n
      invariant forall k :: 0 <= k < i ==> buf[k] == Terminator(input[k])
      invariant forall k :: i <= k < buf.Length ==> buf[k] == old(buf[k])
      invariant numSongs == Count(input[..i], NEWLINE)
    {
      assert input[..i + 1][..i] == input[..i];
      if buf[i] == NEWLINE {
        buf[i] := NUL;
        numSongs := numSongs + 1;
      }
      i := i + 1;
    }
    assert input[..n] == input;
    assert buf[..n] == Terminated(input);
    assert buf[n..] == old(buf[n..]);
  }

  /**
    The table loop of `getlist`: the first name starts the buffer; the
    bytes are scanned again and one past every NUL is recorded until the
    table holds `numSongs` entries.  The C code writes the first entry
    even when it allocated room for none, so one entry at least is required.
  */
  method Offsets(buf: array<Byte>, n: nat, numSongs: nat) returns (songs: array<nat>)
    requires n <= buf.Length
    requires 1 <= numSongs <= Count(buf[..n], NUL)
    ensures fresh(songs)
    ensures songs[..] == OffsetTable(buf[..n], numSongs)
  {
    ghost var text := buf[..n];
    songs := new nat[numSongs];
    songs[0] := 0;
    if numSongs > 1 {
      var j := 1;
      var i := 0;
      while i < n
        invariant 0 <= i <= n
        invariant 1 <= j < numSongs
        invariant j - 1 == Count(text[..i], NUL)
        invariant songs[0] == 0
        invariant forall m :: 1 <= m < j ==> songs[m] == Zeros(text)[m - 1] + 1
      {
        assert text[..i + 1][..i] == text[..i];
        if buf[i] == NUL {
          ZeroAt(text, i);
          songs[j] := i + 1;
          j := j + 1;
          if j >= numSongs {
            break;
          }
        }
        i := i + 1;
      }
      assert text[..n] == text;
      assert j == numSongs;
    }
    assert songs[..] == OffsetTable(text, numSongs);
  }

  /**
    The buffer-processing tail of `getlist`: split the `n` bytes that `ls`
    wrote into NUL-terminated names, then build the table of their start
    offsets; the number of names is the number of newlines.
  */
  method GetList(buf: array<Byte>, n: nat) returns (songs: array<nat>, numSongs: nat)
    requires n <= buf.Length
    requires Count(buf[..n], NEWLINE) >= 1
    modifies buf
    ensures numSongs == Count(old(buf[..n]), NEWLINE)
    ensures buf[..n] == Terminated(old(buf[..n]))
    ensures buf[n..] == old(buf[n..])
    ensures 1 <= numSongs <= Count(buf[..n], NUL)
    ensures fresh(songs) && songs[..] == OffsetTable(buf[..n], numSongs)
  {
    numSongs := SplitLines(buf, n);
    TerminatedCount(old(buf[..n]));
    songs := Offsets(buf, n, numSongs);
  }
}
