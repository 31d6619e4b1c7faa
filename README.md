# shuffleplay — a Dafny model of its sequential core

shuffleplay is a terminal music player. It lists a directory with `ls` and
shuffles the names. It then plays them one by one with an external player
process while a second thread reads commands from the terminal: `p`
pause/resume, `n` next, `r` replay, `b` previous. This project models the
sequential logic of `main.c` and proves properties of it:

- **Shuffle** (`shuffle.dfy`): `shuffle`, which makes `4 * n` in-place
  transpositions. The random source is an input: one pair of raw `rand()`
  results per step, reduced modulo `n` as the C code does. Since the model
  is a function of those values, the same values always give the same
  order. The proofs show that the array ends as a permutation of its input.
- **Listing** (`listing.dfy`): the buffer-processing tail of `getlist`. It
  rewrites every newline of the bytes `ls` produced into a NUL terminator,
  counts them, and builds the table of name start offsets. A C pointer
  `&buf[i]` is modelled as the offset `i`.
- **Playback** (`playback.dfy`): the shared state record (`paused`,
  `song_idx`) as a class; `state_init`, `state_play`, `state_pause` and
  `state_end_song`; the listener's dispatch on the first byte of each
  `read`; and the driver loop that announces and plays `songs[song_idx]`.
  The datatype `Nav` and the functions `Step`, `Listen` and `Schedule`
  specify these. The main theorem is that every index the driver uses is
  inside the song array.
- **ShufflePlay** (`shuffleplay.dfy`): the body of `main` after the
  directory change. It lists, shuffles, initialises the state and drives
  playback. It proves that every announced name is a listed name, and that
  with no input every listed name is played exactly once.

While a track plays, the listener's input is a sequence of `Event`s. A
`Typed` event carries the bytes that one `read` of the terminal returns:
at most 32 bytes, of which only the first is dispatched. A
`TrackFinished` event means the player exited by itself. A track ends at
the first `Typed` event whose first byte is `n`, `r` or `b`, or at
`TrackFinished`. When the events run out, every remaining track plays to
its end. Each command is one atomic step.

Two behaviours of the code are worth stating plainly:

- `p` is a toggle (main.c:183-190): pressing it while paused resumes.
- The driver loop increments `song_idx` after every track, whatever the
  exit status (main.c:251). `r` and `b` pre-adjust the index to compensate
  (main.c:196, 200).

## Model

| member | source | states |
|---|---|---|
| `Shuffle.SwapPermutes` | main.c:49-51 | one transposition exchanges the two chosen slots, leaves every other slot alone, and keeps the multiset of entries (`j == k` changes nothing) |
| `Shuffle.Shuffled` | main.c:47-52 | applying the drawn transpositions in order keeps the length; with no entries no step can be taken |
| `Shuffle.ShuffledPermutes` | main.c:45-53 | after any sequence of steps the names are a permutation of the input: none lost, added or duplicated |
| `Shuffle.Exchange` | main.c:49-51 | swapping through a temporary leaves the array equal to `Swap` of its old contents |
| `Shuffle.Shuffle` | main.c:45-53 | takes exactly `4 * n` steps with slots `rand() % n`, never reducing modulo 0; the array ends as `Shuffled` of its old contents and as a permutation of them |
| `Listing.Terminated` | main.c:80-83 | the rewritten buffer has the same length; every newline becomes NUL and every other byte is unchanged |
| `Listing.Zeros` | main.c:89-90 | `Zeros` lists every NUL position of the buffer, one per NUL byte; the table loop tests these bytes and uses the first `num_songs - 1` of them |
| `Listing.TerminatedCount` | main.c:79-83 | the rewritten buffer has one NUL per newline on top of the NULs it already had |
| `Listing.ZerosSound` | main.c:89-94 | every position the table loop records holds a NUL inside the buffer, and the positions are strictly increasing |
| `Listing.ZerosComplete` | main.c:89-94 | `Zeros` lists every NUL of the buffer, so the scan, which stops after `num_songs - 1` of them, reads its entries from a complete list |
| `Listing.ZerosPrefix` | main.c:89-94 | the NULs of a prefix are the first NULs of the whole buffer, so the scan finds them in order |
| `Listing.ZeroAt` | main.c:90-92 | the NUL at position `i` is the terminator numbered by the count of NULs before it, so `songs[j]` gets one past the right terminator |
| `Listing.NameRunsToTerminator` | main.c:85-96 | name `j` starts at its table entry and runs, with no NUL inside, up to the `j`-th terminator inside the buffer |
| `Listing.OffsetsIncrease` | main.c:85-96 | the table starts with offset 0 (`songs[0] = buf`) and is strictly increasing |
| `Listing.TerminatorsAreNewlines` | main.c:79-83 | when `ls` output has no NUL byte, the terminators are exactly the former newlines and their number is the newline count |
| `Listing.SplitLines` | main.c:79-83 | the split loop leaves the buffer equal to `Terminated` of its old bytes, untouched past `n`, and returns the newline count |
| `Listing.Offsets` | main.c:85-96 | the table loop returns a fresh array equal to `OffsetTable`: 0, then one past each of the first `num_songs - 1` NULs, stopping once the table is full |
| `Listing.GetList` | main.c:79-101 | the returned length is the number of newlines, the buffer is rewritten in place, and the table lists one start offset per name |
| `Playback.Step` | main.c:183-206 | from index -1 or above, a command leaves the index unchanged or moves it back by one or two, never below -1; only `n`, `r`, `b` move or end anything, and they leave the player unpaused; `p` flips `paused`; a newline or any other character changes nothing |
| `Playback.Listen` | main.c:179-207 | the listener during one track consumes at least one event when there is one, and leaves the index unchanged or moved back by at most two, not below -1 |
| `Playback.ScheduleInBounds` | main.c:251-255 | every index the driver loop uses to read `songs[song_idx]` is in `[0, num_songs)` |
| `Playback.ScheduleWithoutInput` | main.c:251-256 | with no input the loop plays indices `idx, idx + 1, ..., num_songs - 1` and then stops |
| `Playback.NaturalEndAdvances` | main.c:251-255 | a track that ends by itself is followed by the next index |
| `Playback.SkipPlaysNext` | main.c:191-193 | `n` ends the track unpaused; the next index played is one higher, or the loop ends after the last song |
| `Playback.RestartReplays` | main.c:194-197 | `r` replays the same index, the last song included |
| `Playback.BackPlaysPrevious` | main.c:198-201 | `b` plays `max(0, idx - 1)`: the previous song, or the first song again |
| `Playback.OtherCommandsKeepTrack` | main.c:183-206 | `p`, a newline, an empty read and any other character keep the current track playing with the index unchanged; all but `p` leave the state as it was |
| `Playback.PauseTwiceRestores` | main.c:183-190 | two `p` commands restore the state |
| `Playback.PlayerState.constructor` | main.c:117-120 | `state_init`: not paused, index 0 |
| `Playback.PlayerState.Play` | main.c:135-139 | `state_play`: not paused, index unchanged |
| `Playback.PlayerState.Pause` | main.c:141-145 | `state_pause`: paused, index unchanged |
| `Playback.PlayerState.EndSong` | main.c:128-133 | `state_end_song`: not paused, index unchanged |
| `Playback.PlayerState.HandleCommand` | main.c:180-206 | one listener iteration moves the state as `Step` does on the first byte read, which is NUL when the read returns nothing; it returns the message the branch prints |
| `Playback.PlayerState.ListenDuringTrack` | main.c:179-207 | the listener loop during one track ends in the state `Listen` gives and returns the events still to come |
| `Playback.Drive` | main.c:250-256 | the driver loop starts at index 0 and plays the indices `Schedule` gives, each inside the array; what it announces is `songs` at those indices; the index ends at the number of songs |
| `ShufflePlay.AnnouncedAreListed` | main.c:231-256 | songs announced by index from the shuffled table are listed names, and without input each listed name is announced once |
| `ShufflePlay.Run` | main.c:229-257 | after listing, shuffling and playing, the indices played are those `Schedule` gives from index 0, unpaused, and each announced name is the entry at that index of the offset table shuffled by `rolls`; every announced name is one of the listed names; with no input the announced names are a permutation of the listed ones; the buffer past `n` is untouched |

## Left out

- Process control is not modelled: `fork`/`execl` of `ls` and `afplay`, `pipe`, `dup2`, `waitpid` and the signals `SIGINT`/`SIGSTOP`/`SIGCONT` sent by `kill`. The player's process id field (`current_song_pid`) is therefore absent too. A track's end is an input event.
- Threads are not modelled: mutexes, condition variables, the print lock and the two rendezvous between the threads. Each command is one atomic step taken while a track plays, so races between the two threads are not captured.
- `srand(time(NULL))` and `rand()` are not modelled. Their results are the `rolls` parameter.
- The fail-fast `SYSCALL`/`PTHREAD` error exits are left out. They end the process.
- Printing is left out: banners, track titles, the `>> ` prompt that depends on `WIFEXITED`, and the argument and path selection in `main` before `chdir`. `HandleCommand` returns which message it prints, not the text.
- How the terminal's bytes are split into reads is not modelled: a line longer than 32 bytes, or several lines delivered by one `read`, are whatever `Typed` events the reads produce.
- The single 1024-byte `read` of `ls` output is left out. The model takes the buffer and the byte count `n` as given.
- `Listing.GetList`: requires at least one newline in the `ls` output. The C code allocates a table of `num_songs` entries and writes `songs[0]` even when `num_songs` is 0, which writes past an empty allocation.
- `Shuffle.Shuffle`: requires exactly `4 * n` rolls, because it models the random values the loop consumes. It does not model `rand()`'s range or its distribution.
- `Playback.Drive`: does not state the final pause flag, because `main` returns right after the loop and nothing reads it.
- `Playback.SkipPlaysNext`, `Playback.RestartReplays`, `Playback.BackPlaysPrevious`: describe the program only while the player is not paused. `p` stops the player with `SIGSTOP`, and the `SIGINT` that `n`, `r` or `b` then sends stays pending on a stopped process, so the `waitpid` of the driver and the wait of the listener may both block; the model moves to the next track instead.
- `Playback.Drive`: a track ends only when an event says so. Whether a paused (stopped) player can finish, or reacts to the interrupt that `n`, `r` and `b` send, depends on operating-system signal semantics, which are not modelled.
