/**
 * The per-account task engine `FireverseMusicBot`: it fetches recommended songs, plays each new
 * one once, stops at a quota of 25, and while a song plays counts seconds and sends a heartbeat at
 * most once every 30 seconds. The remote service's answers and the clock are inputs (`Service`).
 */
module Player {
  import opened Options
  import opened LineFiles

  type SongId = int

  /** A recommended song; `duration` is absent when the field is missing or null. */
  datatype Song = Song(id: SongId, duration: Option<int>)

  /**
   * What the remote service and the clock answer. `detailDuration(id)` is
   * `(await getMusicDetails(id))?.duration` (absent when the lookup failed); `playAccepted(id)` is
   * the result of `playMusic(id)`; `clock(id, k)` is `Date.now()` at tick `k` of song `id`, and
   * `heartbeatAccepted(id, k)` says whether the heartbeat POST issued at that tick succeeded.
   * Each song id is played at most once per bot, so keying by id is unambiguous.
   */
  datatype Service = Service(
    detailDuration: SongId -> Option<int>,
    playAccepted: SongId -> bool,
    clock: (SongId, nat) -> int,
    heartbeatAccepted: (SongId, nat) -> bool)

  /** `this.songsToPlay`. */
  const SongsToPlay: nat := 25

  /** Minimum milliseconds between two heartbeats. */
  const HeartbeatInterval: int := 30000

  /** Fallback duration in seconds. */
  const DefaultDuration: int := 180

  /**
   * `musicDetails?.duration || song.duration || 180`: the first truthy candidate, so a missing
   * or zero duration falls through and the result is never zero.
   */
  function ResolveDuration(detail: Option<int>, own: Option<int>): (d: int)
    ensures d != 0
    ensures TruthyNumber(detail) ==> d == detail.value
    ensures !TruthyNumber(detail) && TruthyNumber(own) ==> d == own.value
    ensures !TruthyNumber(detail) && !TruthyNumber(own) ==> d == DefaultDuration
  {
    if TruthyNumber(detail) then detail.value
    else if TruthyNumber(own) then own.value
    else DefaultDuration
  }

  /** Iterations of `for (let timeLeft = duration; timeLeft > 0; timeLeft--)`. */
  function TickCount(duration: int): nat {
    if duration > 0 then duration else 0
  }

  /** Seconds of listening one song adds: its duration when `playMusic` succeeded, none otherwise. */
  function Listening(svc: Service, song: Song): nat {
    if svc.playAccepted(song.id)
    then TickCount(ResolveDuration(svc.detailDuration(song.id), song.duration))
    else 0
  }

  /** Total listening of a sequence of songs. */
  function TotalListening(svc: Service, songs: seq<Song>): nat
    decreases |songs|
  {
    if songs == [] then 0 else Listening(svc, songs[0]) + TotalListening(svc, songs[1..])
  }

  lemma {:induction false} TotalListeningAppend(svc: Service, a: seq<Song>, b: seq<Song>)
    ensures TotalListening(svc, a + b) == TotalListening(svc, a) + TotalListening(svc, b)
    decreases |a|
  {
    if a == [] {
      assert a + b == b;
    } else {
      assert (a + b)[0] == a[0];
      assert (a + b)[1..] == a[1..] + b;
      TotalListeningAppend(svc, a[1..], b);
    }
  }

  // ---------------------------------------------------------------------------------------------
  // Heartbeats

  /** Successful heartbeat times, each at least `HeartbeatInterval` after every earlier one. */
  ghost predicate Spaced(times: seq<int>) {
    forall i, j :: 0 <= i < j < |times| ==> times[i] + HeartbeatInterval <= times[j]
  }

  lemma SpacedAppend(times: seq<int>, t: int)
    requires Spaced(times) && times != []
    requires t - times[|times| - 1] >= HeartbeatInterval
    ensures Spaced(times + [t])
  {
    var s := times + [t];
    forall i, j | 0 <= i < j < |s| ensures s[i] + HeartbeatInterval <= s[j] {
      if j == |times| && i < |times| - 1 {
        assert times[i] + HeartbeatInterval <= times[|times| - 1];
      }
    }
  }

  /** The latest of `start` followed by `times`. */
  function LastOr(start: int, times: seq<int>): int {
    if times == [] then start else times[|times| - 1]
  }

  /** Each time at least `HeartbeatInterval` after the one before it, the first after `start`. */
  ghost predicate Paced(start: int, times: seq<int>)
    decreases |times|
  {
    times == []
    || (Paced(start, times[..|times| - 1])
        && LastOr(start, times[..|times| - 1]) + HeartbeatInterval <= times[|times| - 1])
  }

  lemma PacedAppend(start: int, times: seq<int>, t: int)
    requires Paced(start, times) && LastOr(start, times) + HeartbeatInterval <= t
    ensures Paced(start, times + [t]) && LastOr(start, times + [t]) == t
  {
    assert (times + [t])[..|times|] == times;
  }

  /** A prefix of spaced times is spaced. */
  lemma SpacedPrefix(times: seq<int>, k: nat)
    requires Spaced(times) && k <= |times|
    ensures Spaced(times[..k])
  {
    var pre := times[..k];
    forall i, j | 0 <= i < j < |pre| ensures pre[i] + HeartbeatInterval <= pre[j] {
      assert pre[i] == times[i] && pre[j] == times[j];
    }
  }

  /** Paced times followed by times spaced from the latest of them stay paced. */
  lemma {:induction false} PacedExtend(start: int, xs: seq<int>, ys: seq<int>)
    requires Paced(start, xs) && Spaced([LastOr(start, xs)] + ys)
    ensures Paced(start, xs + ys)
    ensures LastOr(start, xs + ys) == ([LastOr(start, xs)] + ys)[|ys|]
    decreases |ys|
  {
    var last := LastOr(start, xs);
    if ys == [] {
      assert xs + ys == xs;
    } else {
      var init, t := ys[..|ys| - 1], ys[|ys| - 1];
      assert [last] + init == ([last] + ys)[..|ys|];
      SpacedPrefix([last] + ys, |ys|);
      PacedExtend(start, xs, init);
      assert ([last] + ys)[|init|] == ([last] + init)[|init|];
      assert ([last] + ys)[|init|] + HeartbeatInterval <= ([last] + ys)[|ys|] == t;
      PacedAppend(start, xs + init, t);
      assert (xs + init) + [t] == xs + ys;
    }
  }

  /** Consecutive spacing gives spacing between every pair. */
  lemma {:induction false} PacedSpaced(start: int, times: seq<int>)
    requires Paced(start, times)
    ensures Spaced([start] + times)
    decreases |times|
  {
    if times != [] {
      var init := times[..|times| - 1];
      PacedSpaced(start, init);
      assert ([start] + init)[|init|] == LastOr(start, init);
      SpacedAppend([start] + init, times[|times| - 1]);
      assert ([start] + init) + [times[|times| - 1]] == [start] + times;
    }
  }

  /** The state of the heartbeat bookkeeping: the last successful time and the times sent. */
  datatype Beating = Beating(last: int, sent: seq<int>)

  /**
   * One call of `sendHeartbeat` at time `now`: it posts when at least 30 000 ms have passed since
   * the last successful heartbeat, and records `now` only when the post succeeded.
   */
  function Beat(b: Beating, now: int, accepted: bool): Beating {
    if now - b.last >= HeartbeatInterval && accepted then Beating(now, b.sent + [now]) else b
  }

  /** `sendHeartbeat` called once per tick for `n` ticks of song `id`, starting from `last`. */
  function HeartbeatRun(last: int, id: SongId, svc: Service, n: nat): Beating
    decreases n
  {
    if n == 0 then Beating(last, [])
    else Beat(HeartbeatRun(last, id, svc, n - 1), svc.clock(id, n - 1), svc.heartbeatAccepted(id, n - 1))
  }

  /**
   * Whatever the clock says (it need not even be monotone), the heartbeats of a run are spaced at
   * least 30 000 ms apart, the first at least 30 000 ms after the starting time, and the final
   * `last` is the latest of them.
   */
  lemma {:induction false} HeartbeatRunSpaced(last: int, id: SongId, svc: Service, n: nat)
    ensures Spaced([last] + HeartbeatRun(last, id, svc, n).sent)
    ensures HeartbeatRun(last, id, svc, n).last == ([last] + HeartbeatRun(last, id, svc, n).sent)[|HeartbeatRun(last, id, svc, n).sent|]
    decreases n
  {
    if n > 0 {
      HeartbeatRunSpaced(last, id, svc, n - 1);
      var b := HeartbeatRun(last, id, svc, n - 1);
      assert HeartbeatRun(last, id, svc, n) == Beat(b, svc.clock(id, n - 1), svc.heartbeatAccepted(id, n - 1));
      var now := svc.clock(id, n - 1);
      if now - b.last >= HeartbeatInterval && svc.heartbeatAccepted(id, n - 1) {
        SpacedAppend([last] + b.sent, now);
        assert [last] + (b.sent + [now]) == ([last] + b.sent) + [now];
      }
    }
  }

  /**
   * Rate ceiling: spaced times that all lie within `[lo, hi]` number at most
   * `(hi - lo) / 30000 + 1`.
   */
  lemma {:induction false} SpacedBound(times: seq<int>, lo: int, hi: int)
    requires Spaced(times)
    requires forall i :: 0 <= i < |times| ==> lo <= times[i] <= hi
    ensures times == [] || (|times| - 1) * HeartbeatInterval <= hi - lo
    decreases |times|
  {
    if |times| > 1 {
      var rest := times[1..];
      assert Spaced(rest) by {
        forall i, j | 0 <= i < j < |rest| ensures rest[i] + HeartbeatInterval <= rest[j] {
          assert rest[i] == times[i + 1] && rest[j] == times[j + 1];
        }
      }
      assert times[0] + HeartbeatInterval <= times[1];
      SpacedBound(rest, times[0] + HeartbeatInterval, hi);
    }
  }

  /**
   * The heartbeat state after one song's tick loop from `b`: `lastHeartbeat` moves to where
   * `HeartbeatRun` leaves it, and the heartbeats it sends are appended to the log.
   */
  function SongBeats(b: Beating, svc: Service, song: Song): Beating {
    var run := HeartbeatRun(b.last, song.id, svc, Listening(svc, song));
    Beating(run.last, b.sent + run.sent)
  }

  /**
   * The heartbeats of processing `songs` one after the other from `last`: each song's tick loop
   * starts from the `lastHeartbeat` the previous song left.
   */
  function BeatRuns(last: int, svc: Service, songs: seq<Song>): Beating
    decreases |songs|
  {
    if songs == [] then Beating(last, [])
    else
      var run := HeartbeatRun(last, songs[0].id, svc, Listening(svc, songs[0]));
      var rest := BeatRuns(run.last, svc, songs[1..]);
      Beating(rest.last, run.sent + rest.sent)
  }

  lemma AppendAssoc(a: seq<int>, b: seq<int>, c: seq<int>)
    ensures (a + b) + c == a + (b + c)
  {
  }

  /** Joining two spaced runs, the second spaced from the last time of the first, stays spaced. */
  lemma SpacedConcat(xs: seq<int>, ys: seq<int>)
    requires xs != [] && Spaced(xs) && Spaced([xs[|xs| - 1]] + ys)
    ensures Spaced(xs + ys)
  {
    var zs, last := xs + ys, xs[|xs| - 1];
    forall i, j | 0 <= i < j < |zs| ensures zs[i] + HeartbeatInterval <= zs[j] {
      if i >= |xs| {
        assert ([last] + ys)[i - |xs| + 1] == zs[i] && ([last] + ys)[j - |xs| + 1] == zs[j];
      } else if j >= |xs| {
        assert ([last] + ys)[j - |xs| + 1] == zs[j] && ([last] + ys)[0] == last;
        if i < |xs| - 1 {
          assert xs[i] + HeartbeatInterval <= last;
        }
      }
    }
  }

  /**
   * However many songs are processed, the heartbeats sent stay spaced 30 000 ms apart, the first
   * 30 000 ms after the starting time, and the final `last` is the latest of them.
   */
  lemma {:induction false} BeatRunsSpaced(last: int, svc: Service, songs: seq<Song>)
    ensures Spaced([last] + BeatRuns(last, svc, songs).sent)
    ensures BeatRuns(last, svc, songs).last == ([last] + BeatRuns(last, svc, songs).sent)[|BeatRuns(last, svc, songs).sent|]
    decreases |songs|
  {
    if songs != [] {
      var song := songs[0];
      var run := HeartbeatRun(last, song.id, svc, Listening(svc, song));
      var rest := BeatRuns(run.last, svc, songs[1..]);
      HeartbeatRunSpaced(last, song.id, svc, Listening(svc, song));
      BeatRunsSpaced(run.last, svc, songs[1..]);
      SpacedConcat([last] + run.sent, rest.sent);
      AppendAssoc([last], run.sent, rest.sent);
      if rest.sent != [] {
        assert ([last] + (run.sent + rest.sent))[|run.sent + rest.sent|] == ([run.last] + rest.sent)[|rest.sent|];
      }
    }
  }

  /** Heartbeats paced from `start` stay paced after any run of songs, and `last` stays the latest. */
  lemma PacedRuns(start: int, b: Beating, svc: Service, songs: seq<Song>)
    requires Paced(start, b.sent) && b.last == LastOr(start, b.sent)
    ensures var runs := BeatRuns(b.last, svc, songs);
            Paced(start, b.sent + runs.sent) && runs.last == LastOr(start, b.sent + runs.sent)
  {
    BeatRunsSpaced(b.last, svc, songs);
    PacedExtend(start, b.sent, BeatRuns(b.last, svc, songs).sent);
  }

  // ---------------------------------------------------------------------------------------------
  // Which songs `performTasks` plays

  /**
   * The songs `performTasks` hands to `processMusic`: walking the candidates in order, it stops once
   * `room` songs were taken, skips ids already `seen`, and marks each taken id as seen.
   */
  function Pick(seen: set<SongId>, room: nat, songs: seq<Song>): seq<Song>
    decreases |songs|
  {
    if songs == [] || room == 0 then []
    else if songs[0].id in seen then Pick(seen, room, songs[1..])
    else [songs[0]] + Pick(seen + {songs[0].id}, room - 1, songs[1..])
  }

  /** Reference definition: the candidates whose id is new, first occurrence only, in order. */
  function FirstOccurrences(seen: set<SongId>, songs: seq<Song>): seq<Song>
    decreases |songs|
  {
    if songs == [] then []
    else if songs[0].id in seen then FirstOccurrences(seen, songs[1..])
    else [songs[0]] + FirstOccurrences(seen + {songs[0].id}, songs[1..])
  }

  function Ids(songs: seq<Song>): seq<SongId> {
    seq(|songs|, i requires 0 <= i < |songs| => songs[i].id)
  }

  predicate Distinct(ids: seq<SongId>) {
    forall i, j :: 0 <= i < j < |ids| ==> ids[i] != ids[j]
  }

  /** `performTasks` plays the first `room` songs with new ids, so at most `room` of them. */
  lemma {:induction false} PickIsQuotaOfFirstOccurrences(seen: set<SongId>, room: nat, songs: seq<Song>)
    ensures var all := FirstOccurrences(seen, songs);
            Pick(seen, room, songs) == all[..if room < |all| then room else |all|]
    ensures |Pick(seen, room, songs)| <= room
    decreases |songs|
  {
    if songs != [] && room > 0 {
      if songs[0].id in seen {
        PickIsQuotaOfFirstOccurrences(seen, room, songs[1..]);
      } else {
        PickIsQuotaOfFirstOccurrences(seen + {songs[0].id}, room - 1, songs[1..]);
      }
    }
  }

  /** The new-id songs have pairwise distinct ids, none of them already seen, and each is a candidate. */
  lemma {:induction false} FirstOccurrencesFresh(seen: set<SongId>, songs: seq<Song>)
    ensures var all := FirstOccurrences(seen, songs);
            && Distinct(Ids(all))
            && (forall i :: 0 <= i < |all| ==> all[i].id !in seen && all[i] in songs)
    decreases |songs|
  {
    if songs != [] {
      var x := songs[0];
      if x.id in seen {
        FirstOccurrencesFresh(seen, songs[1..]);
        assert songs == [x] + songs[1..];
      } else {
        var seen' := seen + {x.id};
        FirstOccurrencesFresh(seen', songs[1..]);
        var rest := FirstOccurrences(seen', songs[1..]);
        var all := [x] + rest;
        assert FirstOccurrences(seen, songs) == all;
        DistinctCons(x, rest);
        assert songs[0] in songs;
        forall i | 0 <= i < |all| ensures all[i].id !in seen && all[i] in songs {
          if i > 0 {
            assert all[i] == rest[i - 1];
            assert rest[i - 1] in songs[1..];
            assert songs == [x] + songs[1..];
          }
        }
      }
    }
  }

  /** Putting a song whose id is new in front of songs with distinct ids keeps the ids distinct. */
  lemma DistinctCons(x: Song, rest: seq<Song>)
    requires Distinct(Ids(rest))
    requires forall k :: 0 <= k < |rest| ==> rest[k].id != x.id
    ensures Distinct(Ids([x] + rest))
  {
    var all := [x] + rest;
    forall i, j | 0 <= i < j < |all| ensures Ids(all)[i] != Ids(all)[j] {
      assert all[j] == rest[j - 1];
      if i > 0 {
        assert all[i] == rest[i - 1];
        assert Ids(rest)[i - 1] != Ids(rest)[j - 1];
      }
    }
  }

  /** No candidate is skipped wrongly: every candidate's id was seen before or is among the new-id songs. */
  lemma {:induction false} FirstOccurrencesComplete(seen: set<SongId>, songs: seq<Song>)
    ensures forall i :: 0 <= i < |songs| ==>
              songs[i].id in seen || songs[i].id in Ids(FirstOccurrences(seen, songs))
    decreases |songs|
  {
    if songs != [] {
      var x := songs[0];
      var seen' := if x.id in seen then seen else seen + {x.id};
      FirstOccurrencesComplete(seen', songs[1..]);
      var rest := FirstOccurrences(seen', songs[1..]);
      var all := FirstOccurrences(seen, songs);
      if x.id !in seen {
        assert Ids(all)[0] == x.id;
      }
      forall i | 0 <= i < |songs| ensures songs[i].id in seen || songs[i].id in Ids(all) {
        if i > 0 && songs[i].id !in seen && songs[i].id != x.id {
          assert songs[i] == songs[1..][i - 1];
          var k :| 0 <= k < |rest| && Ids(rest)[k] == songs[i].id;
          if x.id in seen {
            assert Ids(all)[k] == songs[i].id;
          } else {
            assert Ids(all)[k + 1] == songs[i].id;
          }
        }
      }
    }
  }

  /** One step of `Pick` from position `i` of the candidates. */
  lemma PickStep(seen: set<SongId>, room: nat, songs: seq<Song>, i: nat)
    requires i < |songs|
    ensures Pick(seen, room, songs[i..])
            == if room == 0 then []
               else if songs[i].id in seen then Pick(seen, room, songs[i + 1..])
               else [songs[i]] + Pick(seen + {songs[i].id}, room - 1, songs[i + 1..])
  {
    assert songs[i..][0] == songs[i] && songs[i..][1..] == songs[i + 1..];
  }

  /** The ids of a sequence of songs, as a set. */
  function IdSet(songs: seq<Song>): set<SongId>
    decreases |songs|
  {
    if songs == [] then {} else IdSet(songs[..|songs| - 1]) + {songs[|songs| - 1].id}
  }

  lemma IdsAppend(done: seq<Song>, song: Song)
    ensures Ids(done + [song]) == Ids(done) + [song.id]
    ensures IdSet(done + [song]) == IdSet(done) + {song.id}
  {
    assert Ids(done + [song]) == Ids(done) + [song.id];
    assert (done + [song])[..|done|] == done;
  }

  /** Every song's id is in the id set. */
  lemma {:induction false} IdSetMembers(songs: seq<Song>)
    ensures forall i :: 0 <= i < |songs| ==> songs[i].id in IdSet(songs)
    decreases |songs|
  {
    if songs != [] {
      var init := songs[..|songs| - 1];
      IdSetMembers(init);
      assert forall i :: 0 <= i < |init| ==> songs[i] == init[i];
    }
  }

  /** The ids of two runs of songs together are the ids of each. */
  lemma {:induction false} IdSetConcat(a: seq<Song>, b: seq<Song>)
    ensures IdSet(a + b) == IdSet(a) + IdSet(b)
    decreases |b|
  {
    if b != [] {
      var init, last := b[..|b| - 1], b[|b| - 1];
      IdSetConcat(a, init);
      assert a + b == (a + init) + [last];
      IdsAppend(a + init, last);
      IdsAppend(init, last);
      assert init + [last] == b;
    } else {
      assert a + b == a;
    }
  }

  /** There are no more ids than songs, and as many only when no id repeats. */
  lemma {:induction false} IdSetSize(songs: seq<Song>)
    ensures |IdSet(songs)| <= |songs|
    ensures |IdSet(songs)| == |songs| ==> Distinct(Ids(songs))
    decreases |songs|
  {
    if songs != [] {
      var init, last := songs[..|songs| - 1], songs[|songs| - 1];
      IdSetSize(init);
      if |IdSet(songs)| == |songs| {
        assert last.id !in IdSet(init);
        IdSetMembers(init);
        forall i, j | 0 <= i < j < |songs| ensures Ids(songs)[i] != Ids(songs)[j] {
          assert Ids(songs)[i] == songs[i].id && Ids(songs)[j] == songs[j].id;
          if j < |init| {
            assert Ids(init)[i] == init[i].id && Ids(init)[j] == init[j].id;
          } else {
            assert songs[i] == init[i];
          }
        }
      }
    }
  }

  /**
   * The bot's bookkeeping: played ids, count, songs processed in order, seconds listened. The
   * heartbeat state is followed separately, by `BeatRuns`.
   */
  datatype Ledger = Ledger(played: set<SongId>, count: nat, processed: seq<Song>, listened: nat)

  /** The bookkeeping after processing one more song: its id is played, it is counted, its ticks are listened. */
  function Record(l: Ledger, svc: Service, song: Song): Ledger {
    Ledger(l.played + {song.id}, l.count + 1, l.processed + [song], l.listened + Listening(svc, song))
  }

  /** The bookkeeping after processing `songs` one after the other. */
  function Account(l: Ledger, svc: Service, songs: seq<Song>): Ledger
    decreases |songs|
  {
    if songs == [] then l else Account(Record(l, svc, songs[0]), svc, songs[1..])
  }

  /** Processing `songs` adds their ids, their number, the songs themselves and their listening time. */
  lemma {:induction false} AccountFacts(l: Ledger, svc: Service, songs: seq<Song>)
    ensures var a := Account(l, svc, songs);
            && a.played == l.played + IdSet(songs)
            && a.count == l.count + |songs|
            && a.processed == l.processed + songs
            && a.listened == l.listened + TotalListening(svc, songs)
    decreases |songs|
  {
    if songs == [] {
      assert l.processed + songs == l.processed;
    } else {
      var song, rest := songs[0], songs[1..];
      AccountFacts(Record(l, svc, song), svc, rest);
      assert songs == [song] + rest;
      IdSetConcat([song], rest);
      assert IdSet([song]) == {song.id} by { assert [song][..0] == []; }
      assert (l.processed + [song]) + rest == l.processed + songs;
    }
  }

  /**
   * What the loop of `performTasks` leaves, from candidate `i` on, when the bookkeeping is `l`: it
   * stops at the end of the list or at the quota, skips a played id, and records any other song.
   */
  ghost function PlayFrom(l: Ledger, svc: Service, songs: seq<Song>, i: nat): Ledger
    requires i <= |songs|
    decreases |songs| - i
  {
    if i == |songs| || l.count >= SongsToPlay then l
    else if songs[i].id in l.played then PlayFrom(l, svc, songs, i + 1)
    else PlayFrom(Record(l, svc, songs[i]), svc, songs, i + 1)
  }

  /** The loop records exactly the songs `Pick` selects from the candidates it has not reached yet. */
  lemma {:induction false} PlayFromPicks(l: Ledger, svc: Service, songs: seq<Song>, i: nat)
    requires i <= |songs| && l.count <= SongsToPlay
    ensures PlayFrom(l, svc, songs, i) == Account(l, svc, Pick(l.played, SongsToPlay - l.count, songs[i..]))
    decreases |songs| - i
  {
    var room := SongsToPlay - l.count;
    if i == |songs| || l.count >= SongsToPlay {
      assert Pick(l.played, room, songs[i..]) == [];
    } else {
      PickStep(l.played, room, songs, i);
      if songs[i].id in l.played {
        PlayFromPicks(l, svc, songs, i + 1);
      } else {
        var x := songs[i];
        var rest := Pick(l.played + {x.id}, room - 1, songs[i + 1..]);
        PlayFromPicks(Record(l, svc, x), svc, songs, i + 1);
        assert ([x] + rest)[0] == x && ([x] + rest)[1..] == rest;
      }
    }
  }

  /**
   * The heartbeat state the loop of `performTasks` leaves from candidate `i` on: the walk of
   * `PlayFrom`, following `lastHeartbeat` and the log of heartbeat times through each song taken.
   */
  ghost function BeatsFrom(l: Ledger, b: Beating, svc: Service, songs: seq<Song>, i: nat): Beating
    requires i <= |songs|
    decreases |songs| - i
  {
    if i == |songs| || l.count >= SongsToPlay then b
    else if songs[i].id in l.played then BeatsFrom(l, b, svc, songs, i + 1)
    else
      BeatsFrom(Record(l, svc, songs[i]), SongBeats(b, svc, songs[i]), svc, songs, i + 1)
  }

  /** From any point of the loop, the heartbeats still to come are those `BeatRuns` gives for the songs `Pick` selects. */
  lemma {:induction false} BeatsFromRuns(l: Ledger, b: Beating, svc: Service, songs: seq<Song>, i: nat)
    requires i <= |songs| && l.count <= SongsToPlay
    ensures var runs := BeatRuns(b.last, svc, Pick(l.played, SongsToPlay - l.count, songs[i..]));
            BeatsFrom(l, b, svc, songs, i) == Beating(runs.last, b.sent + runs.sent)
    decreases |songs| - i
  {
    var room := SongsToPlay - l.count;
    if i == |songs| || l.count >= SongsToPlay {
      assert Pick(l.played, room, songs[i..]) == [];
      assert b.sent + [] == b.sent;
    } else {
      PickStep(l.played, room, songs, i);
      if songs[i].id in l.played {
        BeatsFromRuns(l, b, svc, songs, i + 1);
      } else {
        var x := songs[i];
        var run := HeartbeatRun(b.last, x.id, svc, Listening(svc, x));
        var rest := Pick(l.played + {x.id}, room - 1, songs[i + 1..]);
        BeatsFromRuns(Record(l, svc, x), SongBeats(b, svc, x), svc, songs, i + 1);
        assert ([x] + rest)[0] == x && ([x] + rest)[1..] == rest;
        AppendAssoc(b.sent, run.sent, BeatRuns(run.last, svc, rest).sent);
      }
    }
  }

  /**
   * What the loop of `performTasks` leaves, read through `Pick`: the bookkeeping `Account` gives for
   * the songs picked, the heartbeats `BeatRuns` gives for them, and the played ids still those of
   * the processed songs when they were before.
   */
  lemma TasksDone(l0: Ledger, l: Ledger, b0: Beating, b: Beating, svc: Service, songs: seq<Song>)
    requires l0.count <= SongsToPlay
    requires l == PlayFrom(l0, svc, songs, 0) && b == BeatsFrom(l0, b0, svc, songs, 0)
    ensures var picks := Pick(l0.played, SongsToPlay - l0.count, songs);
            var runs := BeatRuns(b0.last, svc, picks);
            && l == Account(l0, svc, picks)
            && b == Beating(runs.last, b0.sent + runs.sent)
    ensures l0.played == IdSet(l0.processed) ==> l.played == IdSet(l.processed)
  {
    assert songs[0..] == songs;
    PlayFromPicks(l0, svc, songs, 0);
    BeatsFromRuns(l0, b0, svc, songs, 0);
    AccountKeepsIdSet(l0, svc, Pick(l0.played, SongsToPlay - l0.count, songs));
  }

  /** Processing songs keeps the played ids those of the processed songs. */
  lemma AccountKeepsIdSet(l: Ledger, svc: Service, songs: seq<Song>)
    ensures l.played == IdSet(l.processed) ==> Account(l, svc, songs).played == IdSet(Account(l, svc, songs).processed)
  {
    AccountFacts(l, svc, songs);
    IdSetConcat(l.processed, songs);
  }

  // ---------------------------------------------------------------------------------------------
  // User info

  /** The user's standing as `getUserInfo` logs and returns it. */
  datatype UserInfo = UserInfo(level: int, score: int, expValue: int)

  /** The reply to `GET /userInfo/getMyInfo`: the request failed, `data.data` is null, or the data. */
  datatype UserInfoReply = RequestFailed | NoData | Info(info: UserInfo)

  /** How a call ends: with a value, or by throwing. */
  datatype Outcome<T> = Returned(value: T) | Threw

  /**
   * The body of `getUserInfo`'s `try`: awaiting the request throws when it fails, and destructuring
   * `{ level, expValue, score }` from a null `data.data` throws as well.
   */
  function ReadUserInfo(reply: UserInfoReply): Outcome<UserInfo> {
    match reply
    case RequestFailed => Threw
    case NoData => Threw
    case Info(info) => Returned(info)
  }

  /** `getUserInfo`: whatever its `try` throws is caught and turned into `null`. */
  function GetUserInfo(reply: UserInfoReply): Outcome<Option<UserInfo>> {
    match ReadUserInfo(reply)
    case Threw => Returned(None)
    case Returned(info) => Returned(Some(info))
  }

  /** `getUserInfo` never throws, and yields the user's data exactly when the reply carries it. */
  lemma GetUserInfoNeverThrows(reply: UserInfoReply)
    ensures GetUserInfo(reply).Returned?
    ensures GetUserInfo(reply).value.Some? <==> reply.Info?
    ensures reply.Info? ==> GetUserInfo(reply).value == Some(reply.info)
  {
  }

  // ---------------------------------------------------------------------------------------------
  // The bot

  class FireverseMusicBot {
    const token: string
    const accountIndex: nat
    const proxy: Option<Proxy>
    const songsToPlay: nat := SongsToPlay
    var playedSongs: set<SongId>
    var songCount: nat
    var totalListeningTime: nat
    var lastHeartbeat: int

    /** `Date.now()` at construction: the initial `lastHeartbeat`. */
    ghost const createdAt: int
    /** The songs handed to `processMusic`, in order. */
    ghost var Processed: seq<Song>
    /** The times of the successful heartbeats, in order. */
    ghost var Beats: seq<int>

    /** Quota: the count never passes the quota and equals both the songs processed and the ids played. */
    ghost predicate Counted()
      reads this`songCount, this`playedSongs, this`Processed
    {
      && songCount <= songsToPlay
      && songCount == |Processed|
      && songCount == |playedSongs|
    }

    /** Quota and deduplication: besides the counts, the played ids are exactly those of the songs processed. */
    ghost predicate QuotaKept()
      reads this`songCount, this`playedSongs, this`Processed
    {
      Counted() && playedSongs == IdSet(Processed)
    }

    /** A song id reaches `processMusic` at most once per bot. */
    lemma NoSongProcessedTwice()
      requires QuotaKept()
      ensures Distinct(Ids(Processed))
    {
      IdSetSize(Processed);
    }

    /** Heartbeats are paced, starting from the construction time, and `lastHeartbeat` is the latest. */
    ghost predicate HeartbeatsSpaced()
      reads this`lastHeartbeat, this`Beats
    {
      Paced(createdAt, Beats) && lastHeartbeat == LastOr(createdAt, Beats)
    }

    /** Any two successful heartbeats of a bot are at least 30 000 ms apart, and after its construction. */
    lemma HeartbeatsApart()
      requires HeartbeatsSpaced()
      ensures Spaced([createdAt] + Beats)
    {
      PacedSpaced(createdAt, Beats);
    }

    /** The bookkeeping as one value. */
    ghost function Books(): Ledger
      reads this`playedSongs, this`songCount, this`Processed, this`totalListeningTime
    {
      Ledger(playedSongs, songCount, Processed, totalListeningTime)
    }

    /** The heartbeat state as one value. */
    ghost function Heartbeats(): Beating
      reads this`lastHeartbeat, this`Beats
    {
      Beating(lastHeartbeat, Beats)
    }

    /** The bot's invariant: quota, deduplication and heartbeat spacing. */
    ghost predicate Valid()
      reads this
    {
      QuotaKept() && HeartbeatsSpaced()
    }

    constructor (token: string, accountIndex: nat, proxy: Option<Proxy>, now: int)
      ensures Valid()
      ensures this.token == token && this.accountIndex == accountIndex && this.proxy == proxy
      ensures playedSongs == {} && songCount == 0 && totalListeningTime == 0
      ensures lastHeartbeat == now && createdAt == now
      ensures Processed == [] && Beats == []
    {
      this.token := token;
      this.accountIndex := accountIndex;
      this.proxy := proxy;
      playedSongs := {};
      songCount := 0;
      totalListeningTime := 0;
      lastHeartbeat := now;
      createdAt := now;
      Processed := [];
      Beats := [];
    }

    /**
     * `initialize`: reports success unless `getUserInfo` throws. Since `getUserInfo` catches the
     * errors of its request and of reading the reply, it reports success whatever the reply.
     */
    function Initialize(reply: UserInfoReply): (ok: bool)
      ensures ok
    {
      match GetUserInfo(reply)
      case Threw => false
      case Returned(_) => true
    }

    /**
     * `sendHeartbeat`: posts only when at least 30 000 ms passed since the last successful
     * heartbeat; `lastHeartbeat` moves to `now` only when the post succeeded (a failed post is
     * swallowed).
     */
    method SendHeartbeat(now: int, accepted: bool) returns (posted: bool)
      modifies this`lastHeartbeat, this`Beats
      ensures old(HeartbeatsSpaced()) ==> HeartbeatsSpaced()
      ensures posted == (now - old(lastHeartbeat) >= HeartbeatInterval)
      ensures posted && accepted ==> lastHeartbeat == now && Beats == old(Beats) + [now]
      ensures !(posted && accepted) ==> lastHeartbeat == old(lastHeartbeat) && Beats == old(Beats)
    {
      posted := now - lastHeartbeat >= HeartbeatInterval;
      if posted && accepted {
        if HeartbeatsSpaced() {
          PacedAppend(createdAt, Beats, now);
        }
        lastHeartbeat := now;
        Beats := Beats + [now];
      }
    }

    /**
     * `processMusic`: resolves the duration, and when `playMusic` succeeds likes and comments (best
     * effort, results ignored), counts down one tick per second of duration, sending a heartbeat
     * and adding one second of listening per tick, then ends the song and reports true. When
     * `playMusic` fails nothing changes and it reports false.
     */
    method ProcessMusic(song: Song, svc: Service) returns (ok: bool)
      modifies this`totalListeningTime, this`lastHeartbeat, this`Beats
      ensures old(HeartbeatsSpaced()) ==> HeartbeatsSpaced()
      ensures ok == svc.playAccepted(song.id)
      ensures totalListeningTime == old(totalListeningTime) + Listening(svc, song)
      ensures var b := HeartbeatRun(old(lastHeartbeat), song.id, svc, Listening(svc, song));
              lastHeartbeat == b.last && Beats == old(Beats) + b.sent
    {
      var duration := ResolveDuration(svc.detailDuration(song.id), song.duration);
      if svc.playAccepted(song.id) {
        ghost var total0, beats0, last0 := totalListeningTime, Beats, lastHeartbeat;
        ghost var run := Beating(lastHeartbeat, []);
        var secondsPlayed: nat := 0;
        var timeLeft := duration;
        while timeLeft > 0
          invariant old(HeartbeatsSpaced()) ==> HeartbeatsSpaced()
          invariant timeLeft == duration - secondsPlayed && secondsPlayed <= TickCount(duration)
          invariant totalListeningTime == total0 + secondsPlayed
          invariant run == HeartbeatRun(last0, song.id, svc, secondsPlayed)
          invariant lastHeartbeat == run.last && Beats == beats0 + run.sent
          decreases timeLeft
        {
          var now, accepted := svc.clock(song.id, secondsPlayed), svc.heartbeatAccepted(song.id, secondsPlayed);
          var _ := SendHeartbeat(now, accepted);
          if now - run.last >= HeartbeatInterval && accepted {
            assert beats0 + (run.sent + [now]) == beats0 + run.sent + [now];
          }
          assert HeartbeatRun(last0, song.id, svc, secondsPlayed + 1) == Beat(run, now, accepted);
          run := Beat(run, now, accepted);
          secondsPlayed := secondsPlayed + 1;
          totalListeningTime := totalListeningTime + 1;
          timeLeft := timeLeft - 1;
        }
        ok := true;
      } else {
        ok := false;
      }
    }

    /**
     * One iteration of `performTasks` for a song not played yet while under the quota: mark it
     * played, process it, count it.
     */
    method PlayNewSong(song: Song, svc: Service)
      requires Counted() && songCount < songsToPlay && song.id !in playedSongs
      modifies this`playedSongs, this`Processed, this`songCount
      modifies this`totalListeningTime, this`lastHeartbeat, this`Beats
      ensures Counted()
      ensures old(HeartbeatsSpaced()) ==> HeartbeatsSpaced()
      ensures Books() == Record(old(Books()), svc, song)
      ensures Heartbeats() == SongBeats(old(Heartbeats()), svc, song)
      ensures old(Beats) <= Beats
    {
      ghost var books0 := Books();
      playedSongs := playedSongs + {song.id};
      Processed := Processed + [song];
      var _ := ProcessMusic(song, svc);
      songCount := songCount + 1;
      assert |playedSongs| == |books0.played| + 1;
      assert Books() == Record(books0, svc, song);
      IdsAppend(books0.processed, song);
    }

    /**
     * The `for` loop of `performTasks`: stops at the quota, skips a played id, and plays any other
     * song. It leaves the bookkeeping and heartbeat state `PlayFrom` and `BeatsFrom` give.
     */
    method PlayCandidates(songs: seq<Song>, svc: Service)
      requires Counted()
      modifies this`playedSongs, this`Processed, this`songCount
      modifies this`totalListeningTime, this`lastHeartbeat, this`Beats
      ensures Counted()
      ensures Books() == PlayFrom(old(Books()), svc, songs, 0)
      ensures Heartbeats() == BeatsFrom(old(Books()), old(Heartbeats()), svc, songs, 0)
    {
      ghost var target := PlayFrom(old(Books()), svc, songs, 0);
      ghost var beatTarget := BeatsFrom(old(Books()), old(Heartbeats()), svc, songs, 0);
      var i := 0;
      while i < |songs| && songCount < songsToPlay
        invariant i <= |songs|
        invariant Counted()
        invariant PlayFrom(Books(), svc, songs, i) == target
        invariant BeatsFrom(Books(), Heartbeats(), svc, songs, i) == beatTarget
      {
        var song := songs[i];
        if song.id !in playedSongs {
          PlayNewSong(song, svc);
        }
        i := i + 1;
      }
    }

    /**
     * `performTasks` over the recommended songs (an empty list when the request failed): plays the
     * songs `Pick` selects, in order, each exactly once; the count rises by one per played song
     * whether or not `processMusic` succeeded, listening time only for the successful ones.
     */
    method PerformTasks(songs: seq<Song>, svc: Service)
      requires Counted() && HeartbeatsSpaced()
      modifies this`playedSongs, this`Processed, this`songCount
      modifies this`totalListeningTime, this`lastHeartbeat, this`Beats
      ensures Counted() && HeartbeatsSpaced()
      ensures old(Valid()) ==> Valid()
      ensures var picks := Pick(old(playedSongs), songsToPlay - old(songCount), songs);
              && Books() == Account(old(Books()), svc, picks)
              && lastHeartbeat == BeatRuns(old(lastHeartbeat), svc, picks).last
              && Beats == old(Beats) + BeatRuns(old(lastHeartbeat), svc, picks).sent
      ensures old(Beats) <= Beats
    {
      ghost var books0, beats0 := Books(), Heartbeats();
      PlayCandidates(songs, svc);
      TasksDone(books0, Books(), beats0, Heartbeats(), svc, songs);
      PacedRuns(createdAt, beats0, svc, Pick(books0.played, SongsToPlay - books0.count, songs));
    }
  }
}
