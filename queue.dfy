/** The per-guild playlist: an ordered list of tracks, a cursor and a repeat
    mode. `QueueState` is its value, with the read-only properties of the
    queue as functions; `Queue` is the object the player owns, whose methods
    change the list and the cursor in place. */
module Queues {
  import opened Errors
  import PySeq

  /** A track as returned by the search service; the queue never looks inside. */
  datatype Track = Track(id: string, title: string, author: string, length: nat)

  /** RepeatMode.NONE, RepeatMode.ONE and RepeatMode.ALL. */
  datatype RepeatMode = Off | One | All

  /** The tokens of the repeat command, for NONE, ONE and ALL. */
  const OffToken: string := "없음"
  const OneToken: string := "현재"
  const AllToken: string := "전체"

  /** The mode `set_repeat_mode` leaves behind when the mode was `current`:
      the three tokens select their mode, and any other token changes nothing. */
  function ModeForToken(token: string, current: RepeatMode): (m: RepeatMode)
    ensures token == OffToken ==> m == Off
    ensures token == OneToken ==> m == One
    ensures token == AllToken ==> m == All
    ensures token != OffToken && token != OneToken && token != AllToken ==> m == current
  {
    if token == OffToken then Off
    else if token == OneToken then One
    else if token == AllToken then All
    else current
  }

  /** The token that selects a mode, as the help text lists them. */
  function TokenFor(m: RepeatMode): string
  {
    match m
    case Off => OffToken
    case One => OneToken
    case All => AllToken
  }

  /** Every mode is selected by its token, whatever the mode was before, and
      every accepted token is the token of the mode it selects. */
  lemma TokensSelectModes(m: RepeatMode, current: RepeatMode, token: string)
    ensures ModeForToken(TokenFor(m), current) == m
    ensures token in {OffToken, OneToken, AllToken} ==> TokenFor(ModeForToken(token, current)) == token
  {
    assert OffToken != OneToken && OffToken != AllToken && OneToken != AllToken by {
      assert OffToken[0] != OneToken[0] && OffToken[0] != AllToken[0] && OneToken[0] != AllToken[0];
    }
  }

  /** The value of a queue: its list, its cursor (which may be negative or
      past the end) and its repeat mode. */
  datatype QueueState = QueueState(items: seq<Track>, position: int, mode: RepeatMode)
  {
    /** `current_track`: the track under the cursor, `None` once the cursor is
        past the end, and Python's reading of a negative cursor from the end. */
    function CurrentTrack(): (r: Result<Option<Track>>)
      ensures r == Err(QueueIsEmpty) <==> items == []
      ensures items != [] && 0 <= position < |items| ==> r == Ok(Some(items[position]))
      ensures items != [] && -|items| <= position < 0 ==> r == Ok(Some(items[|items| + position]))
      ensures items != [] && position >= |items| ==> r == Ok(None)
      ensures items != [] && position < -|items| ==> r == Err(IndexError)
    {
      if items == [] then Err(QueueIsEmpty)
      else if position <= |items| - 1 then
        match PySeq.At(items, position)
        case Some(t) => Ok(Some(t))
        case None => Err(IndexError)
      else Ok(None)
    }

    /** `upcoming`: the tracks after the cursor, `items[position + 1:]`. */
    function Upcoming(): (r: Result<seq<Track>>)
      ensures r == Err(QueueIsEmpty) <==> items == []
      ensures items != [] && -1 <= position < |items| ==> r == Ok(items[position + 1..])
      ensures items != [] && position >= |items| ==> r == Ok([])
      ensures items != [] && -|items| - 1 <= position < -1 ==> r == Ok(items[|items| + position + 1..])
      ensures items != [] && position < -|items| - 1 ==> r == Ok(items)
    {
      if items == [] then Err(QueueIsEmpty) else Ok(PySeq.From(items, position + 1))
    }

    /** `history`: the tracks before the cursor, `items[:position]`. */
    function History(): (r: Result<seq<Track>>)
      ensures r == Err(QueueIsEmpty) <==> items == []
      ensures items != [] && 0 <= position <= |items| ==> r == Ok(items[..position])
      ensures items != [] && position > |items| ==> r == Ok(items)
      ensures items != [] && -|items| <= position < 0 ==> r == Ok(items[..|items| + position])
      ensures items != [] && position < -|items| ==> r == Ok([])
    {
      if items == [] then Err(QueueIsEmpty) else Ok(PySeq.Upto(items, position))
    }

    /** `get_next_track`: the track it returns and the queue it leaves. The
        cursor always moves on by one; only under ALL does running off the
        end wrap it to the first track. */
    function NextTrack(): (r: (Result<Option<Track>>, QueueState))
      ensures items == [] ==> r == (Err(QueueIsEmpty), this)
      ensures r.1.items == items && r.1.mode == mode
      ensures items != [] && position + 1 < 0 ==> r == (Ok(None), this.(position := position + 1))
      ensures items != [] && 0 <= position + 1 < |items| ==>
        r == (Ok(Some(items[position + 1])), this.(position := position + 1))
      ensures items != [] && position + 1 >= |items| && mode == All ==>
        r == (Ok(Some(items[0])), this.(position := 0))
      ensures items != [] && position + 1 >= |items| && mode != All ==>
        r == (Ok(None), this.(position := position + 1))
    {
      if items == [] then (Err(QueueIsEmpty), this)
      else
        var p := position + 1;
        if p < 0 then (Ok(None), this.(position := p))
        else if p > |items| - 1 then
          if mode == All then (Ok(Some(items[0])), this.(position := 0))
          else (Ok(None), this.(position := p))
        else (Ok(Some(items[p])), this.(position := p))
    }
  }

  /** The queue after `k` calls of `get_next_track`. */
  function AdvanceBy(s: QueueState, k: nat): (t: QueueState)
    ensures t.items == s.items && t.mode == s.mode
  {
    if k == 0 then s else AdvanceBy(s, k - 1).NextTrack().1
  }

  /** Whenever `get_next_track` returns a track, that track is then the
      queue's current track. */
  lemma NextTrackBecomesCurrent(s: QueueState)
    requires s.NextTrack().0.Ok? && s.NextTrack().0.value.Some?
    ensures s.NextTrack().1.CurrentTrack() == Ok(s.NextTrack().0.value)
  {
  }

  /** Under ALL the queue plays forever in a cycle: from a cursor on a track,
      `k` advances leave the cursor at (position + k) mod N, and the next
      advance returns the track after that, wrapping to the first. */
  lemma CycleUnderRepeatAll(s: QueueState, k: nat)
    requires s.mode == All && s.items != [] && 0 <= s.position < |s.items|
    ensures AdvanceBy(s, k).position == (s.position + k) % |s.items|
    ensures AdvanceBy(s, k).NextTrack().0 == Ok(Some(s.items[(s.position + k + 1) % |s.items|]))
  {
    CyclePosition(s, k);
    ModSuccessor(s.position + k, |s.items|);
  }

  /** The cursor half of CycleUnderRepeatAll, by induction on `k`. */
  lemma {:induction false} CyclePosition(s: QueueState, k: nat)
    requires s.mode == All && s.items != [] && 0 <= s.position < |s.items|
    ensures AdvanceBy(s, k).position == (s.position + k) % |s.items|
  {
    var n := |s.items|;
    if k == 0 {
      DivModUnique(s.position, n, 0, s.position);
    } else {
      CyclePosition(s, k - 1);
      ModSuccessor(s.position + k - 1, n);
      var prev := AdvanceBy(s, k - 1);
      assert AdvanceBy(s, k) == prev.NextTrack().1;
      assert 0 <= prev.position < n;
    }
  }

  /** (a + 1) mod n is one more than a mod n, or 0 when that reaches n. */
  lemma ModSuccessor(a: nat, n: nat)
    requires n > 0
    ensures (a + 1) % n == if a % n + 1 == n then 0 else a % n + 1
  {
    var q := a / n;
    var r := a % n;
    assert a == q * n + r;
    if r + 1 == n {
      assert a + 1 == (q + 1) * n + 0;
      DivModUnique(a + 1, n, q + 1, 0);
    } else {
      assert a + 1 == q * n + (r + 1);
      DivModUnique(a + 1, n, q, r + 1);
    }
  }

  /** Euclidean division has a unique remainder. */
  lemma DivModUnique(a: int, n: int, q: int, r: int)
    requires n > 0 && 0 <= r < n && a == q * n + r
    ensures a % n == r
  {
    var q', r' := a / n, a % n;
    assert (q' - q) * n == r - r';
    if q' > q {
      MulAtLeast(q' - q, n);
    } else if q' < q {
      MulAtLeast(q - q', n);
    }
  }

  lemma MulAtLeast(d: int, n: int)
    requires d >= 1 && n > 0
    ensures d * n >= n
  {
  }

  /** Advancing `a + b` times is advancing `a` times and then `b` times. */
  lemma {:induction false} AdvanceByAdd(s: QueueState, a: nat, b: nat)
    ensures AdvanceBy(s, a + b) == AdvanceBy(AdvanceBy(s, a), b)
  {
    if b > 0 {
      AdvanceByAdd(s, a, b - 1);
      assert AdvanceBy(s, a + b) == AdvanceBy(s, a + b - 1).NextTrack().1;
    }
  }

  /** Under ALL, a full round of N advances gives back the same queue. */
  lemma FullCycleReturns(s: QueueState)
    requires s.mode == All && s.items != [] && 0 <= s.position < |s.items|
    ensures AdvanceBy(s, |s.items|) == s
  {
    CyclePosition(s, |s.items|);
    DivModUnique(s.position + |s.items|, |s.items|, 1, s.position);
    assert AdvanceBy(s, |s.items|).position == s.position;
  }

  /** Under ALL, what the queue does after `k + N` advances is what it does
      after `k`: the cycle repeats with period N. */
  lemma RepeatAllIsPeriodic(s: QueueState, k: nat)
    requires s.mode == All && s.items != [] && 0 <= s.position < |s.items|
    ensures AdvanceBy(s, k + |s.items|) == AdvanceBy(s, k)
  {
    AdvanceByAdd(s, |s.items|, k);
    FullCycleReturns(s);
  }

  /** Without ALL the queue plays straight through and then stays finished:
      from a cursor at or after -1, `k` advances move the cursor by exactly
      `k`, and the next advance returns the following track while there is
      one and `None` at every call after that. */
  lemma {:induction false} PlayThroughWithoutRepeatAll(s: QueueState, k: nat)
    requires s.mode != All && s.items != [] && s.position >= -1
    ensures AdvanceBy(s, k).position == s.position + k
    ensures AdvanceBy(s, k).NextTrack().0 ==
      if s.position + k + 1 < |s.items| then Ok(Some(s.items[s.position + k + 1])) else Ok(None)
  {
    if k > 0 {
      PlayThroughWithoutRepeatAll(s, k - 1);
    }
  }

  /** Skip-to sets the cursor to `index - 2`, so the advance that follows
      returns the `index`-th track (counting from 1), and nothing for 0. */
  lemma SkipToLandsOnIndex(s: QueueState, index: int)
    requires s.items != [] && 0 <= index <= |s.items|
    ensures s.(position := index - 2).NextTrack() ==
      if index == 0 then (Ok(None), s.(position := -1))
      else (Ok(Some(s.items[index - 1])), s.(position := index - 1))
  {
  }

  /** The history is non-empty exactly when the cursor is at 1 or beyond, or
      negative but within the list (Python reads it from the end). */
  lemma HistoryNonEmpty(s: QueueState)
    requires s.items != []
    ensures s.History().value != [] <==> s.position >= 1 || -|s.items| < s.position < 0
  {
  }

  /** Previous moves the cursor back by two, so the advance that follows
      returns the track just before the old cursor when the cursor was on a
      track or one past the end; from further out it wraps (ALL) or returns
      nothing, and from a negative cursor it returns nothing. */
  lemma PreviousStepsBackOne(s: QueueState)
    requires s.History().Ok? && s.History().value != []
    ensures var r := s.(position := s.position - 2).NextTrack().0;
      && (1 <= s.position <= |s.items| ==> r == Ok(Some(s.items[s.position - 1])))
      && (s.position > |s.items| ==> r == if s.mode == All then Ok(Some(s.items[0])) else Ok(None))
      && (s.position < 0 ==> r == Ok(None))
  {
    HistoryNonEmpty(s);
  }

  /** Skip is only allowed with upcoming tracks; the advance that follows its
      stop then returns the track after the cursor when the cursor is at or
      after -1, and nothing when the cursor is further below. */
  lemma SkipPlaysUpcoming(s: QueueState)
    requires s.Upcoming().Ok? && s.Upcoming().value != []
    ensures s.position >= -1 ==> s.NextTrack().0 == Ok(Some(s.Upcoming().value[0]))
    ensures s.position < -1 ==> s.NextTrack().0 == Ok(None)
  {
  }

  /** `add` keeps the view from a cursor that is on a track: the current
      track and the history stay, and the new tracks join the upcoming ones. */
  lemma AddKeepsCursorView(s: QueueState, tracks: seq<Track>)
    requires 0 <= s.position < |s.items|
    ensures var t := s.(items := s.items + tracks);
      && t.CurrentTrack() == s.CurrentTrack()
      && t.History() == s.History()
      && t.Upcoming() == Ok(s.Upcoming().value + tracks)
  {
    var t := s.(items := s.items + tracks);
    assert t.items[s.position + 1..] == s.items[s.position + 1..] + tracks;
    assert t.items[..s.position] == s.items[..s.position];
  }

  /** Once the queue has run off its end the cursor sits one past the last
      track, so the first track `add` appends lands exactly under it. */
  lemma AddAfterFinishFillsCursor(s: QueueState, tracks: seq<Track>)
    requires s.position == |s.items| && tracks != []
    ensures s.(items := s.items + tracks).CurrentTrack() == Ok(Some(tracks[0]))
  {
  }

  /** With the cursor at -1 Python reads the last track as current, so `add`
      changes the current track to the last track added. */
  lemma AddMovesNegativeCursor(s: QueueState, tracks: seq<Track>)
    requires s.position == -1 && tracks != []
    ensures s.(items := s.items + tracks).CurrentTrack() == Ok(Some(tracks[|tracks| - 1]))
  {
  }

  /** What `shuffle` may leave behind: the list up to and including the
      cursor (`items[:position + 1]`) unchanged, and after it a reordering
      of the old upcoming tracks. */
  ghost predicate IsShuffleOf(s: QueueState, shuffled: seq<Track>)
  {
    var k := PySeq.SliceBound(|s.items|, s.position + 1);
    && |shuffled| == |s.items|
    && shuffled[..k] == s.items[..k]
    && multiset(shuffled[k..]) == multiset(s.items[k..])
  }

  /** A shuffle keeps the current track and the history, reorders only the
      upcoming tracks, and keeps the whole list's multiset of tracks: for
      every cursor except -1 (see ShuffleAtMinusOneMovesCurrent). */
  lemma ShuffleKeepsCursorView(s: QueueState, shuffled: seq<Track>)
    requires s.items != [] && s.position != -1 && IsShuffleOf(s, shuffled)
    ensures var t := s.(items := shuffled);
      && t.CurrentTrack() == s.CurrentTrack()
      && t.History() == s.History()
      && multiset(t.Upcoming().value) == multiset(s.Upcoming().value)
      && multiset(shuffled) == multiset(s.items)
  {
    var k := PySeq.SliceBound(|s.items|, s.position + 1);
    PySeq.UptoFrom(s.items, s.position + 1);
    PySeq.UptoFrom(shuffled, s.position + 1);
    ShuffleKeepsCurrent(s, shuffled);
    ShuffleKeepsHistory(s, shuffled);
  }

  lemma ShuffleKeepsCurrent(s: QueueState, shuffled: seq<Track>)
    requires s.items != [] && s.position != -1 && IsShuffleOf(s, shuffled)
    ensures s.(items := shuffled).CurrentTrack() == s.CurrentTrack()
  {
    var n := |s.items|;
    var k := PySeq.SliceBound(n, s.position + 1);
    if 0 <= s.position < n {
      assert shuffled[s.position] == shuffled[..k][s.position];
    } else if -n <= s.position < -1 {
      assert shuffled[n + s.position] == shuffled[..k][n + s.position];
    }
  }

  lemma ShuffleKeepsHistory(s: QueueState, shuffled: seq<Track>)
    requires s.items != [] && s.position != -1 && IsShuffleOf(s, shuffled)
    ensures s.(items := shuffled).History() == s.History()
  {
    var n := |s.items|;
    var k := PySeq.SliceBound(n, s.position + 1);
    var h := PySeq.SliceBound(n, s.position);
    assert h <= k;
    assert shuffled[..h] == shuffled[..k][..h];
    assert s.items[..h] == s.items[..k][..h];
  }

  /** At cursor -1 the kept prefix `items[:0]` is empty, so the whole list is
      reshuffled, while Python reads the last track as the current one: a
      shuffle of [a, b] may leave [b, a], moving the current track from b to a. */
  lemma ShuffleAtMinusOneMovesCurrent(a: Track, b: Track)
    requires a != b
    ensures var s := QueueState([a, b], -1, Off);
      && IsShuffleOf(s, [b, a])
      && s.CurrentTrack() == Ok(Some(b))
      && s.(items := [b, a]).CurrentTrack() == Ok(Some(a))
  {
    var s := QueueState([a, b], -1, Off);
    assert PySeq.SliceBound(2, 0) == 0;
    assert multiset([b, a]) == multiset([a, b]);
  }

  /** The queue object of a player: `_queue`, `position` and `repeat_mode`. */
  class Queue {
    var items: seq<Track>
    var position: int
    var repeatMode: RepeatMode

    /** The value of this queue. */
    function State(): QueueState
      reads this
    {
      QueueState(items, position, repeatMode)
    }

    constructor ()
      ensures items == [] && position == 0 && repeatMode == Off
    {
      items := [];
      position := 0;
      repeatMode := Off;
    }

    /** `add(*args)`: appends the tracks in order; cursor and mode stay. */
    method Add(tracks: seq<Track>)
      modifies this`items
      ensures items == old(items) + tracks
      ensures position == old(position) && repeatMode == old(repeatMode)
    {
      items := items + tracks;
    }

    /** `get_next_track` */
    method GetNextTrack() returns (r: Result<Option<Track>>)
      modifies this`position
      ensures (r, State()) == old(State()).NextTrack()
    {
      if items == [] {
        return Err(QueueIsEmpty);
      }
      position := position + 1;
      if position < 0 {
        return Ok(None);
      } else if position > |items| - 1 {
        if repeatMode == All {
          position := 0;
        } else {
          return Ok(None);
        }
      }
      r := Ok(Some(items[position]));
    }

    /** `shuffle`: reorders the upcoming tracks in some order the random
        source picks; the tracks up to the cursor and the cursor stay. */
    method Shuffle() returns (r: Result<()>)
      modifies this`items
      ensures old(items) == [] ==> r == Err(QueueIsEmpty) && items == old(items)
      ensures old(items) != [] ==> r == Ok(()) && IsShuffleOf(old(State()), items)
      ensures position == old(position) && repeatMode == old(repeatMode)
    {
      if items == [] {
        return Err(QueueIsEmpty);
      }
      var upcoming := PySeq.From(items, position + 1);
      var reordered :| multiset(reordered) == multiset(upcoming);
      ghost var k := PySeq.SliceBound(|items|, position + 1);
      items := PySeq.Upto(items, position + 1) + reordered;
      assert items[..k] == old(items)[..k];
      assert items[k..] == reordered;
      assert |reordered| == |upcoming| by {
        assert |multiset(reordered)| == |multiset(upcoming)|;
      }
      r := Ok(());
    }

    /** `set_repeat_mode` */
    method SetRepeatMode(token: string)
      modifies this`repeatMode
      ensures repeatMode == ModeForToken(token, old(repeatMode))
    {
      if token == OffToken {
        repeatMode := Off;
      } else if token == OneToken {
        repeatMode := One;
      } else if token == AllToken {
        repeatMode := All;
      }
    }

    /** `empty`: clears the list and rewinds the cursor; the mode stays. */
    method Empty()
      modifies this`items, this`position
      ensures items == [] && position == 0 && repeatMode == old(repeatMode)
    {
      items := [];
      position := 0;
    }
  }
}
