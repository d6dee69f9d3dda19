/** What may happen elsewhere between the copies of a subtree rename and its commit. */
module Interleaving {
  import opened Layout
  import opened Paths
  import opened Companion
  import opened Protocol
  import opened Safety
  import opened Upkeep
  import opened History
  import opened Coherence
  import opened Pipeline

  /** Behind the barrier of a place only other places are changed, and files are moved as they are. */
  ghost predicate Spares(place: string, files: Files, ch: Changes) {
    (forall k :: k in ch ==> k.place != place) || Relocates(files, ch)
  }

  ghost predicate SparingRun(place: string, states: seq<State>, events: seq<Event>) {
    Run(states, events) && forall i :: 0 <= i < |events| && events[i].Flush? ==> Spares(place, states[i].index, events[i].changes)
  }

  /** The place has the same keys with the same bytes. */
  ghost predicate SamePlace(place: string, a: Files, b: Files) {
    forall k: Key :: k.place == place ==> (k in a <==> k in b) && (k in a ==> SameBytes(a[k], b[k]))
  }

  lemma SamePlaceThen(place: string, a: Files, b: Files, c: Files)
    requires SamePlace(place, a, b) && SamePlace(place, b, c)
    ensures SamePlace(place, a, c)
  {
    forall k | k in a && k.place == place ensures k in c && SameBytes(a[k], c[k]) {
      assert k in b && SameBytes(a[k], b[k]);
    }
  }

  lemma SparedFiles(place: string, files: Files, ch: Changes)
    requires Spares(place, files, ch)
    ensures SamePlace(place, files, After(files, ch))
  {
  }

  lemma FlushSpares(place: string, s: State, ch: Changes, ids: map<Key, nat>, owner: Option<Req>)
    requires Numbered(s, ch, ids) && Spares(place, s.index, ch)
    ensures SamePlace(place, s.index, Credited(s, Commit(s, ch, ids), owner).index)
  {
    hide Spares, SamePlace, Numbered, Commit, Vacuous, After, Added, Removed, Credited;
    CreditPast(s, Commit(s, ch, ids), owner);
    SparedFiles(place, s.index, ch);
    if Vacuous(s.index, ch) {
      VacuousFlush(s, ch, ids);
      SameFiles(place, s.index);
    } else {
      FlushPast(s, ch, ids);
      AfterIsCommitted(s.index, ch);
    }
  }

  lemma SameFiles(place: string, files: Files)
    ensures SamePlace(place, files, files)
  {
  }

  lemma EventSpares(place: string, s: State, ev: Event)
    requires Enabled(s, ev) && (ev.Flush? ==> Spares(place, s.index, ev.changes))
    ensures SamePlace(place, s.index, Next(s, ev).index)
  {
    if ev.Flush? {
      FlushSpares(place, s, ev.changes, ev.ids, ev.owner);
      hide Spares, SamePlace, Commit, Numbered, Publishable, Credited;
    } else {
      OthersKeepPast(s, ev);
      SameFiles(place, s.index);
      hide Enabled, Next, SamePlace;
    }
  }

  lemma {:induction false} RunSpares(place: string, states: seq<State>, events: seq<Event>, n: nat)
    requires SparingRun(place, states, events) && n <= |events|
    ensures SamePlace(place, states[0].index, states[n].index)
  {
    hide Enabled, Next, SamePlace, Spares;
    if n == 0 {
      SameFiles(place, states[0].index);
    } else {
      RunSpares(place, states, events, n - 1);
      EventSpares(place, states[n - 1], events[n - 1]);
      SamePlaceThen(place, states[0].index, states[n - 1].index, states[n].index);
    }
  }

  lemma SameMoving(place: string, a: Files, b: Files, from: string)
    requires SamePlace(place, a, b)
    ensures MovingKeys(b, place, from) == MovingKeys(a, place, from)
  {
    hide Under;
  }

  /** The list of moves, and the copies made so far, are as good in the later index. */
  lemma MovesSurvive(a: Files, b: Files, place: string, from: string, to: string, moves: seq<(Key, Key)>, made: seq<(Key, Entry)>)
    requires TreeMoves(a, place, from, to, moves) && CopiesOf(a, moves, made) && SamePlace(place, a, b)
    ensures TreeMoves(b, place, from, to, moves) && CopiesOf(b, moves, made)
  {
    SameMoving(place, a, b, from);
    forall i | 0 <= i < |made| ensures moves[i].0 in b && SameBytes(b[moves[i].0], made[i].1) {
      assert moves[i].0 in MovingKeys(a, place, from);
      assert SameBytes(a[moves[i].0], b[moves[i].0]) && SameBytes(a[moves[i].0], made[i].1);
    }
    forall k | k in b && k.place == place ensures !Under(SourceOf(k.name), to) {
      assert k in a;
    }
    hide MovingKeys, SameBytes, Image, Under;
  }

  /** One copy more, made in the later index. */
  lemma CopyMade(b: Files, moves: seq<(Key, Key)>, made: seq<(Key, Entry)>, e: Entry)
    requires CopiesOf(b, moves, made) && |made| < |moves| && moves[|made|].0 in b && SameBytes(b[moves[|made|].0], e)
    ensures CopiesOf(b, moves, made + [(moves[|made|].1, e)])
  {
    hide SameBytes;
  }

  /**
   * Acknowledgements, frees, compactions, readers, and publications of other places may come between
   * the last copy and the commit: the changes are then still a shift of the subtree, so the commit
   * keeps every index coherent.
   */
  lemma ShiftAtCommit(states: seq<State>, events: seq<Event>, n: nat, setup: Setup, place: string, from: string, to: string,
      moves: seq<(Key, Key)>, made: seq<(Key, Entry)>, ch: Changes)
    requires SparingRun(place, states, events) && n <= |events|
    requires TreeMoves(states[0].index, place, from, to, moves) && CopiesOf(states[0].index, moves, made) && |made| == |moves|
    requires StagedMoves(ch, moves, made, |moves|)
    ensures Shifts(states[n].index, ch, place, from, to) && Grouped(setup, states[n].index, ch)
  {
    RunSpares(place, states, events, n);
    hide SparingRun, Run, TreeMoves, CopiesOf, StagedMoves, SamePlace, Shifts, Grouped;
    MovesSurvive(states[0].index, states[n].index, place, from, to, moves, made);
    StagedIsShift(states[n].index, ch, place, from, to, moves, made);
    ShiftGrouped(setup, states[n].index, ch, place, from, to);
  }
}
