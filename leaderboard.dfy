/** The persisted leaderboard: a map from player name to that player's best
    score (the JSON object stored under "flappyLeaderboard"), the upsert run
    at the end of every game, and the top-n view drawn on the game-over
    screen. */
module Leaderboard {

  type Board = map<string, int>

  /** One row of the top-n view: the `[name, score]` pair of `Object.entries`. */
  datatype Entry = Entry(name: string, score: int)

  function Max(a: int, b: int): int
  {
    if a >= b then a else b
  }

  function Min(a: int, b: int): int
  {
    if a <= b then a else b
  }

  /** Records `score` for `name`. The stored value is replaced when the name is
      absent, when the stored value is falsy (that is, 0) or when `score` beats
      it; every other name keeps its entry. For the non-negative scores the
      game produces, this keeps the best score per name. */
  function SaveScore(board: Board, name: string, score: int): (r: Board)
    ensures r.Keys == board.Keys + {name}
    ensures forall k :: k in board && k != name ==> r[k] == board[k]
    ensures score >= 0 ==> r[name] == if name in board then Max(board[name], score) else score
  {
    if name !in board || board[name] == 0 || score > board[name] then board[name := score] else board
  }

  /** Recording the same result twice leaves the same board as recording it
      once, so repeated end-of-run calls within one frame agree. */
  lemma SaveScoreIdempotent(board: Board, name: string, score: int)
    ensures SaveScore(SaveScore(board, name, score), name, score) == SaveScore(board, name, score)
  {
  }

  // ----- entries and their enumeration order -----

  /** `order` lists every name of `board` exactly once: the order in which
      `Object.entries` enumerates the object's keys. */
  ghost predicate IsEnumeration(order: seq<string>, board: Board)
  {
    && (forall i, j :: 0 <= i < j < |order| ==> order[i] != order[j])
    && (forall k :: k in board <==> k in order)
  }

  /** `Object.entries` of the board, in the enumeration order `order`: every
      stored pair exactly once, and nothing else. */
  function Entries(board: Board, order: seq<string>): (es: seq<Entry>)
    requires IsEnumeration(order, board)
    ensures |es| == |order| == |board|
    ensures forall k :: k in board ==> Entry(k, board[k]) in es
    ensures forall e :: e in es ==> e.name in board && board[e.name] == e.score
    ensures forall i, j :: 0 <= i < j < |es| ==> es[i].name != es[j].name
    ensures forall i :: 0 <= i < |es| ==> es[i].name == order[i]
  {
    EnumerationSize(order, board.Keys);
    var es := seq(|order|, i requires 0 <= i < |order| => Entry(order[i], board[order[i]]));
    assert forall k :: k in board ==> Entry(k, board[k]) in es by {
      forall k | k in board ensures Entry(k, board[k]) in es {
        var i :| 0 <= i < |order| && order[i] == k;
        assert es[i] == Entry(k, board[k]);
      }
    }
    es
  }

  /** A list of distinct names has as many elements as the set it enumerates. */
  lemma {:induction false} EnumerationSize(order: seq<string>, names: set<string>)
    requires forall i, j :: 0 <= i < j < |order| ==> order[i] != order[j]
    requires forall k :: k in names <==> k in order
    ensures |names| == |order|
    decreases |order|
  {
    if order != [] {
      var last := order[|order| - 1];
      var rest := order[..|order| - 1];
      forall k | k in names - {last} ensures k in rest {
        var i :| 0 <= i < |order| && order[i] == k;
        assert rest[i] == k;
      }
      forall k | k in rest ensures k in names - {last} {
        var i :| 0 <= i < |rest| && rest[i] == k;
        assert order[i] == k;
      }
      EnumerationSize(rest, names - {last});
    }
  }

  // ----- stable sort by descending score -----

  predicate SortedDesc(es: seq<Entry>)
  {
    forall i, j :: 0 <= i < j < |es| ==> es[i].score >= es[j].score
  }

  /** The entries of `es` whose score is `v`, in their order in `es`. */
  function WithScore(es: seq<Entry>, v: int): seq<Entry>
  {
    if es == [] then []
    else (if es[0].score == v then [es[0]] else []) + WithScore(es[1..], v)
  }

  /** Puts `e` in front of the first entry whose score does not exceed its own. */
  function Insert(e: Entry, es: seq<Entry>): (r: seq<Entry>)
    ensures multiset(r) == multiset(es) + multiset{e}
    ensures r[0] == e || r[0] == es[0]
  {
    if es == [] || e.score >= es[0].score then [e] + es
    else
      assert es == [es[0]] + es[1..];
      [es[0]] + Insert(e, es[1..])
  }

  /** Inserting into a sorted list keeps it sorted. */
  lemma {:induction false} InsertSorted(e: Entry, es: seq<Entry>)
    requires SortedDesc(es)
    ensures SortedDesc(Insert(e, es))
  {
    if es != [] && e.score < es[0].score {
      var rest := Insert(e, es[1..]);
      InsertSorted(e, es[1..]);
      assert rest[0].score <= es[0].score;
      forall j | 0 <= j < |rest| ensures rest[j].score <= es[0].score {
        assert rest[0].score >= rest[j].score;
      }
      assert Insert(e, es) == [es[0]] + rest;
    }
  }

  /** Insertion sort by descending score, as `arr.sort((a,b) => b[1]-a[1])`:
      the result is a sorted permutation of the input. */
  function SortByScore(es: seq<Entry>): (r: seq<Entry>)
    ensures |r| == |es|
    ensures multiset(r) == multiset(es)
    ensures SortedDesc(r)
  {
    if es == [] then []
    else
      assert es == [es[0]] + es[1..];
      var r := Insert(es[0], SortByScore(es[1..]));
      InsertSorted(es[0], SortByScore(es[1..]));
      assert |multiset(r)| == |multiset(es)|;
      r
  }

  /** Inserting `e` keeps the entries of every score in their order, with `e`
      ahead of those of its own score. */
  lemma {:induction false} InsertStable(e: Entry, es: seq<Entry>, v: int)
    ensures WithScore(Insert(e, es), v) == if e.score == v then [e] + WithScore(es, v) else WithScore(es, v)
  {
    if es == [] || e.score >= es[0].score {
      assert ([e] + es)[1..] == es;
    } else {
      InsertStable(e, es[1..], v);
      assert ([es[0]] + Insert(e, es[1..]))[1..] == Insert(e, es[1..]);
    }
  }

  /** The sort is stable: entries with equal scores stay in their original order. */
  lemma {:induction false} SortStable(es: seq<Entry>, v: int)
    ensures WithScore(SortByScore(es), v) == WithScore(es, v)
  {
    if es != [] {
      var rest := SortByScore(es[1..]);
      assert SortByScore(es) == Insert(es[0], rest);
      SortStable(es[1..], v);
      InsertStable(es[0], rest, v);
      assert WithScore(es, v) == (if es[0].score == v then [es[0]] else []) + WithScore(es[1..], v);
    }
  }

  /** The entries of a given score in a prefix are a prefix of those in the whole. */
  lemma {:induction false} WithScorePrefix(es: seq<Entry>, m: nat, v: int)
    requires m <= |es|
    ensures WithScore(es[..m], v) <= WithScore(es, v)
  {
    if m > 0 {
      WithScorePrefix(es[1..], m - 1, v);
      assert es[..m][1..] == es[1..][..m - 1];
    }
  }

  // ----- the top-n view -----

  /** `getTopLeaderboard(n)`: the entries of the board, in enumeration order
      `order`, stably sorted by descending score, cut after the first `n`. */
  function TopLeaderboard(board: Board, order: seq<string>, n: nat): (top: seq<Entry>)
    requires IsEnumeration(order, board)
    ensures |top| == Min(n, |board|)
    ensures SortedDesc(top)
    ensures forall e :: e in top ==> e.name in board && board[e.name] == e.score
    ensures forall k :: k in board && Entry(k, board[k]) !in top ==>
              forall e :: e in top ==> board[k] <= e.score
    ensures multiset(top) <= multiset(Entries(board, order))
  {
    var sorted := SortByScore(Entries(board, order));
    assert sorted == sorted[..Min(n, |sorted|)] + sorted[Min(n, |sorted|)..];
    SortedPrefix(board, order, sorted, Min(n, |sorted|));
    sorted[..Min(n, |sorted|)]
  }

  /** A prefix of any sorted permutation of the entries holds only stored pairs,
      and every pair it leaves out scores no higher than every pair it keeps. */
  lemma SortedPrefix(board: Board, order: seq<string>, sorted: seq<Entry>, m: nat)
    requires IsEnumeration(order, board)
    requires multiset(sorted) == multiset(Entries(board, order)) && SortedDesc(sorted)
    requires m <= |sorted|
    ensures SortedDesc(sorted[..m])
    ensures forall e :: e in sorted[..m] ==> e.name in board && board[e.name] == e.score
    ensures forall k :: k in board && Entry(k, board[k]) !in sorted[..m] ==>
              forall e :: e in sorted[..m] ==> board[k] <= e.score
  {
    var entries := Entries(board, order);
    forall e | e in sorted[..m] ensures e.name in board && board[e.name] == e.score {
      assert e in multiset(entries);
    }
    forall k | k in board && Entry(k, board[k]) !in sorted[..m]
      ensures forall e :: e in sorted[..m] ==> board[k] <= e.score
    {
      assert Entry(k, board[k]) in multiset(sorted);
      var p :| 0 <= p < |sorted| && sorted[p] == Entry(k, board[k]);
      assert p >= m;
    }
  }

  /** Among the rows shown, players with equal scores appear in enumeration order. */
  lemma TopLeaderboardStable(board: Board, order: seq<string>, n: nat, v: int)
    requires IsEnumeration(order, board)
    ensures WithScore(TopLeaderboard(board, order, n), v) <= WithScore(Entries(board, order), v)
  {
    var sorted := SortByScore(Entries(board, order));
    WithScorePrefix(sorted, Min(n, |sorted|), v);
    SortStable(Entries(board, order), v);
  }
}
