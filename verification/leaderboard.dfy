/**
 * The Tetris hall of fame: the first ten scores the server returns, shown
 * with 1-based ranks, upper-cased names with an `ANON` fallback, and a
 * React key per row.
 */
module Leaderboard {
  import opened Js

  const MaxShown := 10
  const Anonymous := "ANON"

  /** A leaderboard entry as the server sends it; every field may be missing. */
  datatype Entry = Entry(id: Js<int>, username: Js<string>, createdAt: Js<string>, score: int)

  /** The React key: the id when it is not nullish, otherwise `${username}-${created_at}`. */
  datatype RowKey = IdKey(id: int) | TextKey(text: string)

  datatype Row = Row(rank: nat, shown: string, key: RowKey, score: int)

  /**
   * `fetchScores`: a reply keeps its first ten entries in server order; a
   * failure keeps the list already shown.
   */
  function ScoresAfterFetch(shown: seq<Entry>, reply: Reply<seq<Entry>>): (r: seq<Entry>)
    ensures reply.Failed? ==> r == shown
    ensures reply.Ok? ==> |r| == if |reply.value| < MaxShown then |reply.value| else MaxShown
    ensures reply.Ok? ==> r == reply.value[..|r|]
  {
    match reply
    case Ok(data) => if |data| <= MaxShown then data else data[..MaxShown]
    case Failed => shown
  }

  /** The state starts empty, so a failed fetch shows nothing. */
  lemma FailedFetchShowsNothing()
    ensures ScoresAfterFetch([], Failed) == []
  {
  }

  /** The name shown before upper-casing: the username, or `ANON` when it is missing or empty. */
  function DisplayName(e: Entry): (name: string)
    ensures TruthyString(e.username) ==> name == e.username.v
    ensures !TruthyString(e.username) ==> name == Anonymous
    ensures name != ""
  {
    OrElse(e.username, Anonymous)
  }

  /** The React key of a row: the id when it is not nullish, otherwise `${username}-${created_at}`. */
  function Key(e: Entry): (k: RowKey)
    ensures !e.id.Nullish() ==> k == IdKey(e.id.v)
    ensures e.id.Nullish() ==> k == TextKey(Interpolate(e.username) + "-" + Interpolate(e.createdAt))
  {
    if e.id.Val? then IdKey(e.id.v) else TextKey(Interpolate(e.username) + "-" + Interpolate(e.createdAt))
  }

  /**
   * React needs the keys of a list to be distinct: when the server sends
   * pairwise distinct ids, the rendered rows have pairwise distinct keys.
   */
  lemma DistinctIdsDistinctKeys(scores: seq<Entry>, upper: string -> string)
    requires forall i :: 0 <= i < |scores| ==> !scores[i].id.Nullish()
    requires forall i, j :: 0 <= i < j < |scores| ==> scores[i].id != scores[j].id
    ensures var rows := Rows(scores, upper);
            forall i, j :: 0 <= i < j < |rows| ==> rows[i].key != rows[j].key
  {
  }

  /**
   * The rendered rows, `upper` standing for `String.prototype.toUpperCase`:
   * one per entry in list order, ranked 1, 2, ..., n.
   */
  function Rows(scores: seq<Entry>, upper: string -> string): (rows: seq<Row>)
    ensures |rows| == |scores|
    ensures forall i :: 0 <= i < |rows| ==> rows[i].rank == i + 1
    ensures forall i :: 0 <= i < |rows| ==>
              rows[i].shown == upper(DisplayName(scores[i])) &&
              rows[i].key == Key(scores[i]) &&
              rows[i].score == scores[i].score
    decreases |scores|
  {
    if |scores| == 0 then []
    else
      var init := Rows(scores[..|scores| - 1], upper);
      var last := scores[|scores| - 1];
      init + [Row(|scores|, upper(DisplayName(last)), Key(last), last.score)]
  }

  /** Ranks are consecutive: each row is one place below the previous, starting at 1. */
  lemma RanksConsecutive(scores: seq<Entry>, upper: string -> string)
    ensures var rows := Rows(scores, upper);
            (|rows| > 0 ==> rows[0].rank == 1) &&
            forall i :: 0 < i < |rows| ==> rows[i].rank == rows[i - 1].rank + 1
  {
  }

  /** At most ten rows are shown after any fetch from an empty board, ranked from 1 to at most 10. */
  lemma ShownRowsBounded(reply: Reply<seq<Entry>>, upper: string -> string)
    ensures var rows := Rows(ScoresAfterFetch([], reply), upper);
            |rows| <= MaxShown && forall i :: 0 <= i < |rows| ==> 1 <= rows[i].rank <= MaxShown
  {
  }

  /** A missing or empty username is labelled with the upper-cased `ANON`; any other name is upper-cased itself. */
  lemma AnonymousFallback(e: Entry, upper: string -> string)
    ensures (e.username.Nullish() || e.username == Val("")) ==> Rows([e], upper)[0].shown == upper(Anonymous)
    ensures e.username.Val? && e.username.v != "" ==> Rows([e], upper)[0].shown == upper(e.username.v)
  {
  }

  /** The n-th shown row is the n-th entry of the server's list, for n up to ten. */
  lemma RowsFollowServerOrder(data: seq<Entry>, upper: string -> string, i: nat)
    requires i < |data| && i < MaxShown
    ensures var rows := Rows(ScoresAfterFetch([], Ok(data)), upper);
            && i < |rows|
            && rows[i].rank == i + 1
            && rows[i].shown == upper(DisplayName(data[i]))
            && rows[i].key == Key(data[i])
            && rows[i].score == data[i].score
  {
  }
}
