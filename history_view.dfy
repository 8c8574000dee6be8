/** The sidebar's view of the history: the newest ten records, newest first. */
module HistoryView {
  /** The smaller of two numbers. */
  function Min(a: int, b: int): (m: int)
  {
    if a <= b then a else b
  }

  /** How many records the sidebar shows. */
  const ViewSize := 10

  /** The last `n` elements of `s` in their original order
      (Python's `s[-n:]` for a positive `n`). */
  function Newest<T>(s: seq<T>, n: nat): (r: seq<T>)
    ensures |r| == Min(n, |s|)
    ensures forall j :: 0 <= j < |r| ==> r[j] == s[|s| - |r| + j]
  {
    if |s| <= n then s else s[|s| - n..]
  }

  /** Python's `reversed`. */
  function Reverse<T>(s: seq<T>): (r: seq<T>)
    ensures |r| == |s|
    ensures forall k :: 0 <= k < |s| ==> r[k] == s[|s| - 1 - k]
  {
    if s == [] then [] else [s[|s| - 1]] + Reverse(s[..|s| - 1])
  }

  /** The entries the sidebar lists, in display order. */
  function RecentView<T>(history: seq<T>): (v: seq<T>)
    ensures |v| == Min(ViewSize, |history|)
    ensures forall i :: 0 <= i < |v| ==> v[i] == history[|history| - 1 - i]
  {
    var tail := Newest(history, ViewSize);
    Reverse(tail)
  }

  /** The sidebar falls back to its "no predictions yet" notice exactly when
      there is nothing to list. */
  lemma RecentViewEmpty<T>(history: seq<T>)
    ensures RecentView(history) == [] <==> history == []
  {
  }

  /** Appending a record puts it at the top of the view and shifts the previous
      view down by one, dropping its oldest entry once the view is full. */
  lemma RecentViewAfterAppend<T>(history: seq<T>, r: T)
    ensures RecentView(history + [r]) == [r] + RecentView(history)[..Min(ViewSize - 1, |history|)]
  {
    NewestFirstShift(history, r, RecentView(history + [r]), RecentView(history));
  }

  /** The shift of `RecentViewAfterAppend`, for any two lists that list a
      history newest first before and after the append. */
  lemma NewestFirstShift<T>(history: seq<T>, r: T, after: seq<T>, before: seq<T>)
    requires |after| == Min(ViewSize, |history| + 1) && |before| == Min(ViewSize, |history|)
    requires forall i :: 0 <= i < |after| ==> after[i] == (history + [r])[|history| - i]
    requires forall i :: 0 <= i < |before| ==> before[i] == history[|history| - 1 - i]
    ensures after == [r] + before[..Min(ViewSize - 1, |history|)]
  {
    var expected := [r] + before[..Min(ViewSize - 1, |history|)];
    forall i | 0 < i < |after|
      ensures after[i] == expected[i]
    {
      assert before[i - 1] == history[|history| - i];
    }
  }
}
