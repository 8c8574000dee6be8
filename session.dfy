/** The per-session state of the prediction page and the three things that
    change it: the initialisation at the top of every script run, the
    "Clear History" button and the "Predict" button. */
module Session {
  import opened Wrappers
  import opened Prediction

  /** The two keys of the session store. `Missing` is a key that was never
      written; `Stored(None)` is the "no current prediction" value. */
  datatype Store = Store(history: Key<seq<Record>>, current: Key<Option<Record>>)

  /** The store of a session that has not run the script yet. */
  const FreshStore := Store(Missing, Missing)

  /** Both keys are present, so the handlers can read them. */
  predicate Ready(s: Store)
  {
    s.history.Stored? && s.current.Stored?
  }

  function Last<T>(s: seq<T>): (x: T)
    requires s != []
  {
    s[|s| - 1]
  }

  /** The state invariant: no current prediction exactly when the history is
      empty, and otherwise the current prediction is the newest record. */
  predicate Coherent(s: Store)
  {
    Ready(s) &&
    (s.current.value.None? <==> s.history.value == []) &&
    (s.history.value != [] ==> s.current.value == Some(Last(s.history.value)))
  }

  /** The initialisation: each key gets its default only when it is absent. */
  function Initialized(s: Store): (t: Store)
    ensures Ready(t)
    ensures s.history.Stored? ==> t.history == s.history
    ensures s.current.Stored? ==> t.current == s.current
    ensures s.history.Missing? ==> t.history == Stored([])
    ensures s.current.Missing? ==> t.current == Stored(None)
    ensures Ready(s) ==> t == s
    ensures (s == FreshStore || Coherent(s)) ==> Coherent(t)
  {
    Store(if s.history.Missing? then Stored([]) else s.history,
          if s.current.Missing? then Stored(None) else s.current)
  }

  /** The "Clear History" button. */
  function Cleared(s: Store): (t: Store)
    ensures Coherent(t)
    ensures t.history == Stored([]) && t.current == Stored(None)
  {
    Store(Stored([]), Stored(None))
  }

  /** The "Predict" button: an empty name is refused and nothing changes;
      otherwise the new record is appended and becomes the current one. */
  function Submitted(s: Store, sub: Submission): (t: Store)
    requires Ready(s)
    ensures Ready(t)
    ensures sub.name == "" ==> t == s
    ensures sub.name != "" ==>
      |t.history.value| == |s.history.value| + 1 &&
      t.history.value[..|s.history.value|] == s.history.value &&
      Last(t.history.value) == BuildRecord(sub) &&
      t.current == Stored(Some(Last(t.history.value)))
    ensures Coherent(s) ==> Coherent(t)
  {
    if sub.name == "" then s
    else
      var record := BuildRecord(sub);
      Store(Stored(s.history.value + [record]), Stored(Some(record)))
  }

  /** What the user did to trigger a run of the script: nothing (the first
      load or any other widget change), one of the two buttons, or the predict
      button with a non-empty name where the classifier raised, which ends the
      run before the history is touched. */
  datatype Action = NoClick | ClearClicked | PredictClicked(sub: Submission) | PredictFailed

  /** One run of the script: the initialisation first, then the handler of the
      button that was clicked. */
  function AfterRerun(s: Store, a: Action): (t: Store)
    ensures (s == FreshStore || Coherent(s)) ==> Coherent(t)
    ensures (a.NoClick? || a.PredictFailed?) ==> t == Initialized(s)
  {
    var ready := Initialized(s);
    match a
    case NoClick => ready
    case ClearClicked => Cleared(ready)
    case PredictClicked(sub) => Submitted(ready, sub)
    case PredictFailed => ready
  }

  /** The store after a session has gone through the given runs, in order. */
  function Replay(actions: seq<Action>): (t: Store)
    ensures actions == [] ==> t == FreshStore
    ensures actions != [] ==> Coherent(t)
  {
    if actions == [] then FreshStore
    else AfterRerun(Replay(actions[..|actions| - 1]), actions[|actions| - 1])
  }

  /** The records a sequence of runs leaves in the history, defined from the
      actions alone: every accepted submission since the last clear, oldest first. */
  function Logged(actions: seq<Action>): (records: seq<Record>)
  {
    if actions == [] then []
    else
      var earlier := Logged(actions[..|actions| - 1]);
      match actions[|actions| - 1]
      case NoClick => earlier
      case ClearClicked => []
      case PredictClicked(sub) => if sub.name == "" then earlier else earlier + [BuildRecord(sub)]
      case PredictFailed => earlier
  }

  /** The history is append-only between clears: after any runs it holds
      exactly the accepted submissions since the last clear, in order. */
  lemma {:induction false} ReplayHistory(actions: seq<Action>)
    requires actions != []
    ensures Replay(actions).history == Stored(Logged(actions))
  {
    var earlier := actions[..|actions| - 1];
    if earlier != [] {
      ReplayHistory(earlier);
    }
  }

  /** Clearing twice is clearing once. */
  lemma ClearIdempotent(s: Store)
    ensures Cleared(Cleared(s)) == Cleared(s)
  {
  }

  /** The store of one browser session, updated in place by the script. */
  class Session {
    var history: Key<seq<Record>>
    var current: Key<Option<Record>>

    function Snapshot(): (s: Store)
      reads this
    {
      Store(history, current)
    }

    /** A session whose store has no keys yet. */
    constructor ()
      ensures Snapshot() == FreshStore
    {
      history := Missing;
      current := Missing;
    }

    method Init()
      modifies this
      ensures Snapshot() == Initialized(old(Snapshot()))
    {
      if history.Missing? {
        history := Stored([]);
      }
      if current.Missing? {
        current := Stored(None);
      }
    }

    method Clear()
      modifies this
      ensures Snapshot() == Cleared(old(Snapshot()))
    {
      history := Stored([]);
      current := Stored(None);
    }

    /** Returns the record that was added, or `None` when the name was empty. */
    method Submit(sub: Submission) returns (added: Option<Record>)
      requires Ready(Snapshot())
      modifies this
      ensures Snapshot() == Submitted(old(Snapshot()), sub)
      ensures added.None? <==> sub.name == ""
      ensures added.Some? ==> added == current.value && added.value == Last(history.value)
    {
      if sub.name == "" {
        added := None;
      } else {
        var record := BuildRecord(sub);
        history := Stored(history.value + [record]);
        current := Stored(Some(record));
        added := Some(record);
      }
    }

    /** One run of the script, as triggered by `a`. */
    method Rerun(a: Action)
      modifies this
      ensures Snapshot() == AfterRerun(old(Snapshot()), a)
    {
      Init();
      match a {
        case NoClick =>
        case ClearClicked =>
          Clear();
        case PredictClicked(sub) =>
          var _ := Submit(sub);
        case PredictFailed =>
      }
    }
  }
}
