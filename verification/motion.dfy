/** The motion context: classifying an activity update and keeping the latest
    classification.  Activity updates are parameters. */
module Motion {
  import opened Common
  import opened Models

  /** The flags of one activity update. */
  datatype Activity = Activity(automotive: bool, cycling: bool, running: bool, walking: bool, stationary: bool)

  /** `MotionContext(from:)`: the first set flag in the order automotive,
      cycling, running, walking, stationary wins; no flag means unknown. */
  function Classify(a: Activity): (r: MotionContext)
    ensures r == Unknown <==> !(a.automotive || a.cycling || a.running || a.walking || a.stationary)
    ensures r == Driving <==> a.automotive
    ensures r == Stationary ==> a.stationary && !a.walking && !a.running && !a.cycling && !a.automotive
  {
    if a.automotive then Driving
    else if a.cycling then Cycling
    else if a.running then Running
    else if a.walking then Walking
    else if a.stationary then Stationary
    else Unknown
  }

  /** The priority order, most specific first. */
  const Priority: seq<MotionContext> := [Driving, Cycling, Running, Walking, Stationary]

  /** Whether the update carries the flag belonging to context `m`. */
  function Flag(a: Activity, m: MotionContext): bool {
    match m
    case Driving => a.automotive
    case Cycling => a.cycling
    case Running => a.running
    case Walking => a.walking
    case Stationary => a.stationary
    case Unknown => false
  }

  /** The first context of `order` whose flag is set, or unknown. */
  function FirstFlagged(a: Activity, order: seq<MotionContext>): (r: MotionContext)
    ensures r == Unknown || (r in order && Flag(a, r))
  {
    if order == [] then Unknown
    else if Flag(a, order[0]) then order[0]
    else FirstFlagged(a, order[1..])
  }

  /** The classification is the priority rule: the first flagged context of
      the priority order, every earlier context in that order having its
      flag clear. */
  lemma ClassifyIsPriority(a: Activity)
    ensures Classify(a) == FirstFlagged(a, Priority)
    ensures forall i :: 0 <= i < |Priority| && Priority[i] == Classify(a) ==>
      forall j :: 0 <= j < i ==> !Flag(a, Priority[j])
  {
    assert Priority[1..] == [Cycling, Running, Walking, Stationary];
    assert Priority[1..][1..] == [Running, Walking, Stationary];
    assert Priority[1..][1..][1..] == [Walking, Stationary];
    assert Priority[1..][1..][1..][1..] == [Stationary];
    assert FirstFlagged(a, [Stationary]) == if a.stationary then Stationary else Unknown;
    assert FirstFlagged(a, [Walking, Stationary]) == if a.walking then Walking else FirstFlagged(a, [Stationary]);
    assert FirstFlagged(a, [Running, Walking, Stationary]) ==
      if a.running then Running else FirstFlagged(a, [Walking, Stationary]);
    assert FirstFlagged(a, [Cycling, Running, Walking, Stationary]) ==
      if a.cycling then Cycling else FirstFlagged(a, [Running, Walking, Stationary]);
  }

  /** Flags below the winning one never matter: an update that agrees with
      `a` on every flag up to and including `a`'s winning context is
      classified the same way. */
  lemma ClassifyIgnoresLowerFlags(a: Activity, b: Activity, i: nat)
    requires i < |Priority| && Classify(a) == Priority[i]
    requires forall j :: 0 <= j <= i ==> Flag(b, Priority[j]) == Flag(a, Priority[j])
    ensures Classify(b) == Classify(a)
  {
    assert Flag(b, Priority[0]) == Flag(a, Priority[0]);
    if i >= 1 { assert Flag(b, Priority[1]) == Flag(a, Priority[1]); }
    if i >= 2 { assert Flag(b, Priority[2]) == Flag(a, Priority[2]); }
    if i >= 3 { assert Flag(b, Priority[3]) == Flag(a, Priority[3]); }
    if i >= 4 { assert Flag(b, Priority[4]) == Flag(a, Priority[4]); }
  }

  /** The manager's state: the latest context, unknown until the first
      update arrives. */
  const InitialContext: MotionContext := Unknown

  /** One delivery of the activity handler: a nil activity is ignored;
      otherwise the context becomes that activity's classification. */
  function OnUpdate(current: MotionContext, update: Option<Activity>): (r: MotionContext)
    ensures update.None? ==> r == current
    ensures update.Some? ==> r == Classify(update.value)
  {
    match update
    case None => current
    case Some(a) => Classify(a)
  }

  /** The context after a stream of deliveries. */
  function Replay(current: MotionContext, updates: seq<Option<Activity>>): MotionContext
    decreases |updates|
  {
    if updates == [] then current
    else Replay(OnUpdate(current, updates[0]), updates[1..])
  }

  /** A stream of nil deliveries leaves the context as it was. */
  lemma {:induction false} SilentStreamKeeps(current: MotionContext, updates: seq<Option<Activity>>)
    requires forall i :: 0 <= i < |updates| ==> updates[i].None?
    ensures Replay(current, updates) == current
    decreases |updates|
  {
    if updates != [] {
      assert updates[0].None?;
      assert forall j :: 0 <= j < |updates[1..]| ==> updates[1..][j] == updates[j + 1];
      SilentStreamKeeps(current, updates[1..]);
    }
  }

  /** The last non-nil update decides the context, whatever came before it. */
  lemma {:induction false} LastUpdateWins(current: MotionContext, updates: seq<Option<Activity>>, i: nat)
    requires i < |updates| && updates[i].Some?
    requires forall j :: i < j < |updates| ==> updates[j].None?
    ensures Replay(current, updates) == Classify(updates[i].value)
    decreases |updates|
  {
    assert forall j :: 0 <= j < |updates[1..]| ==> updates[1..][j] == updates[j + 1];
    if i == 0 {
      SilentStreamKeeps(Classify(updates[0].value), updates[1..]);
    } else {
      LastUpdateWins(OnUpdate(current, updates[0]), updates[1..], i - 1);
    }
  }
}
