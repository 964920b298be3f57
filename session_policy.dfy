/** The challenge-walking policy shared by the two multi-challenge runners
    (ValidationSessionViewModel.kt and DeviceAssociationViewModel.kt): a cursor over the session's
    challenge list and a failure counter capped at three attempts. */
module SessionPolicy {
  import opened Wrappers
  import opened Errors
  import opened Models

  /** MAX_VALIDATION_ATTEMPTS. */
  const MaxValidationAttempts: nat := 3

  /** `currentChallengeIndex` and `currentChallengeValidationErrors`. */
  datatype Cursor = Cursor(index: nat, errors: nat)

  /** What `launchNextChallenge` decides, in the order it tests: all challenges done, attempts used
      up, an unknown type tag, or launch the current challenge. */
  datatype LaunchDecision = Finish | GiveUp | InvalidType | Launch(challenge: Challenge, isRetry: bool)

  function NextLaunch(cs: seq<Challenge>, c: Cursor): (d: LaunchDecision)
    ensures d == Finish <==> c.index >= |cs|
    ensures d == GiveUp <==> c.index < |cs| && c.errors >= MaxValidationAttempts
    ensures d == InvalidType <==>
              c.index < |cs| && c.errors < MaxValidationAttempts && FromString(cs[c.index].challengeType).None?
    ensures d.Launch? <==>
              c.index < |cs| && c.errors < MaxValidationAttempts && FromString(cs[c.index].challengeType).Some?
    ensures d.Launch? ==> d.challenge == cs[c.index] && d.isRetry == (c.errors > 0)
  {
    if c.index >= |cs| then Finish
    else if c.errors >= MaxValidationAttempts then GiveUp
    else if FromString(cs[c.index].challengeType).None? then InvalidType
    else Launch(cs[c.index], c.errors > 0)
  }

  /** The liveness branch of `validateChallenge`: a true result advances and resets the counter;
      a false result or a throw counts one failure. */
  function LivenessStep(c: Cursor, outcome: Result<bool, Throwable>): Cursor {
    if outcome == Ok(true) then Cursor(c.index + 1, 0) else Cursor(c.index, c.errors + 1)
  }

  /** The PIN branch of `validateChallenge`: the Boolean returned is discarded, so any return
      advances, without resetting the counter; only a throw counts a failure. */
  function PinStep(c: Cursor, outcome: Result<bool, Throwable>): Cursor {
    if outcome.Ok? then Cursor(c.index + 1, c.errors) else Cursor(c.index, c.errors + 1)
  }

  /** The cursor after validating the current challenge, by its type; a challenge of unknown type
      is not validated. */
  function Step(cs: seq<Challenge>, c: Cursor, outcome: Result<bool, Throwable>): Cursor
    requires c.index < |cs|
  {
    match FromString(cs[c.index].challengeType)
    case Some(Liveness) => LivenessStep(c, outcome)
    case Some(Pin) => PinStep(c, outcome)
    case None => c
  }

  /** The rules of one validation, by challenge type and outcome. */
  lemma StepCases(cs: seq<Challenge>, c: Cursor, outcome: Result<bool, Throwable>)
    requires c.index < |cs|
    ensures FromString(cs[c.index].challengeType) == Some(Liveness) ==>
              (outcome == Ok(true) ==> Step(cs, c, outcome) == Cursor(c.index + 1, 0)) &&
              (outcome != Ok(true) ==> Step(cs, c, outcome) == Cursor(c.index, c.errors + 1))
    ensures FromString(cs[c.index].challengeType) == Some(Pin) ==>
              (outcome.Ok? ==> Step(cs, c, outcome) == Cursor(c.index + 1, c.errors)) &&
              (outcome.Err? ==> Step(cs, c, outcome) == Cursor(c.index, c.errors + 1))
  {
  }

  /** A failure of the validation for a challenge's type: anything but true for liveness, a throw for
      a PIN. */
  predicate IsFailure(t: ChallengeType, outcome: Result<bool, Throwable>) {
    match t
    case Liveness => outcome != Ok(true)
    case Pin => outcome.Err?
  }

  lemma FailureCounts(cs: seq<Challenge>, c: Cursor, outcome: Result<bool, Throwable>)
    requires c.index < |cs| && FromString(cs[c.index].challengeType).Some?
    requires IsFailure(FromString(cs[c.index].challengeType).value, outcome)
    ensures Step(cs, c, outcome) == Cursor(c.index, c.errors + 1)
  {
  }

  /** The decisions `launchNextChallenge` takes while the UI validates each launched challenge with
      the next outcome, until a terminal decision or the outcomes run out. */
  function Drive(cs: seq<Challenge>, c: Cursor, outcomes: seq<Result<bool, Throwable>>): (trace: seq<LaunchDecision>)
    ensures 1 <= |trace| <= |outcomes| + 1
    ensures trace[0] == NextLaunch(cs, c)
    decreases |outcomes|
  {
    var d := NextLaunch(cs, c);
    if !d.Launch? || outcomes == [] then [d]
    else [d] + Drive(cs, Step(cs, c, outcomes[0]), outcomes[1..])
  }

  /** Every decision before the last launches a challenge; a terminal decision ends the trace. */
  lemma {:induction false} DriveTerminalOnlyLast(cs: seq<Challenge>, c: Cursor, outcomes: seq<Result<bool, Throwable>>)
    ensures forall i :: 0 <= i < |Drive(cs, c, outcomes)| - 1 ==> Drive(cs, c, outcomes)[i].Launch?
    ensures !Drive(cs, c, outcomes)[|Drive(cs, c, outcomes)| - 1].Launch? ||
            |Drive(cs, c, outcomes)| == |outcomes| + 1
    decreases |outcomes|
  {
    var d := NextLaunch(cs, c);
    var trace := Drive(cs, c, outcomes);
    if d.Launch? && outcomes != [] {
      var rest := Drive(cs, Step(cs, c, outcomes[0]), outcomes[1..]);
      DriveTerminalOnlyLast(cs, Step(cs, c, outcomes[0]), outcomes[1..]);
      assert trace == [d] + rest;
      forall i | 0 <= i < |trace| - 1
        ensures trace[i].Launch?
      {
        if i > 0 {
          assert trace[i] == rest[i - 1];
        }
      }
    } else {
      assert trace == [d];
    }
  }

  /** From a fresh counter, three failures of the current challenge give up: it is launched once as
      a first try and twice as a retry, and then the terminal error follows. */
  lemma ThreeFailuresGiveUp(cs: seq<Challenge>, i: nat, outcomes: seq<Result<bool, Throwable>>)
    requires i < |cs| && FromString(cs[i].challengeType).Some?
    requires |outcomes| >= 3
    requires forall j :: 0 <= j < 3 ==> IsFailure(FromString(cs[i].challengeType).value, outcomes[j])
    ensures Drive(cs, Cursor(i, 0), outcomes) ==
              [Launch(cs[i], false), Launch(cs[i], true), Launch(cs[i], true), GiveUp]
  {
    var o1, o2, o3 := outcomes[1..], outcomes[2..], outcomes[3..];
    assert o1 == outcomes[1..] && o1[0] == outcomes[1] && o1[1..] == o2;
    assert o2[0] == outcomes[2] && o2[1..] == o3;
    FailureCounts(cs, Cursor(i, 0), outcomes[0]);
    FailureCounts(cs, Cursor(i, 1), outcomes[1]);
    FailureCounts(cs, Cursor(i, 2), outcomes[2]);
    assert Drive(cs, Cursor(i, 3), o3) == [GiveUp];
    assert Drive(cs, Cursor(i, 2), o2) == [Launch(cs[i], true)] + Drive(cs, Cursor(i, 3), o3);
    assert Drive(cs, Cursor(i, 1), o1) == [Launch(cs[i], true)] + Drive(cs, Cursor(i, 2), o2);
    assert Drive(cs, Cursor(i, 0), outcomes) == [Launch(cs[i], false)] + Drive(cs, Cursor(i, 1), o1);
  }

  /** The launch decisions of a clean run over the given challenges. */
  function FirstTries(cs: seq<Challenge>): (ds: seq<LaunchDecision>)
    ensures |ds| == |cs|
    ensures forall j :: 0 <= j < |cs| ==> ds[j] == Launch(cs[j], false)
  {
    if cs == [] then [] else [Launch(cs[0], false)] + FirstTries(cs[1..])
  }

  /** When every remaining challenge has a known type and every validation returns true, each is
      launched once as a first try and the run finishes. */
  lemma {:induction false} HappyPath(cs: seq<Challenge>, c: Cursor, outcomes: seq<Result<bool, Throwable>>)
    requires c.index <= |cs| && c.errors == 0
    requires forall j :: c.index <= j < |cs| ==> FromString(cs[j].challengeType).Some?
    requires |outcomes| == |cs| - c.index
    requires forall j :: 0 <= j < |outcomes| ==> outcomes[j] == Ok(true)
    ensures Drive(cs, c, outcomes) == FirstTries(cs[c.index..]) + [Finish]
    decreases |outcomes|
  {
    if c.index == |cs| {
      assert cs[c.index..] == [];
    } else {
      var next := Step(cs, c, outcomes[0]);
      assert next == Cursor(c.index + 1, 0);
      HappyPath(cs, next, outcomes[1..]);
      assert cs[c.index..][1..] == cs[c.index + 1..];
    }
  }

  /** A PIN validation never resets the counter: after earlier failed attempts, a correct PIN launches
      the next challenge as a retry although it was never tried. */
  lemma PinKeepsRetryFlag(cs: seq<Challenge>, i: nat, errors: nat)
    requires i + 1 < |cs| && FromString(cs[i].challengeType) == Some(Pin)
    requires FromString(cs[i + 1].challengeType).Some?
    requires 0 < errors < MaxValidationAttempts
    ensures Drive(cs, Cursor(i, errors), [Ok(true)]) == [Launch(cs[i], true), Launch(cs[i + 1], true)]
  {
    var c := Cursor(i, errors);
    DriveOneOutcome(cs, c, Ok(true));
    assert Step(cs, c, Ok(true)) == PinStep(c, Ok(true)) == Cursor(i + 1, errors);
  }

  /** A launched challenge validated once yields this decision and the next. */
  lemma DriveOneOutcome(cs: seq<Challenge>, c: Cursor, outcome: Result<bool, Throwable>)
    requires NextLaunch(cs, c).Launch?
    ensures c.index < |cs|
    ensures Drive(cs, c, [outcome]) == [NextLaunch(cs, c), NextLaunch(cs, Step(cs, c, outcome))]
  {
    var outcomes := [outcome];
    assert outcomes[1..] == [];
  }

  /** A PIN the backend rejects as invalid still advances the cursor, exactly like a correct one. */
  lemma WrongPinAdvances(cs: seq<Challenge>, c: Cursor)
    requires c.index < |cs| && FromString(cs[c.index].challengeType) == Some(Pin)
    ensures Step(cs, c, Ok(false)) == Step(cs, c, Ok(true)) == Cursor(c.index + 1, c.errors)
  {
  }

  /** `pinRecentlyChanged` after a PIN execution: both timestamps known and the backend's strictly
      later. Timestamps are instants as integers. */
  function PinRecentlyChanged(backendLastUpdated: Option<int>, localLastUsage: Option<int>): (b: bool)
    ensures b ==> backendLastUpdated.Some? && localLastUsage.Some?
    ensures backendLastUpdated.Some? && localLastUsage.Some? ==>
              (b <==> backendLastUpdated.value > localLastUsage.value)
  {
    match (backendLastUpdated, localLastUsage)
    case (Some(backend), Some(local)) => backend > local
    case _ => false
  }
}
