/** Rep counting and hold timing from body landmarks.

    The pose model's trigonometry is not modelled: every joint angle enters as the
    signed difference of the two ray directions at the joint, in degrees (what
    `atan2(c - b) - atan2(a - b)`, converted to degrees, yields). The wall clock
    enters as an explicit `now` in milliseconds. */
module ExerciseDetection {
  import opened Wrappers
  import opened JsMath

  // ---------------------------------------------------------------------------
  // Landmarks and the visibility gate

  /** Indices of the four torso landmarks in the pose model's 33-entry list. */
  const LeftShoulder: nat := 11
  const RightShoulder: nat := 12
  const LeftHip: nat := 23
  const RightHip: nat := 24

  const KeyPoints: seq<nat> := [LeftShoulder, RightShoulder, LeftHip, RightHip]

  datatype Landmark = Landmark(x: real, y: real, z: real, visibility: real)

  /** An indexed landmark list; an entry may be missing. */
  type Landmarks = seq<Option<Landmark>>

  /** The landmark at `index` exists and is seen with confidence above one half. */
  predicate Usable(landmarks: Landmarks, index: nat)
  {
    index < |landmarks| && landmarks[index].Some? && landmarks[index].value.visibility > 0.5
  }

  /** `indices.every(i => landmarks[i] && landmarks[i].visibility > 0.5)` */
  function AllUsable(landmarks: Landmarks, indices: seq<nat>): (r: bool)
    ensures r <==> forall k :: 0 <= k < |indices| ==> Usable(landmarks, indices[k])
  {
    if indices == [] then true
    else Usable(landmarks, indices[0]) && AllUsable(landmarks, indices[1..])
  }

  /** The subject is in frame: both shoulders and both hips are usable. */
  function IsPersonVisible(landmarks: Landmarks): (r: bool)
    ensures r <==> Usable(landmarks, 11) && Usable(landmarks, 12)
                   && Usable(landmarks, 23) && Usable(landmarks, 24)
  {
    var r := AllUsable(landmarks, KeyPoints);
    assert KeyPoints[0] == 11 && KeyPoints[1] == 12 && KeyPoints[2] == 23 && KeyPoints[3] == 24;
    assert r <== Usable(landmarks, KeyPoints[0]) && Usable(landmarks, KeyPoints[1])
                 && Usable(landmarks, KeyPoints[2]) && Usable(landmarks, KeyPoints[3]);
    r
  }

  // ---------------------------------------------------------------------------
  // Angles

  function Abs(x: real): real
  {
    if x < 0.0 then -x else x
  }

  /** The unsigned interior angle for a signed turn of `turn` degrees: the turn's
      magnitude, reflected to `360 - magnitude` when it exceeds a half turn. */
  function CalculateAngle(turn: real): (angle: real)
    ensures angle <= 180.0
    ensures -360.0 <= turn <= 360.0 ==> 0.0 <= angle
    ensures angle == Abs(turn) || angle == 360.0 - Abs(turn)
    ensures 0.0 <= turn <= 180.0 ==> angle == turn
  {
    var magnitude := Abs(turn);
    if magnitude > 180.0 then 360.0 - magnitude else magnitude
  }

  /** Swapping the two outer points negates the turn and leaves the angle alone. */
  lemma AngleSymmetric(turn: real)
    ensures CalculateAngle(-turn) == CalculateAngle(turn)
  {
  }

  /** Two turns a full circle apart give the same interior angle. */
  lemma AngleFullTurn(turn: real)
    requires 0.0 <= turn <= 360.0
    ensures CalculateAngle(turn - 360.0) == CalculateAngle(turn)
  {
  }

  // ---------------------------------------------------------------------------
  // Detector output

  datatype ExerciseType = Pushup | Squat | Plank

  /** The four values a rep detector's stage takes; `Unset` is the source's `null`. */
  datatype Stage = Unset | Up | Down | Transition

  /** The feedback messages; `Text` gives each one's exact wording. */
  datatype Feedback =
    | Blank
    | MoveIntoFrame
    | RepCounted
    | PushDown | PushUp | PushGoodDepth | KeepGoing | KeepBodyStraight | PerfectDepth
    | SquatDown | StandUp | SquatGoodDepth | KeepGoingDown | KeepBackStraight | ExcellentDeepSquat
    | Holding(seconds: int) | HipsTooHigh | HipsSagging | GetIntoPlank

  function Digit(d: nat): char
    requires d < 10
  {
    "0123456789"[d]
  }

  function NatToDecimal(n: nat): string
    decreases n
  {
    if n < 10 then [Digit(n)] else NatToDecimal(n / 10) + [Digit(n % 10)]
  }

  /** A JavaScript template literal's rendering of an integer. */
  function IntToDecimal(i: int): string
  {
    if i < 0 then "-" + NatToDecimal(-i) else NatToDecimal(i)
  }

  function Text(f: Feedback): string
  {
    match f
    case Blank => ""
    case MoveIntoFrame => "Move into frame"
    case RepCounted => "\U{2713} Rep counted!"
    case PushDown => "Push down"
    case PushUp => "Push up!"
    case PushGoodDepth => "Good depth, push up!"
    case KeepGoing => "Keep going!"
    case KeepBodyStraight => "\U{26A0} Keep your body straight!"
    case PerfectDepth => "\U{1F525} Perfect depth!"
    case SquatDown => "Squat down"
    case StandUp => "Stand up!"
    case SquatGoodDepth => "Good depth, stand up!"
    case KeepGoingDown => "Keep going down!"
    case KeepBackStraight => "\U{26A0} Keep your back straight!"
    case ExcellentDeepSquat => "\U{1F525} Excellent deep squat!"
    case Holding(seconds) => "Holding! " + IntToDecimal(seconds) + "s"
    case HipsTooHigh => "Hips too high!"
    case HipsSagging => "Hips sagging! Engage core"
    case GetIntoPlank => "Get into plank position"
  }

  /** Decimal renderings start with a digit and end with the last digit. */
  lemma {:induction false} NatToDecimalShape(n: nat)
    ensures |NatToDecimal(n)| >= 1 && NatToDecimal(n)[0] in "0123456789"
    ensures NatToDecimal(n)[|NatToDecimal(n)| - 1] == Digit(n % 10)
    ensures n >= 10 <==> |NatToDecimal(n)| >= 2
    decreases n
  {
    if n >= 10 {
      NatToDecimalShape(n / 10);
    }
  }

  /** Distinct numbers render differently. */
  lemma {:induction false} NatToDecimalInjective(m: nat, n: nat)
    requires m != n
    ensures NatToDecimal(m) != NatToDecimal(n)
    decreases m
  {
    NatToDecimalShape(m);
    NatToDecimalShape(n);
    if m >= 10 && n >= 10 {
      var dm, dn := NatToDecimal(m), NatToDecimal(n);
      if m / 10 != n / 10 {
        NatToDecimalInjective(m / 10, n / 10);
        assert dm[..|dm| - 1] == NatToDecimal(m / 10);
        assert dn[..|dn| - 1] == NatToDecimal(n / 10);
      } else {
        assert m % 10 != n % 10;
        assert Digit(m % 10) != Digit(n % 10);
      }
    } else if m < 10 && n < 10 {
      assert Digit(m) != Digit(n);
    }
  }

  lemma IntToDecimalInjective(i: int, j: int)
    requires i != j
    ensures IntToDecimal(i) != IntToDecimal(j)
  {
    if i < 0 && j < 0 {
      NatToDecimalInjective(-i, -j);
      var di, dj := NatToDecimal(-i), NatToDecimal(-j);
      assert ("-" + di)[1..] == di;
      assert ("-" + dj)[1..] == dj;
    } else if i >= 0 && j >= 0 {
      NatToDecimalInjective(i, j);
    } else {
      var k := if i < 0 then j else i;
      var neg := if i < 0 then i else j;
      NatToDecimalShape(k);
      assert IntToDecimal(neg)[0] == '-';
      assert IntToDecimal(k)[0] in "0123456789";
    }
  }

  /** Different messages have different wordings, so comparing messages is
      comparing the strings the detectors return. */
  lemma TextInjective(a: Feedback, b: Feedback)
    requires a != b
    ensures Text(a) != Text(b)
  {
    if a.Holding? && b.Holding? {
      IntToDecimalInjective(a.seconds, b.seconds);
      var ta, tb := Text(a), Text(b);
      assert ta[9..|ta| - 1] == IntToDecimal(a.seconds);
      assert tb[9..|tb| - 1] == IntToDecimal(b.seconds);
    } else if a.Holding? || b.Holding? {
      var h, c := if a.Holding? then a else b, if a.Holding? then b else a;
      assert |Text(h)| >= 3 && Text(h)[2] == 'l';
      assert |Text(c)| < 3 || Text(c)[2] != 'l';
    }
  }

  /** One frame's result. `angle` and `holdTime` are the optional fields: `angle`
      is absent on the out-of-frame reply, `holdTime` is present for planks only. */
  datatype ExerciseStats = ExerciseStats(
    kind: ExerciseType,
    count: int,
    feedback: Feedback,
    isCorrectForm: bool,
    angle: Option<int>,
    holdTime: Option<int>)

  // ---------------------------------------------------------------------------
  // The rep-counting state machine shared by push-ups and squats

  /** The constants and messages in which the push-up and squat detectors differ. */
  datatype RepRules = RepRules(
    kind: ExerciseType,
    minCountInterval: int,
    upThreshold: real,
    downThreshold: real,
    transitionAngle: real,
    bonusAngle: real,
    upCue: Feedback,
    downCue: Feedback,
    goodDepthCue: Feedback,
    keepGoingCue: Feedback,
    formWarning: Feedback,
    bonusCue: Feedback)

  const PushUpRules := RepRules(Pushup, 500, 150.0, 100.0, 120.0, 80.0,
                                PushDown, PushUp, PushGoodDepth, KeepGoing, KeepBodyStraight, PerfectDepth)

  const SquatRules := RepRules(Squat, 600, 155.0, 110.0, 130.0, 90.0,
                               SquatDown, StandUp, SquatGoodDepth, KeepGoingDown, KeepBackStraight, ExcellentDeepSquat)

  /** The bonus message differs from every other message the rules can produce. */
  predicate DistinctBonus(rules: RepRules)
  {
    rules.bonusCue !in {Blank, MoveIntoFrame, RepCounted, rules.upCue, rules.downCue,
                        rules.goodDepthCue, rules.keepGoingCue, rules.formWarning}
  }

  /** Push-up form: the shoulder-hip-ankle angle is within 25 degrees of straight. */
  predicate IsBodyStraight(bodyAngle: real)
  {
    bodyAngle > 155.0 && bodyAngle < 205.0
  }

  /** Squat form: the shoulder-hip-knee angle exceeds 150 degrees. */
  predicate IsBackStraight(backAngle: real)
  {
    backAngle > 150.0
  }

  datatype RepState = RepState(stage: Stage, count: nat, lastCountTime: int)

  const RepStart := RepState(Unset, 0, 0)

  /** What a rep detector reads from one frame: the visibility gate, the averaged
      joint angle, the form test and the clock. */
  datatype RepFrame = RepFrame(visible: bool, angle: real, straight: bool, now: int)

  datatype RepOutcome = RepOutcome(next: RepState, stats: ExerciseStats)

  /** A rep is counted exactly when the arms or legs reach the up band from the
      down or transition stage, and the debounce interval has passed. */
  predicate CountsRep(rules: RepRules, s: RepState, f: RepFrame)
  {
    && f.visible
    && f.angle >= rules.upThreshold
    && (s.stage == Down || s.stage == Transition)
    && f.now - s.lastCountTime >= rules.minCountInterval
  }

  /** One call of `detect`, written with the source's branch structure. */
  function RepStep(rules: RepRules, s: RepState, f: RepFrame): (r: RepOutcome)
    // out of frame: nothing moves
    ensures !f.visible ==> r.next == s && r.stats == ExerciseStats(rules.kind, s.count, MoveIntoFrame, false, None, None)
    // counting: at most one rep, exactly under CountsRep, and the debounce stamp moves with it
    ensures r.next.count == s.count || r.next.count == s.count + 1
    ensures r.next.count == s.count + 1 <==> CountsRep(rules, s, f)
    ensures r.next.lastCountTime == if CountsRep(rules, s, f) then f.now else s.lastCountTime
    // the stage is chosen by band, and the three bands cover every angle
    ensures f.visible && f.angle >= rules.upThreshold ==> r.next.stage == Up
    ensures f.visible && rules.downThreshold >= f.angle && f.angle < rules.upThreshold ==> r.next.stage == Down
    ensures f.visible && rules.downThreshold < f.angle < rules.upThreshold ==> r.next.stage == Transition
    // the reply
    ensures r.stats.kind == rules.kind && r.stats.count == r.next.count && r.stats.holdTime == None
    ensures f.visible ==> r.stats.isCorrectForm == f.straight && r.stats.angle == Some(Round(f.angle))
    ensures f.visible && !f.straight ==> r.stats.feedback == rules.formWarning
    ensures f.visible && f.straight && f.angle < rules.bonusAngle ==> r.stats.feedback == rules.bonusCue
    ensures f.visible && DistinctBonus(rules) ==>
              (r.stats.feedback == rules.bonusCue <==> f.angle < rules.bonusAngle && f.straight)
    ensures f.visible && f.straight && f.angle >= rules.bonusAngle && CountsRep(rules, s, f) ==>
              r.stats.feedback == RepCounted
    // otherwise a straight frame gets its band's cue, the transition band split at the transition angle
    ensures f.visible && f.straight && f.angle >= rules.bonusAngle && !CountsRep(rules, s, f) ==>
              r.stats.feedback == (if f.angle >= rules.upThreshold then rules.upCue
                                   else if f.angle <= rules.downThreshold then rules.downCue
                                   else if f.angle < rules.transitionAngle then rules.goodDepthCue
                                   else rules.keepGoingCue)
  {
    if !f.visible then
      RepOutcome(s, ExerciseStats(rules.kind, s.count, MoveIntoFrame, false, None, None))
    else
      var banded :=
        if f.angle >= rules.upThreshold then
          if (s.stage == Down || s.stage == Transition) && f.now - s.lastCountTime >= rules.minCountInterval
          then (RepState(Up, s.count + 1, f.now), RepCounted)
          else (RepState(Up, s.count, s.lastCountTime), rules.upCue)
        else if f.angle <= rules.downThreshold then
          (RepState(Down, s.count, s.lastCountTime), rules.downCue)
        else
          (RepState(Transition, s.count, s.lastCountTime),
           if f.angle < rules.transitionAngle then rules.goodDepthCue else rules.keepGoingCue);
      var next := banded.0;
      var feedback :=
        if f.angle < rules.bonusAngle && f.straight then rules.bonusCue
        else if !f.straight then rules.formWarning
        else banded.1;
      RepOutcome(next, ExerciseStats(rules.kind, next.count, feedback, f.straight, Some(Round(f.angle)), None))
  }

  /** The detector's state after a sequence of frames. */
  function RepRun(rules: RepRules, s: RepState, frames: seq<RepFrame>): RepState
    decreases |frames|
  {
    if frames == [] then s else RepRun(rules, RepStep(rules, s, frames[0]).next, frames[1..])
  }

  /** The count never goes down, and rises by at most one per frame. */
  lemma {:induction false} RunKeepsReps(rules: RepRules, s: RepState, frames: seq<RepFrame>)
    ensures s.count <= RepRun(rules, s, frames).count <= s.count + |frames|
    decreases |frames|
  {
    if frames != [] {
      RunKeepsReps(rules, RepStep(rules, s, frames[0]).next, frames[1..]);
    }
  }

  /** Debounce over a whole session: every rep counted moves the last-count stamp
      forward by at least the minimum interval. */
  lemma {:induction false} RunRateLimit(rules: RepRules, s: RepState, frames: seq<RepFrame>)
    requires rules.minCountInterval >= 0
    ensures var e := RepRun(rules, s, frames);
            (e.count - s.count) * rules.minCountInterval <= e.lastCountTime - s.lastCountTime
    decreases |frames|
  {
    if frames != [] {
      var n := RepStep(rules, s, frames[0]).next;
      RunRateLimit(rules, n, frames[1..]);
      RunKeepsReps(rules, n, frames[1..]);
      var e := RepRun(rules, n, frames[1..]);
      assert e == RepRun(rules, s, frames);
      var k := e.count - n.count;
      assert k * rules.minCountInterval <= e.lastCountTime - n.lastCountTime;
      if n.count == s.count + 1 {
        assert n.lastCountTime - s.lastCountTime >= rules.minCountInterval;
        assert (k + 1) * rules.minCountInterval == k * rules.minCountInterval + rules.minCountInterval;
      }
    }
  }

  /** Frames in which the subject is out of view leave the detector untouched. */
  lemma {:induction false} InvisibleRunChangesNothing(rules: RepRules, s: RepState, frames: seq<RepFrame>)
    requires forall i :: 0 <= i < |frames| ==> !frames[i].visible
    ensures RepRun(rules, s, frames) == s
    decreases |frames|
  {
    if frames != [] {
      InvisibleRunChangesNothing(rules, s, frames[1..]);
    }
  }

  /** Staying in the up band (or out of view) never counts a rep: a rep needs a
      pass through the down or transition band first. */
  lemma {:induction false} StayingUpCountsNothing(rules: RepRules, s: RepState, frames: seq<RepFrame>)
    requires s.stage == Up || s.stage == Unset
    requires forall i :: 0 <= i < |frames| ==> !frames[i].visible || frames[i].angle >= rules.upThreshold
    ensures RepRun(rules, s, frames).count == s.count
    decreases |frames|
  {
    if frames != [] {
      var n := RepStep(rules, s, frames[0]).next;
      assert n.count == s.count && (n.stage == Up || n.stage == Unset);
      StayingUpCountsNothing(rules, n, frames[1..]);
    }
  }

  /** Up, down, up again with the second up at least 500 ms after the last count:
      one push-up, and none before the second up. */
  lemma PushUpCycleCountsOne(t1: int, t2: int, t3: int)
    requires t3 >= 500
    ensures var f1 := RepFrame(true, 170.0, true, t1);
            var f2 := RepFrame(true, 70.0, true, t2);
            var f3 := RepFrame(true, 170.0, true, t3);
            && RepRun(PushUpRules, RepStart, [f1]).count == 0
            && RepRun(PushUpRules, RepStart, [f1, f2]).count == 0
            && RepRun(PushUpRules, RepStart, [f1, f2, f3]).count == 1
  {
    var f1 := RepFrame(true, 170.0, true, t1);
    var f2 := RepFrame(true, 70.0, true, t2);
    var f3 := RepFrame(true, 170.0, true, t3);
    var s1 := RepStep(PushUpRules, RepStart, f1).next;
    assert s1 == RepState(Up, 0, 0);
    var s2 := RepStep(PushUpRules, s1, f2).next;
    assert s2 == RepState(Down, 0, 0);
    var s3 := RepStep(PushUpRules, s2, f3).next;
    assert s3 == RepState(Up, 1, t3);
    assert [f3][1..] == [];
    assert RepRun(PushUpRules, s2, [f3]) == RepRun(PushUpRules, s3, []) == s3;
    assert [f1, f2][1..] == [f2] && [f1, f2, f3][1..] == [f2, f3] && [f2, f3][1..] == [f3];
    assert RepRun(PushUpRules, RepStart, [f1, f2]) == RepRun(PushUpRules, s1, [f2]) == s2;
    assert RepRun(PushUpRules, RepStart, [f1, f2, f3]) == RepRun(PushUpRules, s1, [f2, f3])
        == RepRun(PushUpRules, s2, [f3]);
  }

  /** Standing, squatting below 110 degrees and standing again at least 600 ms
      after the last count: one squat, and none before standing again. */
  lemma SquatCycleCountsOne(t1: int, t2: int, t3: int)
    requires t3 >= 600
    ensures var f1 := RepFrame(true, 170.0, true, t1);
            var f2 := RepFrame(true, 100.0, true, t2);
            var f3 := RepFrame(true, 170.0, true, t3);
            && RepRun(SquatRules, RepStart, [f1]).count == 0
            && RepRun(SquatRules, RepStart, [f1, f2]).count == 0
            && RepRun(SquatRules, RepStart, [f1, f2, f3]).count == 1
  {
    var f1 := RepFrame(true, 170.0, true, t1);
    var f2 := RepFrame(true, 100.0, true, t2);
    var f3 := RepFrame(true, 170.0, true, t3);
    var s1 := RepStep(SquatRules, RepStart, f1).next;
    assert s1 == RepState(Up, 0, 0);
    var s2 := RepStep(SquatRules, s1, f2).next;
    assert s2 == RepState(Down, 0, 0);
    var s3 := RepStep(SquatRules, s2, f3).next;
    assert s3 == RepState(Up, 1, t3);
    assert [f3][1..] == [];
    assert RepRun(SquatRules, s2, [f3]) == RepRun(SquatRules, s3, []) == s3;
    assert [f1, f2][1..] == [f2] && [f1, f2, f3][1..] == [f2, f3] && [f2, f3][1..] == [f3];
    assert RepRun(SquatRules, RepStart, [f1, f2]) == RepRun(SquatRules, s1, [f2]) == s2;
    assert RepRun(SquatRules, RepStart, [f1, f2, f3]) == RepRun(SquatRules, s1, [f2, f3])
        == RepRun(SquatRules, s2, [f3]);
  }

  /** A second qualifying return to the up band inside the debounce interval of
      the last count is not a rep. */
  lemma DebounceSuppressesRep(rules: RepRules, s: RepState, f: RepFrame)
    requires f.visible && f.angle >= rules.upThreshold
    requires f.now - s.lastCountTime < rules.minCountInterval
    ensures RepStep(rules, s, f).next == RepState(Up, s.count, s.lastCountTime)
    ensures RepStep(rules, s, f).stats.count == s.count
  {
  }

  /** A rep with bad form is still counted; only the reply flags the form. */
  lemma CrookedRepStillCounts(rules: RepRules, s: RepState, f: RepFrame)
    requires CountsRep(rules, s, f) && !f.straight
    ensures RepStep(rules, s, f).next.count == s.count + 1
    ensures !RepStep(rules, s, f).stats.isCorrectForm
    ensures RepStep(rules, s, f).stats.feedback == rules.formWarning
  {
  }

  /** For every angle the pose model can produce, the push-up's upper straightness
      bound of 205 degrees never decides anything. */
  lemma BodyStraightUpperBoundIsDead(turn: real)
    ensures IsBodyStraight(CalculateAngle(turn)) <==> CalculateAngle(turn) > 155.0
  {
  }

  // ---------------------------------------------------------------------------
  // The detectors

  class PushUpDetector {
    var stage: Stage
    var count: nat
    var lastCountTime: int

    function State(): RepState
      reads this
    {
      RepState(stage, count, lastCountTime)
    }

    constructor ()
      ensures State() == RepStart
    {
      stage, count, lastCountTime := Unset, 0, 0;
    }

    /** One frame: `landmarks` feed the visibility gate; the three turns are the
        left and right shoulder-elbow-wrist and the left shoulder-hip-ankle turns. */
    method Detect(landmarks: Landmarks, leftElbowTurn: real, rightElbowTurn: real, leftBodyTurn: real, now: int)
      returns (stats: ExerciseStats)
      modifies this
      ensures var f := RepFrame(IsPersonVisible(landmarks),
                                (CalculateAngle(leftElbowTurn) + CalculateAngle(rightElbowTurn)) / 2.0,
                                IsBodyStraight(CalculateAngle(leftBodyTurn)), now);
              State() == RepStep(PushUpRules, old(State()), f).next
              && stats == RepStep(PushUpRules, old(State()), f).stats
    {
      if !IsPersonVisible(landmarks) {
        return ExerciseStats(Pushup, count, MoveIntoFrame, false, None, None);
      }
      var leftElbowAngle := CalculateAngle(leftElbowTurn);
      var rightElbowAngle := CalculateAngle(rightElbowTurn);
      var avgElbowAngle := (leftElbowAngle + rightElbowAngle) / 2.0;
      var leftBodyAngle := CalculateAngle(leftBodyTurn);
      var isBodyStraight := leftBodyAngle > 155.0 && leftBodyAngle < 205.0;

      var feedback := Blank;
      var isCorrectForm := true;

      if avgElbowAngle >= PushUpRules.upThreshold {
        if stage == Down || stage == Transition {
          if now - lastCountTime >= PushUpRules.minCountInterval {
            count := count + 1;
            lastCountTime := now;
            feedback := RepCounted;
          }
        }
        stage := Up;
        if feedback == Blank {
          feedback := PushDown;
        }
      } else if avgElbowAngle <= PushUpRules.downThreshold {
        stage := Down;
        feedback := PushUp;
      } else if avgElbowAngle > PushUpRules.downThreshold && avgElbowAngle < PushUpRules.upThreshold {
        stage := Transition;
        if avgElbowAngle < PushUpRules.transitionAngle {
          feedback := PushGoodDepth;
        } else {
          feedback := KeepGoing;
        }
      }

      if !isBodyStraight {
        feedback := KeepBodyStraight;
        isCorrectForm := false;
      }
      if avgElbowAngle < 80.0 && isBodyStraight {
        feedback := PerfectDepth;
      }

      stats := ExerciseStats(Pushup, count, feedback, isCorrectForm, Some(Round(avgElbowAngle)), None);
    }

    method Reset()
      modifies this
      ensures State() == RepStart
    {
      stage := Unset;
      count := 0;
      lastCountTime := 0;
    }
  }

  class SquatDetector {
    var stage: Stage
    var count: nat
    var lastCountTime: int

    function State(): RepState
      reads this
    {
      RepState(stage, count, lastCountTime)
    }

    constructor ()
      ensures State() == RepStart
    {
      stage, count, lastCountTime := Unset, 0, 0;
    }

    /** One frame: `landmarks` feed the visibility gate; the three turns are the
        left and right hip-knee-ankle and the left shoulder-hip-knee turns. */
    method Detect(landmarks: Landmarks, leftKneeTurn: real, rightKneeTurn: real, backTurn: real, now: int)
      returns (stats: ExerciseStats)
      modifies this
      ensures var f := RepFrame(IsPersonVisible(landmarks),
                                (CalculateAngle(leftKneeTurn) + CalculateAngle(rightKneeTurn)) / 2.0,
                                IsBackStraight(CalculateAngle(backTurn)), now);
              State() == RepStep(SquatRules, old(State()), f).next
              && stats == RepStep(SquatRules, old(State()), f).stats
    {
      if !IsPersonVisible(landmarks) {
        return ExerciseStats(Squat, count, MoveIntoFrame, false, None, None);
      }
      var leftKneeAngle := CalculateAngle(leftKneeTurn);
      var rightKneeAngle := CalculateAngle(rightKneeTurn);
      var avgKneeAngle := (leftKneeAngle + rightKneeAngle) / 2.0;
      var backAngle := CalculateAngle(backTurn);
      var isBackStraight := backAngle > 150.0;

      var feedback := Blank;
      var isCorrectForm := true;

      if avgKneeAngle >= SquatRules.upThreshold {
        if stage == Down || stage == Transition {
          if now - lastCountTime >= SquatRules.minCountInterval {
            count := count + 1;
            lastCountTime := now;
            feedback := RepCounted;
          }
        }
        stage := Up;
        if feedback == Blank {
          feedback := SquatDown;
        }
      } else if avgKneeAngle <= SquatRules.downThreshold {
        stage := Down;
        feedback := StandUp;
      } else if avgKneeAngle > SquatRules.downThreshold && avgKneeAngle < SquatRules.upThreshold {
        stage := Transition;
        if avgKneeAngle < SquatRules.transitionAngle {
          feedback := SquatGoodDepth;
        } else {
          feedback := KeepGoingDown;
        }
      }

      if !isBackStraight {
        feedback := KeepBackStraight;
        isCorrectForm := false;
      }
      if avgKneeAngle < 90.0 && isBackStraight {
        feedback := ExcellentDeepSquat;
      }

      stats := ExerciseStats(Squat, count, feedback, isCorrectForm, Some(Round(avgKneeAngle)), None);
    }

    method Reset()
      modifies this
      ensures State() == RepStart
    {
      stage := Unset;
      count := 0;
      lastCountTime := 0;
    }
  }

  // ---------------------------------------------------------------------------
  // The plank hold timer

  /** `holdStartTime` is `null` when no hold is running. */
  datatype PlankState = PlankState(isHolding: bool, holdStartTime: Option<int>, totalHoldTime: int)

  const PlankStart := PlankState(false, None, 0)

  /** What the plank detector reads from one frame: the visibility gate, the
      averaged shoulder-hip-ankle angle, the left shoulder-elbow-wrist angle, the clock. */
  datatype PlankFrame = PlankFrame(visible: bool, bodyAngle: real, elbowAngle: real, now: int)

  datatype PlankOutcome = PlankOutcome(next: PlankState, stats: ExerciseStats)

  predicate InPlankPosition(bodyAngle: real, elbowAngle: real)
  {
    bodyAngle > 160.0 && bodyAngle < 200.0 && elbowAngle < 120.0
  }

  /** JavaScript truthiness of a start time: `null` and `0` are both false. */
  predicate IsSet(t: Option<int>)
  {
    t.Some? && t.value != 0
  }

  /** One call of the plank detector's `detect`. */
  function PlankStep(s: PlankState, f: PlankFrame): (r: PlankOutcome)
    // every reply: no reps, the banked seconds
    ensures r.stats.kind == Plank && r.stats.count == 0 && r.stats.holdTime == Some(r.next.totalHoldTime)
    // out of frame: nothing moves
    ensures !f.visible ==> r.next == s && r.stats == ExerciseStats(Plank, 0, MoveIntoFrame, false, None, Some(s.totalHoldTime))
    ensures f.visible ==> r.stats.angle == Some(Round(f.bodyAngle))
    // in position: the first frame starts the timer, later ones measure from its start
    ensures f.visible && InPlankPosition(f.bodyAngle, f.elbowAngle) && !s.isHolding ==>
              r.next == PlankState(true, Some(f.now), s.totalHoldTime)
    ensures f.visible && InPlankPosition(f.bodyAngle, f.elbowAngle) && s.isHolding && IsSet(s.holdStartTime) ==>
              && r.next.isHolding && r.next.holdStartTime == s.holdStartTime
              && r.next.totalHoldTime * 1000 <= f.now - s.holdStartTime.value < (r.next.totalHoldTime + 1) * 1000
    ensures f.visible && InPlankPosition(f.bodyAngle, f.elbowAngle) && s.isHolding && !IsSet(s.holdStartTime) ==>
              r.next == s
    ensures f.visible && InPlankPosition(f.bodyAngle, f.elbowAngle) ==>
              r.stats.feedback == Holding(r.next.totalHoldTime) && r.stats.isCorrectForm
    // out of position: the hold ends, the banked seconds stay
    ensures f.visible && !InPlankPosition(f.bodyAngle, f.elbowAngle) ==>
              && r.next == PlankState(false, None, s.totalHoldTime)
              && !r.stats.isCorrectForm
              && r.stats.feedback == (if f.bodyAngle < 160.0 then HipsTooHigh
                                      else if f.bodyAngle > 200.0 then HipsSagging
                                      else GetIntoPlank)
  {
    if !f.visible then
      PlankOutcome(s, ExerciseStats(Plank, 0, MoveIntoFrame, false, None, Some(s.totalHoldTime)))
    else if InPlankPosition(f.bodyAngle, f.elbowAngle) then
      var next :=
        if !s.isHolding then PlankState(true, Some(f.now), s.totalHoldTime)
        else if IsSet(s.holdStartTime) then
          // Dafny's division by a positive divisor rounds down, as Math.floor does
          s.(totalHoldTime := (f.now - s.holdStartTime.value) / 1000)
        else s;
      PlankOutcome(next, ExerciseStats(Plank, 0, Holding(next.totalHoldTime), true,
                                       Some(Round(f.bodyAngle)), Some(next.totalHoldTime)))
    else
      var feedback := if f.bodyAngle < 160.0 then HipsTooHigh
                      else if f.bodyAngle > 200.0 then HipsSagging
                      else GetIntoPlank;
      var next := PlankState(false, None, s.totalHoldTime);
      PlankOutcome(next, ExerciseStats(Plank, 0, feedback, false,
                                       Some(Round(f.bodyAngle)), Some(next.totalHoldTime)))
  }

  function PlankRun(s: PlankState, frames: seq<PlankFrame>): PlankState
    decreases |frames|
  {
    if frames == [] then s else PlankRun(PlankStep(s, frames[0]).next, frames[1..])
  }

  predicate AllInPosition(frames: seq<PlankFrame>)
  {
    forall i :: 0 <= i < |frames| ==>
      frames[i].visible && InPlankPosition(frames[i].bodyAngle, frames[i].elbowAngle)
  }

  /** While a hold runs, the banked seconds are the whole seconds since the hold
      started, measured at the latest frame. */
  lemma {:induction false} HoldKeepsTime(s: PlankState, frames: seq<PlankFrame>)
    requires s.isHolding && IsSet(s.holdStartTime)
    requires frames != [] && AllInPosition(frames)
    ensures var e := PlankRun(s, frames);
            && e.isHolding && e.holdStartTime == s.holdStartTime
            && e.totalHoldTime == (frames[|frames| - 1].now - s.holdStartTime.value) / 1000
    decreases |frames|
  {
    var n := PlankStep(s, frames[0]).next;
    assert n.isHolding && n.holdStartTime == s.holdStartTime;
    if |frames| > 1 {
      HoldKeepsTime(n, frames[1..]);
    }
  }

  /** A hold entered at a nonzero time and kept for the following frames: the
      timer starts at the first frame and the banked seconds are measured from it,
      replacing what an earlier hold had banked. */
  lemma HoldTiming(s: PlankState, frames: seq<PlankFrame>)
    requires !s.isHolding
    requires |frames| >= 2 && AllInPosition(frames) && frames[0].now != 0
    ensures var e := PlankRun(s, frames);
            && e.isHolding && e.holdStartTime == Some(frames[0].now)
            && e.totalHoldTime == (frames[|frames| - 1].now - frames[0].now) / 1000
  {
    var n := PlankStep(s, frames[0]).next;
    assert n == PlankState(true, Some(frames[0].now), s.totalHoldTime);
    HoldKeepsTime(n, frames[1..]);
  }

  /** Five seconds of plank, sampled at the start and at the end, bank 5 seconds. */
  lemma FiveSecondPlank(t: int)
    requires t != 0
    ensures var f0 := PlankFrame(true, 180.0, 90.0, t);
            var f1 := PlankFrame(true, 180.0, 90.0, t + 5000);
            PlankRun(PlankStart, [f0, f1]).totalHoldTime == 5
  {
    HoldTiming(PlankStart, [PlankFrame(true, 180.0, 90.0, t), PlankFrame(true, 180.0, 90.0, t + 5000)]);
  }

  /** A hold that starts at time zero never banks a second: the start time reads as unset. */
  lemma HoldStartedAtZeroNeverTimes(s: PlankState, frames: seq<PlankFrame>)
    requires s.isHolding && s.holdStartTime == Some(0)
    requires AllInPosition(frames)
    ensures PlankRun(s, frames) == s
    decreases |frames|
  {
    if frames != [] {
      HoldStartedAtZeroNeverTimes(s, frames[1..]);
    }
  }

  /** Out-of-view frames leave the plank timer untouched. */
  lemma {:induction false} InvisiblePlankRunChangesNothing(s: PlankState, frames: seq<PlankFrame>)
    requires forall i :: 0 <= i < |frames| ==> !frames[i].visible
    ensures PlankRun(s, frames) == s
    decreases |frames|
  {
    if frames != [] {
      InvisiblePlankRunChangesNothing(s, frames[1..]);
    }
  }

  /** For every angle the pose model can produce, the "Hips sagging" reply is
      unreachable: the averaged body angle never exceeds 180 degrees. */
  lemma SaggingIsUnreachable(s: PlankState, leftTurn: real, rightTurn: real, elbowAngle: real, now: int)
    ensures var body := (CalculateAngle(leftTurn) + CalculateAngle(rightTurn)) / 2.0;
            PlankStep(s, PlankFrame(true, body, elbowAngle, now)).stats.feedback != HipsSagging
  {
  }

  class PlankDetector {
    var isHolding: bool
    var holdStartTime: Option<int>
    var totalHoldTime: int

    function State(): PlankState
      reads this
    {
      PlankState(isHolding, holdStartTime, totalHoldTime)
    }

    constructor ()
      ensures State() == PlankStart
    {
      isHolding, holdStartTime, totalHoldTime := false, None, 0;
    }

    /** One frame: `landmarks` feed the visibility gate; the turns are the left and
        right shoulder-hip-ankle and the left shoulder-elbow-wrist turns. */
    method Detect(landmarks: Landmarks, leftBodyTurn: real, rightBodyTurn: real, leftElbowTurn: real, now: int)
      returns (stats: ExerciseStats)
      modifies this
      ensures var f := PlankFrame(IsPersonVisible(landmarks),
                                  (CalculateAngle(leftBodyTurn) + CalculateAngle(rightBodyTurn)) / 2.0,
                                  CalculateAngle(leftElbowTurn), now);
              State() == PlankStep(old(State()), f).next && stats == PlankStep(old(State()), f).stats
    {
      if !IsPersonVisible(landmarks) {
        return ExerciseStats(Plank, 0, MoveIntoFrame, false, None, Some(totalHoldTime));
      }
      var leftBodyAngle := CalculateAngle(leftBodyTurn);
      var rightBodyAngle := CalculateAngle(rightBodyTurn);
      var avgBodyAngle := (leftBodyAngle + rightBodyAngle) / 2.0;
      var leftElbowAngle := CalculateAngle(leftElbowTurn);
      var isPlankPosition := avgBodyAngle > 160.0 && avgBodyAngle < 200.0 && leftElbowAngle < 120.0;

      var feedback := Blank;
      var isCorrectForm := true;

      if isPlankPosition {
        if !isHolding {
          holdStartTime := Some(now);
          isHolding := true;
        } else if holdStartTime.Some? && holdStartTime.value != 0 {
          totalHoldTime := (now - holdStartTime.value) / 1000;
        }
        feedback := Holding(totalHoldTime);
      } else {
        isHolding := false;
        holdStartTime := None;
        if avgBodyAngle < 160.0 {
          feedback := HipsTooHigh;
          isCorrectForm := false;
        } else if avgBodyAngle > 200.0 {
          feedback := HipsSagging;
          isCorrectForm := false;
        } else {
          feedback := GetIntoPlank;
          isCorrectForm := false;
        }
      }

      stats := ExerciseStats(Plank, 0, feedback, isCorrectForm, Some(Round(avgBodyAngle)), Some(totalHoldTime));
    }

    method Reset()
      modifies this
      ensures State() == PlankStart
    {
      isHolding := false;
      holdStartTime := None;
      totalHoldTime := 0;
    }
  }
}
