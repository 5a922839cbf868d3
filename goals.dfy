/** The goal and exercise-session handlers of the server's goals router, with the
    database modelled as in-memory stores: a sequence of saved sessions and a map
    from user id to goal record. A request body's missing key is `None`. */
module Goals {
  import opened Wrappers
  import opened JsMath

  /** A handler's reply: a success message with the stored data, or an HTTP error. */
  datatype Reply<T> = Ok(message: string, data: T) | Error(status: nat, error: string)

  /** JavaScript truthiness of an id and of a string: missing, 0 and "" are false. */
  predicate IsTruthyId(id: Option<int>)
  {
    id.Some? && id.value != 0
  }

  predicate IsTruthyText(t: Option<string>)
  {
    t.Some? && t.value != ""
  }

  // ---------------------------------------------------------------------------
  // Saving an exercise session

  datatype SessionRequest = SessionRequest(
    userId: Option<int>,
    exerciseType: Option<string>,
    repsCompleted: Option<int>,
    duration: Option<int>,
    averageFormQuality: Option<real>)

  /** A stored session; `duration` is in seconds. */
  datatype ExerciseSession = ExerciseSession(
    userId: int,
    exerciseType: string,
    repsCompleted: int,
    duration: int,
    caloriesBurned: int,
    averageFormQuality: real)

  /** Calories per minute for a 70 kg person, by exercise type. */
  const CaloriesPerMinute: map<string, int> := map["pushup" := 7, "squat" := 8, "plank" := 3]

  /** `caloriesPerMinute[exerciseType] || 5` */
  function CalorieRate(exerciseType: string): (rate: int)
    ensures rate == 7 <==> exerciseType == "pushup"
    ensures rate == 8 <==> exerciseType == "squat"
    ensures rate == 3 <==> exerciseType == "plank"
    ensures rate == 5 <==> exerciseType !in {"pushup", "squat", "plank"}
  {
    if exerciseType in CaloriesPerMinute && CaloriesPerMinute[exerciseType] != 0
    then CaloriesPerMinute[exerciseType]
    else 5
  }

  /** Calories for `duration` seconds: the rate times the minutes, rounded. */
  function CaloriesBurned(exerciseType: string, duration: int): (calories: int)
    ensures calories as real - 0.5 <= (CalorieRate(exerciseType) * duration) as real / 60.0
                                    < calories as real + 0.5
  {
    var durationInMinutes := duration as real / 60.0;
    Round(CalorieRate(exerciseType) as real * durationInMinutes)
  }

  /** The same calories in integer arithmetic: round(n / 60) is (n + 30) div 60. */
  lemma CaloriesInIntegers(exerciseType: string, duration: int)
    ensures CaloriesBurned(exerciseType, duration) == (CalorieRate(exerciseType) * duration + 30) / 60
  {
  }

  /** Calories grow with the duration of a session of a given type. */
  lemma CaloriesMonotone(exerciseType: string, d1: int, d2: int)
    requires d1 <= d2
    ensures 0 <= CaloriesBurned(exerciseType, d2) - CaloriesBurned(exerciseType, d1)
  {
  }

  class SessionStore {
    var sessions: seq<ExerciseSession>

    constructor ()
      ensures sessions == []
    {
      sessions := [];
    }

    /** POST /exercise/save */
    method SaveExercise(req: SessionRequest) returns (reply: Reply<ExerciseSession>)
      modifies this
      ensures reply.Error? <==> !IsTruthyId(req.userId) || !IsTruthyText(req.exerciseType) || req.duration.None?
      ensures reply.Error? ==> reply == Error(400, "Missing required fields") && sessions == old(sessions)
      ensures reply.Ok? ==>
                && reply.message == "Exercise session saved successfully"
                && reply.data.userId == req.userId.value
                && reply.data.exerciseType == req.exerciseType.value
                && reply.data.duration == req.duration.value
                && reply.data.caloriesBurned == CaloriesBurned(req.exerciseType.value, req.duration.value)
                && reply.data.repsCompleted == (if req.repsCompleted.Some? then req.repsCompleted.value else 0)
                && reply.data.averageFormQuality ==
                     (if req.averageFormQuality.Some? then req.averageFormQuality.value else 0.0)
                && sessions == old(sessions) + [reply.data]
    {
      if !IsTruthyId(req.userId) || !IsTruthyText(req.exerciseType) || req.duration.None? {
        return Error(400, "Missing required fields");
      }
      var exerciseType := req.exerciseType.value;
      var duration := req.duration.value;
      var caloriesBurned := CaloriesBurned(exerciseType, duration);
      var reps := 0;
      if req.repsCompleted.Some? && req.repsCompleted.value != 0 {
        reps := req.repsCompleted.value;
      }
      var quality := 0.0;
      if req.averageFormQuality.Some? && req.averageFormQuality.value != 0.0 {
        quality := req.averageFormQuality.value;
      }
      var session := ExerciseSession(req.userId.value, exerciseType, reps, duration, caloriesBurned, quality);
      sessions := sessions + [session];
      reply := Ok("Exercise session saved successfully", session);
    }
  }

  // ---------------------------------------------------------------------------
  // Session statistics

  /** The integer quantities summed per session; `Sessions` counts each session once. */
  datatype Metric = Sessions | Reps | Duration | Calories

  function Measure(x: ExerciseSession, m: Metric): int
  {
    match m
    case Sessions => 1
    case Reps => x.repsCompleted
    case Duration => x.duration
    case Calories => x.caloriesBurned
  }

  /** `sessions.reduce((sum, s) => sum + <metric of s>, 0)`, in the same left-to-right order. */
  function Total(sessions: seq<ExerciseSession>, m: Metric): int
    decreases |sessions|
  {
    if sessions == [] then 0
    else Total(sessions[..|sessions| - 1], m) + Measure(sessions[|sessions| - 1], m)
  }

  function TotalFormQuality(sessions: seq<ExerciseSession>): real
    decreases |sessions|
  {
    if sessions == [] then 0.0
    else TotalFormQuality(sessions[..|sessions| - 1]) + sessions[|sessions| - 1].averageFormQuality
  }

  /** The mean form quality, 0 for no sessions. */
  function MeanFormQuality(sessions: seq<ExerciseSession>): (mean: real)
    ensures |sessions| == 0 ==> mean == 0.0
    ensures |sessions| > 0 ==> mean * |sessions| as real == TotalFormQuality(sessions)
  {
    if |sessions| > 0 then TotalFormQuality(sessions) / |sessions| as real else 0.0
  }

  lemma {:induction false} TotalSessionsIsLength(sessions: seq<ExerciseSession>)
    ensures Total(sessions, Sessions) == |sessions|
    decreases |sessions|
  {
    if sessions != [] {
      TotalSessionsIsLength(sessions[..|sessions| - 1]);
    }
  }

  lemma {:induction false} FormTotalBounds(sessions: seq<ExerciseSession>, lo: real, hi: real)
    requires forall i :: 0 <= i < |sessions| ==> lo <= sessions[i].averageFormQuality <= hi
    ensures |sessions| as real * lo <= TotalFormQuality(sessions) <= |sessions| as real * hi
    decreases |sessions|
  {
    if sessions != [] {
      var p := sessions[..|sessions| - 1];
      assert forall i :: 0 <= i < |p| ==> p[i] == sessions[i];
      FormTotalBounds(p, lo, hi);
      assert |sessions| as real * lo == |p| as real * lo + lo;
      assert |sessions| as real * hi == |p| as real * hi + hi;
    }
  }

  /** The mean lies between the smallest and largest bound every session respects
      (for percentages: within 0..100). */
  lemma MeanWithinBounds(sessions: seq<ExerciseSession>, lo: real, hi: real)
    requires |sessions| > 0
    requires forall i :: 0 <= i < |sessions| ==> lo <= sessions[i].averageFormQuality <= hi
    ensures lo <= MeanFormQuality(sessions) <= hi
  {
    FormTotalBounds(sessions, lo, hi);
    var n := |sessions| as real;
    var mean := MeanFormQuality(sessions);
    assert mean * n == TotalFormQuality(sessions);
    if mean < lo {
      assert mean * n < lo * n;
    }
    if mean > hi {
      assert mean * n > hi * n;
    }
  }

  /** One exercise type's entry of the breakdown. */
  datatype TypeTotals = TypeTotals(count: int, totalReps: int, totalDuration: int, totalCalories: int)

  function Field(e: TypeTotals, m: Metric): int
  {
    match m
    case Sessions => e.count
    case Reps => e.totalReps
    case Duration => e.totalDuration
    case Calories => e.totalCalories
  }

  /** The sum of a metric over the sessions of one type. */
  function TotalOfType(sessions: seq<ExerciseSession>, t: string, m: Metric): int
    decreases |sessions|
  {
    if sessions == [] then 0
    else
      var last := sessions[|sessions| - 1];
      TotalOfType(sessions[..|sessions| - 1], t, m) + (if last.exerciseType == t then Measure(last, m) else 0)
  }

  /** The exercise types that occur. */
  function TypeSet(sessions: seq<ExerciseSession>): set<string>
  {
    set x | x in sessions :: x.exerciseType
  }

  /** The breakdown as a reference definition: one entry per type that occurs,
      holding that type's count and sums. */
  function BreakdownOf(sessions: seq<ExerciseSession>): map<string, TypeTotals>
  {
    map t | t in TypeSet(sessions) ::
      TypeTotals(TotalOfType(sessions, t, Sessions), TotalOfType(sessions, t, Reps),
                 TotalOfType(sessions, t, Duration), TotalOfType(sessions, t, Calories))
  }

  /** The reduce step: create the entry if it is missing, then add the session. */
  function AddSession(acc: map<string, TypeTotals>, x: ExerciseSession): map<string, TypeTotals>
  {
    var e := if x.exerciseType in acc then acc[x.exerciseType] else TypeTotals(0, 0, 0, 0);
    acc[x.exerciseType := TypeTotals(e.count + 1, e.totalReps + x.repsCompleted,
                                     e.totalDuration + x.duration, e.totalCalories + x.caloriesBurned)]
  }

  lemma {:induction false} AbsentTypeTotalsZero(sessions: seq<ExerciseSession>, t: string, m: Metric)
    requires t !in TypeSet(sessions)
    ensures TotalOfType(sessions, t, m) == 0
    decreases |sessions|
  {
    if sessions != [] {
      var p := sessions[..|sessions| - 1];
      assert TypeSet(p) <= TypeSet(sessions) by {
        forall y | y in p ensures y in sessions {
        }
      }
      AbsentTypeTotalsZero(p, t, m);
      assert sessions[|sessions| - 1] in sessions;
    }
  }

  lemma TypeSetSnoc(sessions: seq<ExerciseSession>, x: ExerciseSession)
    ensures TypeSet(sessions + [x]) == TypeSet(sessions) + {x.exerciseType}
  {
  }

  lemma TotalOfTypeSnoc(sessions: seq<ExerciseSession>, x: ExerciseSession, t: string, m: Metric)
    ensures TotalOfType(sessions + [x], t, m)
         == TotalOfType(sessions, t, m) + (if x.exerciseType == t then Measure(x, m) else 0)
  {
  }

  lemma BreakdownSnocAt(sessions: seq<ExerciseSession>, x: ExerciseSession, t: string)
    requires t in TypeSet(sessions) || t == x.exerciseType
    ensures t in BreakdownOf(sessions + [x]) && t in AddSession(BreakdownOf(sessions), x)
    ensures BreakdownOf(sessions + [x])[t] == AddSession(BreakdownOf(sessions), x)[t]
  {
    TypeSetSnoc(sessions, x);
    TotalOfTypeSnoc(sessions, x, t, Sessions);
    TotalOfTypeSnoc(sessions, x, t, Reps);
    TotalOfTypeSnoc(sessions, x, t, Duration);
    TotalOfTypeSnoc(sessions, x, t, Calories);
    if t !in TypeSet(sessions) {
      AbsentTypeTotalsZero(sessions, t, Sessions);
      AbsentTypeTotalsZero(sessions, t, Reps);
      AbsentTypeTotalsZero(sessions, t, Duration);
      AbsentTypeTotalsZero(sessions, t, Calories);
    }
  }

  lemma BreakdownSnoc(sessions: seq<ExerciseSession>, x: ExerciseSession)
    ensures BreakdownOf(sessions + [x]) == AddSession(BreakdownOf(sessions), x)
  {
    var lhs := BreakdownOf(sessions + [x]);
    var rhs := AddSession(BreakdownOf(sessions), x);
    TypeSetSnoc(sessions, x);
    assert lhs.Keys == rhs.Keys;
    forall t | t in lhs.Keys ensures lhs[t] == rhs[t] {
      BreakdownSnocAt(sessions, x, t);
    }
  }

  /** The breakdown after one more session is the reduce step applied to the breakdown before it. */
  lemma BreakdownStep(sessions: seq<ExerciseSession>, i: nat)
    requires i < |sessions|
    ensures BreakdownOf(sessions[..i + 1]) == AddSession(BreakdownOf(sessions[..i]), sessions[i])
  {
    assert sessions[..i + 1] == sessions[..i] + [sessions[i]];
    BreakdownSnoc(sessions[..i], sessions[i]);
  }

  /** The breakdown as the source builds it: one pass, updating the accumulator in place. */
  method Breakdown(sessions: seq<ExerciseSession>) returns (acc: map<string, TypeTotals>)
    ensures acc == BreakdownOf(sessions)
  {
    acc := map[];
    for i := 0 to |sessions|
      invariant acc == BreakdownOf(sessions[..i])
    {
      var session := sessions[i];
      ghost var before := acc;
      if session.exerciseType !in acc {
        acc := acc[session.exerciseType := TypeTotals(0, 0, 0, 0)];
      }
      var e := acc[session.exerciseType];
      acc := acc[session.exerciseType := TypeTotals(e.count + 1, e.totalReps + session.repsCompleted,
                                                    e.totalDuration + session.duration,
                                                    e.totalCalories + session.caloriesBurned)];
      assert acc == AddSession(before, session);
      BreakdownStep(sessions, i);
    }
    assert sessions[..|sessions|] == sessions;
  }

  datatype SessionStats = SessionStats(
    totalSessions: int,
    totalDuration: int,
    totalCalories: int,
    totalReps: int,
    averageFormQuality: real,
    exerciseBreakdown: map<string, TypeTotals>)

  /** GET /exercise/:userId/stats, over the sessions the query returned. */
  method ComputeStats(sessions: seq<ExerciseSession>) returns (stats: SessionStats)
    ensures stats.totalSessions == |sessions|
    ensures stats.totalDuration == Total(sessions, Duration)
    ensures stats.totalCalories == Total(sessions, Calories)
    ensures stats.totalReps == Total(sessions, Reps)
    ensures stats.averageFormQuality == MeanFormQuality(sessions)
    ensures stats.exerciseBreakdown == BreakdownOf(sessions)
  {
    var breakdown := Breakdown(sessions);
    stats := SessionStats(|sessions|, Total(sessions, Duration), Total(sessions, Calories),
                          Total(sessions, Reps), MeanFormQuality(sessions), breakdown);
  }

  /** Every key of the breakdown is a type that occurs, with a positive count. */
  lemma {:induction false} BreakdownCountsPositive(sessions: seq<ExerciseSession>, t: string)
    requires t in BreakdownOf(sessions)
    ensures BreakdownOf(sessions)[t].count >= 1
    ensures exists i :: 0 <= i < |sessions| && sessions[i].exerciseType == t
    decreases |sessions|
  {
    var x := sessions[|sessions| - 1];
    var p := sessions[..|sessions| - 1];
    if x.exerciseType != t {
      assert t in TypeSet(p) by {
        var y :| y in sessions && y.exerciseType == t;
        var j :| 0 <= j < |sessions| && sessions[j] == y;
        assert j < |p| && p[j] == y;
      }
      BreakdownCountsPositive(p, t);
      var i :| 0 <= i < |p| && p[i].exerciseType == t;
      assert sessions[i] == p[i];
    } else {
      if t in TypeSet(p) {
        BreakdownCountsPositive(p, t);
      } else {
        AbsentTypeTotalsZero(p, t, Sessions);
      }
      assert sessions[|sessions| - 1].exerciseType == t;
    }
  }

  /** The exercise types of the sessions, in order. */
  function TypesOf(sessions: seq<ExerciseSession>): (types: seq<string>)
    ensures |types| == |sessions|
    ensures forall i :: 0 <= i < |sessions| ==> types[i] == sessions[i].exerciseType
    decreases |sessions|
  {
    if sessions == [] then []
    else TypesOf(sessions[..|sessions| - 1]) + [sessions[|sessions| - 1].exerciseType]
  }

  /** A type's count is the number of sessions of that type. */
  lemma {:induction false} CountIsMultiplicity(sessions: seq<ExerciseSession>, t: string)
    ensures TotalOfType(sessions, t, Sessions) == multiset(TypesOf(sessions))[t]
    decreases |sessions|
  {
    if sessions != [] {
      var p := sessions[..|sessions| - 1];
      CountIsMultiplicity(p, t);
      assert TypesOf(sessions) == TypesOf(p) + [sessions[|sessions| - 1].exerciseType];
    }
  }

  /** The sum of one metric over the listed types. */
  function SumOverTypes(sessions: seq<ExerciseSession>, types: seq<string>, m: Metric): int
  {
    if types == [] then 0 else TotalOfType(sessions, types[0], m) + SumOverTypes(sessions, types[1..], m)
  }

  predicate Distinct(types: seq<string>)
  {
    forall i, j :: 0 <= i < j < |types| ==> types[i] != types[j]
  }

  /** Adding one session adds its measure to the sum over types exactly once, if its type is listed. */
  lemma {:induction false} SumOverTypesSnoc(sessions: seq<ExerciseSession>, x: ExerciseSession, types: seq<string>, m: Metric)
    requires Distinct(types)
    ensures SumOverTypes(sessions + [x], types, m)
         == SumOverTypes(sessions, types, m) + (if x.exerciseType in types then Measure(x, m) else 0)
    decreases |types|
  {
    if types != [] {
      var s' := sessions + [x];
      assert s'[..|s'| - 1] == sessions;
      assert Distinct(types[1..]) by {
        forall i, j | 0 <= i < j < |types[1..]| ensures types[1..][i] != types[1..][j] {
          assert types[1..][i] == types[i + 1] && types[1..][j] == types[j + 1];
        }
      }
      SumOverTypesSnoc(sessions, x, types[1..], m);
      if x.exerciseType == types[0] {
        assert x.exerciseType !in types[1..] by {
          forall j | 0 <= j < |types[1..]| ensures types[1..][j] != types[0] {
            assert types[1..][j] == types[j + 1];
          }
        }
      } else {
        assert x.exerciseType in types <==> x.exerciseType in types[1..] by {
          assert types == [types[0]] + types[1..];
        }
      }
    }
  }

  /** Summed over any list of the types that occur, each listed once, the per-type
      sums give the overall sum. */
  lemma {:induction false} SumOverTypesIsTotal(sessions: seq<ExerciseSession>, types: seq<string>, m: Metric)
    requires Distinct(types)
    requires forall t :: t in TypeSet(sessions) ==> t in types
    ensures SumOverTypes(sessions, types, m) == Total(sessions, m)
    decreases |sessions|
  {
    if sessions == [] {
      ZeroSumOverTypes(types, m);
    } else {
      var p := sessions[..|sessions| - 1];
      var x := sessions[|sessions| - 1];
      assert sessions == p + [x];
      assert x in sessions;
      forall t | t in TypeSet(p) ensures t in types {
        var y :| y in p && y.exerciseType == t;
        assert y in sessions;
      }
      SumOverTypesIsTotal(p, types, m);
      SumOverTypesSnoc(p, x, types, m);
    }
  }

  lemma {:induction false} ZeroSumOverTypes(types: seq<string>, m: Metric)
    ensures SumOverTypes([], types, m) == 0
    decreases |types|
  {
    if types != [] {
      ZeroSumOverTypes(types[1..], m);
    }
  }

  /** The sum of one field of the breakdown entries for the listed keys. */
  function SumBreakdown(breakdown: map<string, TypeTotals>, keys: seq<string>, m: Metric): int
    requires forall k :: k in keys ==> k in breakdown
  {
    if keys == [] then 0 else Field(breakdown[keys[0]], m) + SumBreakdown(breakdown, keys[1..], m)
  }

  lemma {:induction false} SumBreakdownIsSumOverTypes(sessions: seq<ExerciseSession>, keys: seq<string>, m: Metric)
    requires forall k :: k in keys ==> k in BreakdownOf(sessions)
    ensures SumBreakdown(BreakdownOf(sessions), keys, m) == SumOverTypes(sessions, keys, m)
    decreases |keys|
  {
    if keys != [] {
      SumBreakdownIsSumOverTypes(sessions, keys[1..], m);
      assert Field(BreakdownOf(sessions)[keys[0]], m) == TotalOfType(sessions, keys[0], m) by {
        match m
        case Sessions =>
        case Reps =>
        case Duration =>
        case Calories =>
      }
    }
  }

  /** Conservation: over its keys, the breakdown's counts add up to the number of
      sessions, and its reps, durations and calories to the overall totals. */
  lemma BreakdownConservation(sessions: seq<ExerciseSession>, keys: seq<string>)
    requires Distinct(keys)
    requires forall k :: k in keys <==> k in BreakdownOf(sessions)
    ensures SumBreakdown(BreakdownOf(sessions), keys, Sessions) == |sessions|
    ensures SumBreakdown(BreakdownOf(sessions), keys, Reps) == Total(sessions, Reps)
    ensures SumBreakdown(BreakdownOf(sessions), keys, Duration) == Total(sessions, Duration)
    ensures SumBreakdown(BreakdownOf(sessions), keys, Calories) == Total(sessions, Calories)
  {
    forall m: Metric
      ensures SumBreakdown(BreakdownOf(sessions), keys, m) == Total(sessions, m)
    {
      SumBreakdownIsSumOverTypes(sessions, keys, m);
      SumOverTypesIsTotal(sessions, keys, m);
    }
    TotalSessionsIsLength(sessions);
  }

  // ---------------------------------------------------------------------------
  // Saving a goal

  /** The fields of a goal record besides the user id. */
  datatype GoalField =
    | Goal | Gender | Age | Height | CurrentWeight | TargetWeight | ActivityLevel
    | Bmi | BmiCategory | Bmr | Tdee | TargetCalories | Protein | Carbs | Fats
    | WaterIntake | WeightDifference | EstimatedWeeks | ExerciseRecommendation | GoalTimeline

  datatype FieldValue = Text(text: string) | Number(number: real)

  /** A stored record holds the fields that have a value. */
  type GoalRecord = map<GoalField, FieldValue>

  /** The request body: the user id and the fields it supplies. */
  datatype GoalRequest = GoalRequest(userId: Option<int>, fields: GoalRecord)

  /** The store after saving `submitted` for `userId`: an existing record is updated
      field by field (an update leaves fields it does not supply as they were), a
      missing one is created from the supplied fields. */
  function Upsert(goals: map<int, GoalRecord>, userId: int, submitted: GoalRecord): (r: map<int, GoalRecord>)
    ensures r.Keys == goals.Keys + {userId}
    ensures forall k :: k in goals && k != userId ==> r[k] == goals[k]
    ensures forall f :: f in submitted ==> f in r[userId] && r[userId][f] == submitted[f]
    ensures forall f :: f !in submitted ==>
              (f in r[userId] <==> userId in goals && f in goals[userId])
    ensures forall f :: f !in submitted && f in r[userId] ==> r[userId][f] == goals[userId][f]
  {
    if userId in goals then goals[userId := goals[userId] + submitted] else goals[userId := submitted]
  }

  /** Saving the same goal twice leaves the store as saving it once. */
  lemma UpsertIdempotent(goals: map<int, GoalRecord>, userId: int, submitted: GoalRecord)
    ensures Upsert(Upsert(goals, userId, submitted), userId, submitted) == Upsert(goals, userId, submitted)
  {
    var once := Upsert(goals, userId, submitted);
    var rec := once[userId];
    assert rec + submitted == rec;
  }

  /** A request that supplies every field, or one for a new user, stores exactly the submitted fields. */
  lemma UpsertStoresSubmitted(goals: map<int, GoalRecord>, userId: int, submitted: GoalRecord)
    requires userId !in goals || forall f: GoalField :: f in submitted
    ensures Upsert(goals, userId, submitted)[userId] == submitted
  {
  }

  class GoalStore {
    var goals: map<int, GoalRecord>

    constructor ()
      ensures goals == map[]
    {
      goals := map[];
    }

    /** POST /save */
    method SaveGoal(req: GoalRequest) returns (reply: Reply<GoalRecord>)
      modifies this
      ensures !IsTruthyId(req.userId) ==> reply == Error(400, "User ID is required") && goals == old(goals)
      ensures IsTruthyId(req.userId) ==>
                && goals == Upsert(old(goals), req.userId.value, req.fields)
                && reply.Ok?
                && reply.data == goals[req.userId.value]
                && (reply.message == "Goal updated successfully" <==> req.userId.value in old(goals))
                && (reply.message == "Goal saved successfully" <==> req.userId.value !in old(goals))
    {
      if !IsTruthyId(req.userId) {
        return Error(400, "User ID is required");
      }
      var userId := req.userId.value;
      var existing: Option<GoalRecord> := if userId in goals then Some(goals[userId]) else None;
      var goalDetail: GoalRecord;
      if existing.Some? {
        goalDetail := existing.value + req.fields;
      } else {
        goalDetail := req.fields;
      }
      goals := goals[userId := goalDetail];
      reply := Ok(if existing.Some? then "Goal updated successfully" else "Goal saved successfully", goalDetail);
    }
  }
}
