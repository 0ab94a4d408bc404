/** The hand/object pair gate of scripts/cpa_pair_policy.py and the track review of
    scripts/cpa_visibility_review.py that feeds it.  Reasons are kept as sets, lookups built from lists as maps. */
module PairGate {

  datatype Option<+T> = None | Some(value: T)

  datatype Role = Hand | Obj

  /** `H3`, `O3`. */
  datatype PointId = PointId(role: Role, index: int)

  datatype Point = Point(id: PointId, xy: (real, real), visible: Option<bool>)

  /** A contact pair: which of its two coordinates are present. */
  datatype Pair = Pair(index: int, hasHand: bool, hasObj: bool)

  datatype Tracked = Tracked(handVisible: Option<bool>, objVisible: Option<bool>)

  datatype Judgments = Judgments(handOnEndEffector: bool, objOnContacted: bool, handVisible: bool, objVisible: bool,
                                 handSame: bool, objSame: bool)

  /** One observation review of an event, before or after the gate; `original` is the saved pre-filter list. */
  datatype Review = Review(points: seq<Point>, original: Option<seq<Point>>, checks: map<int, Judgments>,
                           distances: map<int, Option<bool>>, tracked: map<int, Tracked>, gates: map<int, set<string>>,
                           removedIds: set<PointId>, removed: map<int, set<string>>, retained: set<int>)

  datatype Audit = Audit(requireHandSide: bool, removed: map<int, set<string>>, retained: set<int>)

  datatype Event = Event(pairs: seq<Pair>, original: seq<Pair>, sides: map<PointId, string>, decisions: map<PointId, bool>,
                         audit: Option<Audit>, reviews: seq<Review>)

  /* ---------- the contact side ---------- */

  predicate Refused(decisions: map<PointId, bool>, id: PointId)
  {
    id in decisions && !decisions[id]
  }

  function ContactReasons(e: Event, requireHandSide: bool, p: Pair): set<string>
  {
    var hand, obj := PointId(Hand, p.index), PointId(Obj, p.index);
    (if p.hasHand then {} else {"H_missing_or_rejected_at_contact"}) +
    (if Refused(e.decisions, hand) then {"H_contact_review_failed"} else {}) +
    (if p.hasObj then {} else {"O_missing_or_rejected_at_contact"}) +
    (if Refused(e.decisions, obj) then {"O_contact_review_failed"} else {}) +
    (if requireHandSide && (hand !in e.sides || (e.sides[hand] != "left" && e.sides[hand] != "right"))
     then {"H_handedness_unknown_or_missing"} else {})
  }

  function KeptPairs(e: Event, requireHandSide: bool, pairs: seq<Pair>): (r: seq<Pair>)
    ensures forall p :: p in r <==> p in pairs && ContactReasons(e, requireHandSide, p) == {}
  {
    if pairs == [] then []
    else
      var front, p := KeptPairs(e, requireHandSide, pairs[..|pairs| - 1]), pairs[|pairs| - 1];
      assert pairs == pairs[..|pairs| - 1] + [p];
      if ContactReasons(e, requireHandSide, p) == {} then front + [p] else front
  }

  function Indices(pairs: seq<Pair>): set<int>
  {
    set p | p in pairs :: p.index
  }

  /** Later entries of the audit list win, as in a lookup by index. */
  function RemovedPairs(e: Event, requireHandSide: bool, pairs: seq<Pair>): map<int, set<string>>
  {
    if pairs == [] then map[]
    else
      var front, p := RemovedPairs(e, requireHandSide, pairs[..|pairs| - 1]), pairs[|pairs| - 1];
      var reasons := ContactReasons(e, requireHandSide, p);
      if reasons == {} then front else front[p.index := reasons]
  }

  /** What the gate starts from: the saved list if it already ran under this policy. */
  function Originals(e: Event, requireHandSide: bool): seq<Pair>
  {
    if e.audit.Some? && e.audit.value.requireHandSide == requireHandSide then e.original else e.pairs
  }

  /* ---------- the observation side ---------- */

  function RolesOf(points: seq<Point>, index: int): set<Role>
  {
    set p | p in points && p.id.index == index :: p.id.role
  }

  function Candidates(points: seq<Point>, tracked: map<int, Tracked>): set<int>
  {
    (set p | p in points :: p.id.index) + tracked.Keys
  }

  /** The tracker's flag of the last point with this identifier. */
  function PointVisible(points: seq<Point>, id: PointId): Option<bool>
  {
    if points == [] then None
    else if points[|points| - 1].id == id then points[|points| - 1].visible
    else PointVisible(points[..|points| - 1], id)
  }

  function Visible(r: Review, points: seq<Point>, index: int, role: Role): Option<bool>
  {
    if index in r.tracked then (if role.Hand? then r.tracked[index].handVisible else r.tracked[index].objVisible)
    else PointVisible(points, PointId(role, index))
  }

  function ObservationReasons(r: Review, points: seq<Point>, retained: set<int>, index: int): set<string>
  {
    (if index in retained then {} else {"contact_pair_rejected"}) +
    (if RolesOf(points, index) == {Hand, Obj} then {} else {"H_or_O_missing_or_rejected_at_observation"}) +
    (if Visible(r, points, index, Hand) == Some(true) then {} else {"H_tracker_invisible_or_missing"}) +
    (if Visible(r, points, index, Obj) == Some(true) then {} else {"O_tracker_invisible_or_missing"}) +
    (if index in r.gates then r.gates[index] else {}) +
    (if index in r.checks && !r.checks[index].handOnEndEffector then {"H_observation_review_failed"} else {}) +
    (if index in r.checks && !r.checks[index].objOnContacted then {"O_observation_review_failed"} else {}) +
    (if index in r.distances && r.distances[index] == Some(false) then {"pair_distance_review_failed"} else {})
  }

  function Allowed(r: Review, points: seq<Point>, retained: set<int>): set<int>
  {
    set i | i in Candidates(points, r.tracked) && ObservationReasons(r, points, retained, i) == {}
  }

  function Dropped(r: Review, points: seq<Point>, retained: set<int>): map<int, set<string>>
  {
    map i | i in Candidates(points, r.tracked) && ObservationReasons(r, points, retained, i) != {} ::
      ObservationReasons(r, points, retained, i)
  }

  function OfPairs(points: seq<Point>, allowed: set<int>): (r: seq<Point>)
    ensures forall p :: p in r <==> p in points && p.id.index in allowed
  {
    if points == [] then []
    else
      var front, p := OfPairs(points[..|points| - 1], allowed), points[|points| - 1];
      assert points == points[..|points| - 1] + [p];
      if p.id.index in allowed then front + [p] else front
  }

  function IdsOf(dropped: set<int>): set<PointId>
  {
    (set i | i in dropped :: PointId(Hand, i)) + (set i | i in dropped :: PointId(Obj, i))
  }

  function GateReview(r: Review, retained: set<int>): Review
  {
    var points := if r.original.Some? then r.original.value else r.points;
    var allowed, dropped := Allowed(r, points, retained), Dropped(r, points, retained);
    r.(points := OfPairs(points, allowed), original := Some(points), removedIds := r.removedIds + IdsOf(dropped.Keys),
       removed := dropped, retained := allowed)
  }

  function GateReviews(reviews: seq<Review>, retained: set<int>): (r: seq<Review>)
    ensures |r| == |reviews| && forall i :: 0 <= i < |r| ==> r[i] == GateReview(reviews[i], retained)
  {
    seq(|reviews|, i requires 0 <= i < |reviews| => GateReview(reviews[i], retained))
  }

  /** `enforce_event_pairs`. */
  function Enforce(e: Event, requireHandSide: bool): Event
  {
    var before := Originals(e, requireHandSide);
    var kept := KeptPairs(e, requireHandSide, before);
    Event(kept, before, e.sides, e.decisions, Some(Audit(requireHandSide, RemovedPairs(e, requireHandSide, before), Indices(kept))),
          GateReviews(e.reviews, Indices(kept)))
  }

  /* ---------- the guarantees ---------- */

  /** Contact pairs are kept whole: both coordinates present, neither refused, a known side if one is required. */
  lemma ContactPairsAreWhole(e: Event, requireHandSide: bool, p: Pair)
    requires p in Enforce(e, requireHandSide).pairs
    ensures p.hasHand && p.hasObj && p in Originals(e, requireHandSide)
    ensures !Refused(e.decisions, PointId(Hand, p.index)) && !Refused(e.decisions, PointId(Obj, p.index))
    ensures requireHandSide ==> PointId(Hand, p.index) in e.sides && e.sides[PointId(Hand, p.index)] in {"left", "right"}
  {
    var reasons := ContactReasons(e, requireHandSide, p);
    assert "H_missing_or_rejected_at_contact" !in reasons && "O_missing_or_rejected_at_contact" !in reasons;
    assert "H_contact_review_failed" !in reasons && "O_contact_review_failed" !in reasons;
    assert "H_handedness_unknown_or_missing" !in reasons;
  }

  lemma NoReasons(r: Review, points: seq<Point>, retained: set<int>, index: int)
    ensures ObservationReasons(r, points, retained, index) == {} <==>
      && index in retained && RolesOf(points, index) == {Hand, Obj}
      && Visible(r, points, index, Hand) == Some(true) && Visible(r, points, index, Obj) == Some(true)
      && (index in r.gates ==> r.gates[index] == {})
      && (index in r.checks ==> r.checks[index].handOnEndEffector && r.checks[index].objOnContacted)
      && (index in r.distances ==> r.distances[index] != Some(false))
  {
    hide RolesOf, Visible;
    var all := ObservationReasons(r, points, retained, index);
    if all == {} {
      assert "contact_pair_rejected" !in all && "H_or_O_missing_or_rejected_at_observation" !in all;
      assert "H_tracker_invisible_or_missing" !in all && "O_tracker_invisible_or_missing" !in all;
      assert "H_observation_review_failed" !in all && "O_observation_review_failed" !in all && "pair_distance_review_failed" !in all;
    }
  }

  /** After the gate every observed point belongs to a retained contact pair, and its partner is there too. */
  lemma ObservationsAreWholePairs(e: Event, requireHandSide: bool, k: nat, p: Point)
    requires k < |e.reviews| && p in Enforce(e, requireHandSide).reviews[k].points
    ensures
      var after := Enforce(e, requireHandSide);
      && p.id.index in Indices(after.pairs) && p.id.index in after.reviews[k].retained
      && RolesOf(after.reviews[k].points, p.id.index) == {Hand, Obj}
  {
    var after := Enforce(e, requireHandSide);
    var r := e.reviews[k];
    var points := if r.original.Some? then r.original.value else r.points;
    NoReasons(r, points, Indices(after.pairs), p.id.index);
    SameRoles(points, after.reviews[k].retained, p.id.index);
  }

  lemma SameRoles(points: seq<Point>, allowed: set<int>, index: int)
    requires index in allowed
    ensures RolesOf(OfPairs(points, allowed), index) == RolesOf(points, index)
  {
  }

  /** Running the gate again under the same policy changes nothing at all. */
  lemma EnforceTwice(e: Event, requireHandSide: bool)
    ensures Enforce(Enforce(e, requireHandSide), requireHandSide) == Enforce(e, requireHandSide)
  {
    hide ContactReasons, ObservationReasons, GateReview, Indices;
    var once := Enforce(e, requireHandSide);
    var twice := Enforce(once, requireHandSide);
    SameContact(e, once, requireHandSide, once.original);
    forall k | 0 <= k < |e.reviews| ensures twice.reviews[k] == once.reviews[k] {
      GateTwice(e.reviews[k], Indices(once.pairs));
    }
    assert twice.reviews == once.reviews;
  }

  lemma {:induction false} SameContact(e: Event, f: Event, requireHandSide: bool, pairs: seq<Pair>)
    requires e.sides == f.sides && e.decisions == f.decisions
    ensures KeptPairs(e, requireHandSide, pairs) == KeptPairs(f, requireHandSide, pairs)
    ensures RemovedPairs(e, requireHandSide, pairs) == RemovedPairs(f, requireHandSide, pairs)
    decreases |pairs|
  {
    if pairs != [] {
      SameContact(e, f, requireHandSide, pairs[..|pairs| - 1]);
      SameReasons(e, f, requireHandSide, pairs[|pairs| - 1]);
      hide ContactReasons;
    }
  }

  lemma SameReasons(e: Event, f: Event, requireHandSide: bool, p: Pair)
    requires e.sides == f.sides && e.decisions == f.decisions
    ensures ContactReasons(e, requireHandSide, p) == ContactReasons(f, requireHandSide, p)
  {
  }

  lemma GateTwice(r: Review, retained: set<int>)
    ensures GateReview(GateReview(r, retained), retained) == GateReview(r, retained)
  {
    hide OfPairs, Candidates;
    var once := GateReview(r, retained);
    var points := once.original.value;
    forall i ensures ObservationReasons(r, points, retained, i) == ObservationReasons(once, points, retained, i) {
      SameObservation(r, once, points, retained, i);
    }
    hide ObservationReasons;
    assert Allowed(r, points, retained) == Allowed(once, points, retained);
    assert Dropped(r, points, retained) == Dropped(once, points, retained);
  }

  lemma SameObservation(r: Review, s: Review, points: seq<Point>, retained: set<int>, i: int)
    requires r.checks == s.checks && r.distances == s.distances && r.tracked == s.tracked && r.gates == s.gates
    ensures ObservationReasons(r, points, retained, i) == ObservationReasons(s, points, retained, i)
  {
    hide RolesOf, PointVisible, Visible;
    SameVisible(r, s, points, i, Hand);
    SameVisible(r, s, points, i, Obj);
  }

  lemma SameVisible(r: Review, s: Review, points: seq<Point>, i: int, role: Role)
    requires r.tracked == s.tracked
    ensures Visible(r, points, i, role) == Visible(s, points, i, role)
  {
  }

  /* ---------- the track review ---------- */

  /** One tracked pair as the tracker returns it; a coordinate is missing, or a list of values that may not be numbers. */
  datatype Track = Track(index: int, handVisible: Option<bool>, objVisible: Option<bool>,
                         handXy: Option<seq<Option<real>>>, objXy: Option<seq<Option<real>>>)

  function PointReasons(visible: Option<bool>, xy: Option<seq<Option<real>>>, prefix: string): set<string>
  {
    (if visible == Some(true) then {} else {prefix + "_tracker_invisible_or_missing"}) +
    (if xy.None? || |xy.value| != 2 then {prefix + "_coordinate_missing"}
     else if exists v :: v in xy.value && (v.None? || !(0.0 <= v.value <= 1.0)) then {prefix + "_coordinate_out_of_bounds"}
     else {})
  }

  /** `visibility_reasons`. */
  function VisibilityReasons(t: Track): set<string>
  {
    PointReasons(t.handVisible, t.handXy, "H") + PointReasons(t.objVisible, t.objXy, "O")
  }

  /** Both tracked points are seen and lie in the unit square. */
  predicate Seen(t: Track)
  {
    && t.handVisible == Some(true) && t.objVisible == Some(true) && InUnit(t.handXy) && InUnit(t.objXy)
  }

  predicate InUnit(xy: Option<seq<Option<real>>>)
  {
    xy.Some? && |xy.value| == 2 && forall v :: v in xy.value ==> v.Some? && 0.0 <= v.value <= 1.0
  }

  lemma VisibleIff(t: Track)
    ensures VisibilityReasons(t) == {} <==> Seen(t)
  {
    PointVisibleIff(t.handVisible, t.handXy, "H");
    PointVisibleIff(t.objVisible, t.objXy, "O");
    hide PointReasons;
    var hand, obj := PointReasons(t.handVisible, t.handXy, "H"), PointReasons(t.objVisible, t.objXy, "O");
    assert hand + obj == {} <==> hand == {} && obj == {} by {
      assert hand <= hand + obj && obj <= hand + obj;
    }
  }

  lemma PointVisibleIff(visible: Option<bool>, xy: Option<seq<Option<real>>>, prefix: string)
    ensures PointReasons(visible, xy, prefix) == {} <==> visible == Some(true) && InUnit(xy)
  {
    var all := PointReasons(visible, xy, prefix);
    if all == {} {
      assert prefix + "_tracker_invisible_or_missing" !in all && prefix + "_coordinate_missing" !in all;
      assert prefix + "_coordinate_out_of_bounds" !in all;
    }
  }

  /** A model's answer: None where the JSON value is missing or of the wrong type. */
  datatype Check = Check(index: Option<int>, judgments: Option<Judgments>, reason: Option<string>)

  datatype Verdict = Verdict(reason: Option<string>, checks: Option<seq<Check>>)

  predicate Blank(s: string)
  {
    forall c :: c in s ==> c == ' ' || c == '\t' || c == '\n' || c == '\r'
  }

  predicate CheckOk(c: Check, indices: set<int>)
  {
    c.index.Some? && c.index.value in indices && c.judgments.Some? && c.reason.Some? && !Blank(c.reason.value)
  }

  predicate DifferentPairs(checks: seq<Check>)
  {
    forall i, j :: 0 <= i < j < |checks| ==> checks[i].index != checks[j].index
  }

  /** One complete, evidenced judgment for exactly the asked pairs. */
  predicate VerdictOk(v: Verdict, indices: set<int>)
  {
    && v.reason.Some? && v.checks.Some? && |v.checks.value| == |indices|
    && (forall c :: c in v.checks.value ==> CheckOk(c, indices)) && DifferentPairs(v.checks.value)
  }

  /** `validate_verdict`: true when it returns, false when it raises. */
  method ValidateVerdict(v: Verdict, indices: set<int>) returns (ok: bool)
    ensures ok <==> VerdictOk(v, indices)
  {
    if v.reason.None? || v.checks.None? { return false; }
    var checks := v.checks.value;
    if |checks| != |indices| { return false; }
    var seen: set<int> := {};
    var i := 0;
    while i < |checks|
      invariant i <= |checks|
      invariant forall k :: 0 <= k < i ==> CheckOk(checks[k], indices) && checks[k].index.value in seen
      invariant forall n :: n in seen ==> exists k :: 0 <= k < i && checks[k].index.Some? && checks[k].index.value == n
      invariant DifferentPairs(checks[..i])
    {
      var c := checks[i];
      assert c in checks;
      if c.index.None? || c.index.value !in indices { return false; }
      if c.index.value in seen {
        ghost var k :| 0 <= k < i && checks[k].index.Some? && checks[k].index.value == c.index.value;
        return false;
      }
      seen := seen + {c.index.value};
      if c.judgments.None? { return false; }
      if c.reason.None? || Blank(c.reason.value) { return false; }
      i := i + 1;
    }
    assert checks[..i] == checks;
    return true;
  }

  function IndexSet(checks: seq<Check>): set<int>
  {
    set c | c in checks && c.index.Some? :: c.index.value
  }

  lemma {:induction false} AsManyIndices(checks: seq<Check>, indices: set<int>)
    requires DifferentPairs(checks) && forall c :: c in checks ==> CheckOk(c, indices)
    ensures |IndexSet(checks)| == |checks| && IndexSet(checks) <= indices
  {
    if checks != [] {
      var front, last := checks[..|checks| - 1], checks[|checks| - 1];
      AsManyIndices(front, indices);
      assert checks == front + [last];
      assert last in checks && CheckOk(last, indices);
      assert IndexSet(checks) == IndexSet(front) + {last.index.value};
      assert last.index.value !in IndexSet(front);
    }
  }

  lemma SubsetOfSameSize(a: set<int>, b: set<int>)
    requires a <= b && |a| == |b|
    ensures a == b
  {
    assert b == a + (b - a);
  }

  /** An accepted verdict judges every asked pair, and nothing else. */
  lemma VerdictCoversThePairs(v: Verdict, indices: set<int>)
    requires VerdictOk(v, indices)
    ensures IndexSet(v.checks.value) == indices
  {
    AsManyIndices(v.checks.value, indices);
    SubsetOfSameSize(IndexSet(v.checks.value), indices);
  }

  /* ---------- review, then gate ---------- */

  /** The separation check needs both coordinates. */
  function Growth(t: Track, measured: Option<bool>): Option<bool>
  {
    if t.handXy.Some? && t.objXy.Some? then measured else None
  }

  /** The reasons before any model is asked. */
  function HardReasons(t: Track, measured: Option<bool>): set<string>
  {
    VisibilityReasons(t) + if Growth(t, measured) == Some(false) then {"pair_distance_review_failed"} else {}
  }

  function FailedJudgments(j: Judgments): set<string>
  {
    (if j.handOnEndEffector then {} else {"hand_on_end_effector_failed"}) +
    (if j.objOnContacted then {} else {"object_on_contacted_object_failed"}) +
    (if j.handVisible then {} else {"hand_visible_failed"}) +
    (if j.objVisible then {} else {"object_visible_failed"}) +
    (if j.handSame then {} else {"hand_same_material_point_failed"}) +
    (if j.objSame then {} else {"object_same_material_point_failed"})
  }

  function FinalReasons(t: Track, measured: Option<bool>, checks: map<int, Judgments>): set<string>
  {
    HardReasons(t, measured) + if t.index in checks then FailedJudgments(checks[t.index]) else {}
  }

  function EligibleIndices(tracks: seq<Track>, measured: seq<Option<bool>>): set<int>
    requires |measured| == |tracks|
  {
    set k | 0 <= k < |tracks| && HardReasons(tracks[k], measured[k]) == {} :: tracks[k].index
  }

  function At(xy: Option<seq<Option<real>>>): (real, real)
  {
    if xy.Some? && |xy.value| == 2 && xy.value[0].Some? && xy.value[1].Some? then (xy.value[0].value, xy.value[1].value) else (0.0, 0.0)
  }

  function TrackPoints(t: Track): seq<Point>
  {
    [Point(PointId(Hand, t.index), At(t.handXy), Some(true)), Point(PointId(Obj, t.index), At(t.objXy), Some(true))]
  }

  function PassedPoints(tracks: seq<Track>, measured: seq<Option<bool>>, checks: map<int, Judgments>): seq<Point>
    requires |measured| == |tracks|
  {
    if tracks == [] then []
    else
      var n := |tracks| - 1;
      PassedPoints(tracks[..n], measured[..n], checks) +
      if FinalReasons(tracks[n], measured[n], checks) == {} then TrackPoints(tracks[n]) else []
  }

  datatype Entry = Entry(tracked: Tracked, reasons: set<string>, growth: Option<bool>)

  /** The per-pair lists as lookups: the last entry of an index wins. */
  function Entries(tracks: seq<Track>, measured: seq<Option<bool>>, checks: map<int, Judgments>): map<int, Entry>
    requires |measured| == |tracks|
  {
    if tracks == [] then map[]
    else
      var n := |tracks| - 1;
      var t := tracks[n];
      Entries(tracks[..n], measured[..n], checks)
        [t.index := Entry(Tracked(t.handVisible, t.objVisible), FinalReasons(t, measured[n], checks), Growth(t, measured[n]))]
  }

  /** The review that is saved, once the judgments are known. */
  function ReviewOf(tracks: seq<Track>, measured: seq<Option<bool>>, checks: map<int, Judgments>): Review
    requires |measured| == |tracks|
  {
    var all := Entries(tracks, measured, checks);
    Review(PassedPoints(tracks, measured, checks), None, checks, map i | i in all :: all[i].growth, map i | i in all :: all[i].tracked,
           map i | i in all :: all[i].reasons,
           set k, role | 0 <= k < |tracks| && role in {Hand, Obj} && FinalReasons(tracks[k], measured[k], checks) != {} ::
             PointId(role, tracks[k].index),
           map[], {})
  }

  predicate UniqueIndices(tracks: seq<Track>)
  {
    forall i, j :: 0 <= i < j < |tracks| ==> tracks[i].index != tracks[j].index
  }

  /** No later track has the index of track `k`. */
  predicate IsLast(tracks: seq<Track>, k: nat)
  {
    k < |tracks| && forall j :: k < j < |tracks| ==> tracks[j].index != tracks[k].index
  }

  lemma {:induction false} EntryAt(tracks: seq<Track>, measured: seq<Option<bool>>, checks: map<int, Judgments>, k: nat)
    requires |measured| == |tracks| && IsLast(tracks, k)
    ensures
      var t, all := tracks[k], Entries(tracks, measured, checks);
      t.index in all && all[t.index] == Entry(Tracked(t.handVisible, t.objVisible), FinalReasons(t, measured[k], checks), Growth(t, measured[k]))
    decreases |tracks|
  {
    hide FinalReasons;
    var n := |tracks| - 1;
    if k < n { EntryAt(tracks[..n], measured[..n], checks, k); }
  }

  lemma {:induction false} PassedAt(tracks: seq<Track>, measured: seq<Option<bool>>, checks: map<int, Judgments>, p: Point)
    requires |measured| == |tracks| && p in PassedPoints(tracks, measured, checks)
    ensures exists k :: 0 <= k < |tracks| && tracks[k].index == p.id.index && FinalReasons(tracks[k], measured[k], checks) == {}
    ensures RolesOf(PassedPoints(tracks, measured, checks), p.id.index) == {Hand, Obj}
    decreases |tracks|
  {
    hide FinalReasons;
    var n := |tracks| - 1;
    var front := PassedPoints(tracks[..n], measured[..n], checks);
    var all := PassedPoints(tracks, measured, checks);
    if p in front {
      PassedAt(tracks[..n], measured[..n], checks, p);
      var k :| 0 <= k < n && tracks[..n][k].index == p.id.index && FinalReasons(tracks[..n][k], measured[..n][k], checks) == {};
      assert tracks[k].index == p.id.index && FinalReasons(tracks[k], measured[k], checks) == {};
      assert RolesOf(front, p.id.index) <= RolesOf(all, p.id.index);
    } else {
      assert FinalReasons(tracks[n], measured[n], checks) == {} && p in TrackPoints(tracks[n]);
      var hand, obj := TrackPoints(tracks[n])[0], TrackPoints(tracks[n])[1];
      assert hand in all && obj in all;
      assert Hand in RolesOf(all, p.id.index) && Obj in RolesOf(all, p.id.index);
    }
    BothRoles(RolesOf(all, p.id.index));
  }

  lemma BothRoles(roles: set<Role>)
    requires Hand in roles && Obj in roles
    ensures roles == {Hand, Obj}
  {
    forall r | r in roles ensures r == Hand || r == Obj { }
  }

  lemma PassedIsClean(t: Track, measured: Option<bool>, checks: map<int, Judgments>)
    requires FinalReasons(t, measured, checks) == {}
    ensures Seen(t) && Growth(t, measured) != Some(false)
    ensures t.index in checks ==> checks[t.index].handOnEndEffector && checks[t.index].objOnContacted
  {
    hide Seen;
    VisibleIff(t);
    var all := FinalReasons(t, measured, checks);
    assert HardReasons(t, measured) <= all && VisibilityReasons(t) <= all;
    assert "pair_distance_review_failed" !in all;
    assert "hand_on_end_effector_failed" !in all && "object_on_contacted_object_failed" !in all;
  }

  lemma {:induction false} LastTrack(tracks: seq<Track>, index: int) returns (k: nat)
    requires exists j :: 0 <= j < |tracks| && tracks[j].index == index
    ensures IsLast(tracks, k) && tracks[k].index == index
    decreases |tracks|
  {
    var n := |tracks| - 1;
    if tracks[n].index == index {
      k := n;
    } else {
      var j :| 0 <= j < |tracks| && tracks[j].index == index;
      assert tracks[..n][j].index == index;
      k := LastTrack(tracks[..n], index);
    }
  }

  /** A point the track review kept stays exactly when its contact pair was retained and the last track of its pair
      passed: the gate looks pairs up by their index. */
  lemma KeptByTheGateIff(tracks: seq<Track>, measured: seq<Option<bool>>, checks: map<int, Judgments>, retained: set<int>, p: Point)
    returns (k: nat)
    requires |measured| == |tracks| && p in ReviewOf(tracks, measured, checks).points
    ensures IsLast(tracks, k) && tracks[k].index == p.id.index
    ensures p in GateReview(ReviewOf(tracks, measured, checks), retained).points <==>
      p.id.index in retained && FinalReasons(tracks[k], measured[k], checks) == {}
  {
    hide FinalReasons, ObservationReasons, PassedPoints, Entries, RolesOf, Seen, Growth;
    var r, index := ReviewOf(tracks, measured, checks), p.id.index;
    PassedAt(tracks, measured, checks, p);
    k := LastTrack(tracks, index);
    EntryAt(tracks, measured, checks, k);
    NoReasons(r, r.points, retained, index);
    if FinalReasons(tracks[k], measured[k], checks) == {} {
      PassedIsClean(tracks[k], measured[k], checks);
      SeenIsVisible(tracks[k]);
    }
    assert index in Candidates(r.points, r.tracked);
  }

  lemma SeenIsVisible(t: Track)
    requires Seen(t)
    ensures t.handVisible == Some(true) && t.objVisible == Some(true)
  {
  }

  lemma PassedTrack(tracks: seq<Track>, measured: seq<Option<bool>>, checks: map<int, Judgments>, k: nat)
    requires |measured| == |tracks| && UniqueIndices(tracks) && k < |tracks|
    requires exists p :: p in PassedPoints(tracks, measured, checks) && p.id.index == tracks[k].index
    ensures FinalReasons(tracks[k], measured[k], checks) == {}
  {
    hide FinalReasons, PassedPoints, RolesOf;
    var p :| p in PassedPoints(tracks, measured, checks) && p.id.index == tracks[k].index;
    PassedAt(tracks, measured, checks, p);
  }

  /* ---------- the pairs that are reviewed ---------- */

  /** A tracked point: the contact agent's or the object's, with coordinates in thousandths. */
  datatype Mark = Mark(agent: bool, index: int, thousandths: seq<real>, visible: Option<bool>)

  /** The last mark of a pair's side. */
  function Side(marks: seq<Mark>, index: int, agent: bool): Option<Mark>
  {
    if marks == [] then None
    else
      var m := marks[|marks| - 1];
      if m.index == index && m.agent == agent then Some(m) else Side(marks[..|marks| - 1], index, agent)
  }

  function Scaled(side: Option<Mark>): Option<seq<Option<real>>>
  {
    if side.None? then None
    else
      var xy := side.value.thousandths;
      Some(seq(|xy|, i requires 0 <= i < |xy| => Some(xy[i] / 1000.0)))
  }

  /** What the marks say about one pair; a side without a mark is unseen. */
  function PairOf(marks: seq<Mark>, index: int): Track
  {
    var hand, obj := Side(marks, index, true), Side(marks, index, false);
    Track(index, Some(hand.Some? && hand.value.visible == Some(true)), Some(obj.Some? && obj.value.visible == Some(true)),
          Scaled(hand), Scaled(obj))
  }

  /** The pair indices in order of first appearance. */
  function Firsts(marks: seq<Mark>): (r: seq<int>)
    ensures forall i :: i in r <==> exists m :: m in marks && m.index == i
    ensures forall j, k :: 0 <= j < k < |r| ==> r[j] != r[k]
  {
    if marks == [] then []
    else
      var front, m := Firsts(marks[..|marks| - 1]), marks[|marks| - 1];
      assert marks == marks[..|marks| - 1] + [m];
      if m.index in front then front else front + [m.index]
  }

  function PairsOf(marks: seq<Mark>): (r: seq<Track>)
    ensures |r| == |Firsts(marks)| && forall k :: 0 <= k < |r| ==> r[k] == PairOf(marks, Firsts(marks)[k])
  {
    seq(|Firsts(marks)|, k requires 0 <= k < |Firsts(marks)| => PairOf(marks, Firsts(marks)[k]))
  }

  lemma PairsAreUnique(marks: seq<Mark>)
    ensures UniqueIndices(PairsOf(marks))
  {
    hide PairsOf;
  }

  /** From the tracked points to the gate: a pair the track review kept is dropped exactly when its contact pair was
      rejected. */
  lemma KeptUnlessContactRejected(marks: seq<Mark>, measured: seq<Option<bool>>, checks: map<int, Judgments>, retained: set<int>, p: Point)
    requires |measured| == |PairsOf(marks)| && p in ReviewOf(PairsOf(marks), measured, checks).points
    ensures p in GateReview(ReviewOf(PairsOf(marks), measured, checks), retained).points <==> p.id.index in retained
  {
    hide PairsOf, FinalReasons, GateReview, PassedPoints, Entries;
    PairsAreUnique(marks);
    var k := KeptByTheGateIff(PairsOf(marks), measured, checks, retained, p);
    PassedTrack(PairsOf(marks), measured, checks, k);
  }

  /** A point overwrites its side of the pair. */
  function Overwrite(pair: Track, m: Mark): Track
  {
    var visible := Some(m.visible == Some(true));
    if m.agent then pair.(handXy := Scaled(Some(m)), handVisible := visible) else pair.(objXy := Scaled(Some(m)), objVisible := visible)
  }

  /** `pairs_for_legacy`: one dictionary entry per index, each point overwriting its side. */
  method PairsForLegacy(marks: seq<Mark>) returns (tracks: seq<Track>)
    ensures tracks == PairsOf(marks)
  {
    hide PairOf, Firsts, Overwrite;
    var order: seq<int>, pairs: map<int, Track> := [], map[];
    var i := 0;
    NoFirsts();
    assert marks[..0] == [];
    while i < |marks|
      invariant i <= |marks| && order == Firsts(marks[..i])
      invariant forall x :: x in pairs <==> x in order
      invariant forall x :: x in pairs ==> pairs[x] == PairOf(marks[..i], x)
    {
      var m := marks[i];
      assert marks[..i + 1] == marks[..i] + [m];
      NewMark(marks[..i], m);
      if m.index !in pairs {
        order, pairs := order + [m.index], pairs[m.index := Track(m.index, Some(false), Some(false), None, None)];
      }
      pairs := pairs[m.index := Overwrite(pairs[m.index], m)];
      i := i + 1;
    }
    assert marks[..i] == marks;
    assert forall k :: 0 <= k < |order| ==> order[k] in order && order[k] in pairs;
    tracks := seq(|order|, k requires 0 <= k < |order| => pairs[order[k]]);
  }

  lemma NoFirsts()
    ensures Firsts([]) == []
  {
  }

  lemma NewMark(marks: seq<Mark>, m: Mark)
    ensures Firsts(marks + [m]) == if m.index in Firsts(marks) then Firsts(marks) else Firsts(marks) + [m.index]
    ensures forall x :: x != m.index ==> PairOf(marks + [m], x) == PairOf(marks, x)
    ensures m.index !in Firsts(marks) ==> PairOf(marks, m.index) == Track(m.index, Some(false), Some(false), None, None)
    ensures PairOf(marks + [m], m.index) == Overwrite(PairOf(marks, m.index), m)
  {
    assert (marks + [m])[..|marks|] == marks;
    if m.index !in Firsts(marks) {
      NoSide(marks, m.index, true);
      NoSide(marks, m.index, false);
    }
  }

  lemma {:induction false} NoSide(marks: seq<Mark>, index: int, agent: bool)
    requires forall m :: m in marks ==> m.index != index
    ensures Side(marks, index, agent) == None
    decreases |marks|
  {
    if marks != [] { NoSide(marks[..|marks| - 1], index, agent); }
  }

  /* ---------- the program ---------- */

  /** The first of at most three answers that is a proper verdict. */
  function FirstValid(answers: seq<Verdict>, indices: set<int>): (r: Option<Verdict>)
    ensures r.Some? ==> VerdictOk(r.value, indices)
  {
    if answers == [] then None
    else if VerdictOk(answers[0], indices) then Some(answers[0])
    else FirstValid(answers[1..], indices)
  }

  function ByIndex(checks: seq<Check>): map<int, Judgments>
  {
    if checks == [] then map[]
    else
      var front, c := ByIndex(checks[..|checks| - 1]), checks[|checks| - 1];
      if c.index.Some? && c.judgments.Some? then front[c.index.value := c.judgments.value] else front
  }

  /** `review_tracks` without the images and the model call: None is the third invalid answer.
      No answer is asked for when no pair passes the hard gates. */
  method ReviewTracks(tracks: seq<Track>, measured: seq<Option<bool>>, answers: seq<Verdict>) returns (r: Option<Review>)
    requires |measured| == |tracks| && |answers| == 3
    ensures
      var indices := EligibleIndices(tracks, measured);
      var verdict := FirstValid(answers, indices);
      r == if indices == {} then Some(ReviewOf(tracks, measured, map[]))
           else if verdict.Some? then Some(ReviewOf(tracks, measured, ByIndex(verdict.value.checks.value))) else None
  {
    hide ReviewOf, HardReasons, VerdictOk, ByIndex;
    var eligible: set<int> := {};
    var k := 0;
    while k < |tracks|
      invariant k <= |tracks|
      invariant eligible == set j | 0 <= j < k && HardReasons(tracks[j], measured[j]) == {} :: tracks[j].index
    {
      if HardReasons(tracks[k], measured[k]) == {} { eligible := eligible + {tracks[k].index}; }
      k := k + 1;
    }
    if eligible == {} { return Some(ReviewOf(tracks, measured, map[])); }
    var attempt := 0;
    while attempt < 3
      invariant attempt <= 3 && FirstValid(answers, eligible) == FirstValid(answers[attempt..], eligible)
    {
      var ok := ValidateVerdict(answers[attempt], eligible);
      assert answers[attempt..][0] == answers[attempt] && answers[attempt..][1..] == answers[attempt + 1..];
      if ok {
        ProperHasChecks(answers[attempt], eligible);
        return Some(ReviewOf(tracks, measured, ByIndex(answers[attempt].checks.value)));
      }
      attempt := attempt + 1;
    }
    return None;
  }

  lemma ProperHasChecks(v: Verdict, indices: set<int>)
    requires VerdictOk(v, indices)
    ensures v.checks.Some?
  {
  }

  lemma EmptyOrNot(s: set<int>)
    ensures s == {} || exists x :: x in s
  {
    assert (forall x :: x !in s) ==> s == {};
  }

  method Member(s: set<int>) returns (i: int)
    requires s != {}
    ensures i in s
  {
    EmptyOrNot(s);
    i :| i in s;
  }

  /** A saved review, rewritten in place. */
  class ObservationReview {
    const checks: map<int, Judgments>
    const distances: map<int, Option<bool>>
    const tracked: map<int, Tracked>
    const gates: map<int, set<string>>
    var points: seq<Point>
    var original: Option<seq<Point>>
    var removedIds: set<PointId>
    var removed: map<int, set<string>>
    var retained: set<int>

    ghost function State(): Review
      reads this
    {
      Review(points, original, checks, distances, tracked, gates, removedIds, removed, retained)
    }

    constructor (r: Review)
      ensures State() == r
    {
      checks, distances, tracked, gates := r.checks, r.distances, r.tracked, r.gates;
      points, original, removedIds, removed, retained := r.points, r.original, r.removedIds, r.removed, r.retained;
    }

    /** The inner loop of `enforce_event_pairs` for one review. */
    method Gate(kept: set<int>)
      modifies this
      ensures State() == GateReview(old(State()), kept)
    {
      hide ObservationReasons, Candidates, OfPairs, IdsOf;
      var before := if original.Some? then original.value else points;
      ghost var was := State();
      original := Some(before);
      var allowed, dropped := Decide(before, kept, was);
      points := OfPairs(before, allowed);
      removedIds := removedIds + IdsOf(dropped.Keys);
      removed, retained := dropped, allowed;
    }

    /** Every candidate index is either allowed or dropped with its reasons. */
    method Decide(before: seq<Point>, kept: set<int>, ghost was: Review) returns (allowed: set<int>, dropped: map<int, set<string>>)
      requires was.checks == checks && was.distances == distances && was.tracked == tracked && was.gates == gates
      ensures allowed == Allowed(was, before, kept) && dropped == Dropped(was, before, kept)
    {
      hide ObservationReasons, Candidates;
      var r := Review(before, None, checks, distances, tracked, gates, {}, map[], {});
      forall i ensures ObservationReasons(was, before, kept, i) == ObservationReasons(r, before, kept, i) {
        SameObservation(was, r, before, kept, i);
      }
      allowed, dropped := {}, map[];
      var left: set<int> := Candidates(before, tracked);
      ghost var all := left;
      while left != {}
        invariant left <= all
        invariant allowed == set i | i in all - left && ObservationReasons(was, before, kept, i) == {}
        invariant dropped == map i | i in all - left && ObservationReasons(was, before, kept, i) != {} :: ObservationReasons(was, before, kept, i)
        decreases |left|
      {
        var index := Member(left);
        var reasons := ObservationReasons(r, before, kept, index);
        if reasons != {} { dropped := dropped[index := reasons]; } else { allowed := allowed + {index}; }
        left := left - {index};
      }
    }
  }

  /** A saved event with its reviews, all rewritten in place. */
  class ContactEvent {
    const sides: map<PointId, string>
    const decisions: map<PointId, bool>
    const reviews: seq<ObservationReview>
    var pairs: seq<Pair>
    var original: seq<Pair>
    var audit: Option<Audit>

    ghost function Reviews(): (r: seq<Review>)
      reads reviews
      ensures |r| == |reviews| && forall i :: 0 <= i < |r| ==> r[i] == reviews[i].State()
    {
      seq(|reviews|, i requires 0 <= i < |reviews| reads reviews => reviews[i].State())
    }

    ghost function State(): Event
      reads this, reviews
    {
      Event(pairs, original, sides, decisions, audit, Reviews())
    }

    /** `enforce_event_pairs`; the reviews are distinct objects. */
    method EnforcePairs(requireHandSide: bool)
      requires forall i, j :: 0 <= i < j < |reviews| ==> reviews[i] != reviews[j]
      modifies this, reviews
      ensures State() == Enforce(old(State()), requireHandSide)
    {
      hide KeptPairs, RemovedPairs, GateReview, ContactReasons, Indices;
      ghost var was := State();
      original := if audit.Some? && audit.value.requireHandSide == requireHandSide then original else pairs;
      var removed;
      pairs, removed := Sift(was, requireHandSide, original);
      audit := Some(Audit(requireHandSide, removed, Indices(pairs)));
      var kept := Indices(pairs);
      label Sifted:
      var k := 0;
      while k < |reviews|
        invariant k <= |reviews|
        invariant forall j :: 0 <= j < k ==> reviews[j].State() == GateReview(was.reviews[j], kept)
        invariant forall j :: k <= j < |reviews| ==> reviews[j].State() == was.reviews[j]
        invariant unchanged@Sifted(this)
      {
        reviews[k].Gate(kept);
        k := k + 1;
      }
      assert Reviews() == GateReviews(was.reviews, kept);
    }

    /** The loop over the contact pairs. */
    method Sift(ghost e: Event, requireHandSide: bool, before: seq<Pair>) returns (kept: seq<Pair>, removed: map<int, set<string>>)
      requires e.sides == sides && e.decisions == decisions
      ensures kept == KeptPairs(e, requireHandSide, before) && removed == RemovedPairs(e, requireHandSide, before)
    {
      hide ContactReasons;
      var f := Event([], [], sides, decisions, None, []);
      kept, removed := [], map[];
      var k := 0;
      while k < |before|
        invariant k <= |before|
        invariant kept == KeptPairs(e, requireHandSide, before[..k]) && removed == RemovedPairs(e, requireHandSide, before[..k])
      {
        var pair := before[k];
        SameReasons(e, f, requireHandSide, pair);
        assert before[..k + 1][..k] == before[..k];
        var reasons := ContactReasons(f, requireHandSide, pair);
        if reasons != {} { removed := removed[pair.index := reasons]; } else { kept := kept + [pair]; }
        k := k + 1;
      }
      assert before[..k] == before;
    }
  }
}
