/** Face selection: the scan over a solid's faces that picks the face whose normal
    best matches a direction, ties within a tolerance being broken by how far the
    face's centre of mass lies along the direction. Two variants: the batch one
    (face_utils.best_face_for_direction), which returns the face, and the older one
    in keycap_exporter_core.py, which returns the chosen face's centre of mass. */
module FaceSelection {
  import opened Outcomes
  import opened Vectors
  import opened Geometry

  const Tolerance: real := 0.000001
  const InitialScore: real := -1.0
  const InitialSupport: real := -1e100

  /** What the scan reads from one usable face: the score (unit normal . direction)
      and the support (centre of mass . direction). */
  datatype Candidate = Candidate(score: real, support: real)

  /** The scan's decision for a candidate against the running best: rejected
      outright when its score is below the best score; otherwise it takes over when
      it scores more than the tolerance higher, or ties within the tolerance with a
      larger support. */
  predicate Replaces(c: Candidate, bestScore: real, bestSupport: real) {
    !(c.score < bestScore) &&
    (c.score > bestScore + Tolerance || (Abs(c.score - bestScore) <= Tolerance && c.support > bestSupport))
  }

  /** A candidate the scan would accept while nothing has been accepted yet. */
  predicate Eligible(c: Candidate) {
    Replaces(c, InitialScore, InitialSupport)
  }

  /** The running best: the index of the accepted face, its score and support. */
  datatype ScanState = ScanState(best: Option<nat>, score: real, support: real)

  const Initial := ScanState(None, InitialScore, InitialSupport)

  /** One iteration of the scan, at index i. The best score never decreases, and a
      change of state is always the acceptance of face i. */
  function Step(s: ScanState, i: nat, c: Option<Candidate>): (r: ScanState)
    ensures r.score >= s.score
    ensures r != s ==> c.Some? && Replaces(c.value, s.score, s.support)
    ensures r != s ==> r == ScanState(Some(i), c.value.score, c.value.support)
  {
    if c.Some? && Replaces(c.value, s.score, s.support) then
      ScanState(Some(i), c.value.score, c.value.support)
    else
      s
  }

  /** The scan's state after the first n candidates: Step folded over them from the
      initial state. A face it holds is always one already scanned. */
  function Scan(cs: seq<Option<Candidate>>, n: nat): (s: ScanState)
    requires n <= |cs|
    ensures s.best.Some? ==> s.best.value < n
  {
    if n == 0 then Initial else Step(Scan(cs, n - 1), n - 1, cs[n - 1])
  }

  /** The face the scan holds once every candidate has been seen. */
  function Chosen(cs: seq<Option<Candidate>>): (r: Option<nat>)
    ensures r.Some? ==> r.value < |cs|
  {
    Scan(cs, |cs|).best
  }

  /** After the first n candidates (None = a face without a usable normal): nothing
      scanned has a score more than the tolerance above the best score, nothing
      scanned that scores at least the best score has a larger support, and the best
      is an eligible candidate that no earlier candidate equals. */
  ghost predicate Scanned(cs: seq<Option<Candidate>>, n: nat, s: ScanState) {
    n <= |cs| &&
    (s.best.None? ==> s.score == InitialScore && s.support == InitialSupport) &&
    (s.best.Some? ==>
      s.best.value < n && cs[s.best.value] == Some(Candidate(s.score, s.support)) &&
      Eligible(Candidate(s.score, s.support)) &&
      forall j :: 0 <= j < s.best.value ==> cs[j] != cs[s.best.value]) &&
    forall j :: 0 <= j < n && cs[j].Some? ==>
      cs[j].value.score <= s.score + Tolerance &&
      (cs[j].value.score >= s.score ==> cs[j].value.support <= s.support)
  }

  /** Face i is a best match: usable, eligible, no usable face scores more than the
      tolerance above it, no usable face scoring at least as much has a larger
      support, and no earlier face ties it exactly. */
  ghost predicate IsBest(cs: seq<Option<Candidate>>, i: int) {
    0 <= i < |cs| && cs[i].Some? && Eligible(cs[i].value) &&
    (forall j :: 0 <= j < |cs| && cs[j].Some? ==>
      cs[j].value.score <= cs[i].value.score + Tolerance &&
      (cs[j].value.score >= cs[i].value.score ==> cs[j].value.support <= cs[i].value.support)) &&
    forall j :: 0 <= j < i ==> cs[j] != cs[i]
  }

  ghost predicate AnyEligible(cs: seq<Option<Candidate>>) {
    exists j :: 0 <= j < |cs| && cs[j].Some? && Eligible(cs[j].value)
  }

  lemma ScanStarts(cs: seq<Option<Candidate>>)
    ensures Scanned(cs, 0, Initial)
  {}

  /** One iteration keeps the scan invariant. */
  lemma StepKeeps(cs: seq<Option<Candidate>>, n: nat, s: ScanState)
    requires Scanned(cs, n, s) && n < |cs|
    ensures Scanned(cs, n + 1, Step(s, n, cs[n]))
  {
    var r := Step(s, n, cs[n]);
    if r != s {
      var c := cs[n].value;
      assert c.score >= s.score;
      if s.best.Some? {
        var old_ := Candidate(s.score, s.support);
        assert Eligible(c) by {
          if c.score <= InitialScore + Tolerance {
            assert s.score <= InitialScore + Tolerance;
            assert !(s.score > InitialScore + Tolerance);
            assert s.support > InitialSupport;
          }
        }
      }
      forall j | 0 <= j < n && cs[j].Some?
        ensures cs[j].value.score <= r.score + Tolerance
        ensures cs[j].value.score >= r.score ==> cs[j].value.support <= r.support
        ensures cs[j] == cs[n] ==> false
      {
        if cs[j].value.score >= r.score {
          assert !(c.score > s.score + Tolerance);
        }
      }
    } else {
      if cs[n].Some? {
        var c := cs[n].value;
        assert !Replaces(c, s.score, s.support);
      }
    }
  }

  /** At the end of the scan: nothing was accepted exactly when no face is eligible,
      and an accepted face is a best match. */
  lemma ScanEnds(cs: seq<Option<Candidate>>, s: ScanState)
    requires Scanned(cs, |cs|, s)
    ensures s.best.None? <==> !AnyEligible(cs)
    ensures s.best.Some? ==> IsBest(cs, s.best.value)
  {
    if s.best.None? {
      forall j | 0 <= j < |cs| && cs[j].Some?
        ensures !Eligible(cs[j].value)
      {}
    } else {
      var b := s.best.value;
      assert cs[b].Some? && Eligible(cs[b].value);
    }
  }

  /** The fold keeps the scan invariant at every prefix. */
  lemma {:induction false} ScanIsScanned(cs: seq<Option<Candidate>>, n: nat)
    requires n <= |cs|
    ensures Scanned(cs, n, Scan(cs, n))
  {
    if n > 0 {
      ScanIsScanned(cs, n - 1);
      StepKeeps(cs, n - 1, Scan(cs, n - 1));
    }
  }

  /** The scan's choice is a best match, and it chooses nothing exactly when no
      face is eligible. Several faces can be best matches (scores within the
      tolerance of each other); the choice is the one the scan order settles on. */
  lemma ChosenIsBest(cs: seq<Option<Candidate>>)
    ensures Chosen(cs).None? <==> !AnyEligible(cs)
    ensures Chosen(cs).Some? ==> IsBest(cs, Chosen(cs).value)
  {
    ScanIsScanned(cs, |cs|);
    ScanEnds(cs, Scan(cs, |cs|));
  }

  /** The candidate a face yields for direction d: none when normalAt raises or the
      normal is zero, otherwise the score of the normalised normal and the support. */
  function CandidateOf(f: Face, d: Vec3, length: Vec3 -> real): Option<Candidate>
    requires IsLengthFunction(length)
  {
    match f.normal
    case None => None
    case Some(n) =>
      if n == Zero then None
      else Some(Candidate(Dot(UnitVector(n, length).value, d), Dot(f.centroid, d)))
  }

  function Candidates(faces: seq<Face>, d: Vec3, length: Vec3 -> real): (cs: seq<Option<Candidate>>)
    requires IsLengthFunction(length)
    ensures |cs| == |faces|
    ensures forall j :: 0 <= j < |faces| ==> cs[j] == CandidateOf(faces[j], d, length)
  {
    if faces == [] then []
    else Candidates(faces[..|faces| - 1], d, length) + [CandidateOf(faces[|faces| - 1], d, length)]
  }

  predicate HasZeroNormal(faces: seq<Face>) {
    exists j :: 0 <= j < |faces| && faces[j].normal == Some(Zero)
  }

  /** face_utils.best_face_for_direction, returning the index of the chosen face.
      A zero direction, or any face whose normal is zero, raises ValueError (the
      normal is normalised outside the try block); a face whose normalAt raises is
      skipped; RuntimeError when no face is accepted. */
  method BestFaceForDirection(faces: seq<Face>, directionWorld: Vec3, length: Vec3 -> real)
    returns (r: Result<nat>)
    requires IsLengthFunction(length)
    ensures r == Failure(ZeroLengthVector) <==> directionWorld == Zero || HasZeroNormal(faces)
    ensures directionWorld != Zero && !HasZeroNormal(faces) ==>
      var cs := Candidates(faces, UnitVector(directionWorld, length).value, length);
      (Chosen(cs).None? ==> r == Failure(NoSuitableFace)) &&
      (Chosen(cs).Some? ==> r == Success(Chosen(cs).value)) &&
      (r.Failure? <==> !AnyEligible(cs)) &&
      (r.Success? ==> IsBest(cs, r.value))
  {
    var direction :- UnitVector(directionWorld, length);
    ghost var cs := Candidates(faces, direction, length);
    var bestFace: Option<nat> := None;
    var bestScore := InitialScore;
    var bestSupport := InitialSupport;
    var i := 0;
    while i < |faces|
      invariant 0 <= i <= |faces|
      invariant ScanState(bestFace, bestScore, bestSupport) == Scan(cs, i)
      invariant forall j :: 0 <= j < i ==> faces[j].normal != Some(Zero)
    {
      ghost var before := ScanState(bestFace, bestScore, bestSupport);
      var face := faces[i];
      assert cs[i] == CandidateOf(face, direction, length);
      if face.normal.Some? {
        var normalVector := UnitVector(face.normal.value, length);
        if normalVector.Failure? {
          return Failure(normalVector.error);
        }
        var score := Dot(normalVector.value, direction);
        if !(score < bestScore) {
          var support := Dot(face.centroid, direction);
          if score > bestScore + Tolerance || (Abs(score - bestScore) <= Tolerance && support > bestSupport) {
            bestFace := Some(i);
            bestScore := score;
            bestSupport := support;
          }
        }
      }
      assert ScanState(bestFace, bestScore, bestSupport) == Step(before, i, cs[i]);
      i := i + 1;
    }
    ChosenIsBest(cs);
    if bestFace.None? {
      return Failure(NoSuitableFace);
    }
    return Success(bestFace.value);
  }

  /** A face whose normal cannot be used: normalAt raises, or the normal is zero. */
  predicate BadNormal(f: Face) {
    f.normal.None? || f.normal == Some(Zero)
  }

  /** The exception a bad normal raises in the variant that does not catch. */
  function NormalError(f: Face): Error {
    if f.normal.None? then NormalEvaluationFailed else ZeroLengthVector
  }

  /** The index of the first face whose normal cannot be used. */
  function FirstBadNormal(faces: seq<Face>): (r: Option<nat>)
    ensures r.Some? ==> r.value < |faces| && BadNormal(faces[r.value])
    ensures r.Some? ==> forall j :: 0 <= j < r.value ==> !BadNormal(faces[j])
    ensures r.None? <==> forall j :: 0 <= j < |faces| ==> !BadNormal(faces[j])
  {
    if faces == [] then None
    else if BadNormal(faces[0]) then Some(0)
    else
      match FirstBadNormal(faces[1..])
      case None => None
      case Some(k) => Some(k + 1)
  }

  /** A point the older scan may return by the scores alone: the centre of mass of
      a best match, or the direction itself when no face is eligible. */
  ghost predicate IsBestCenter(faces: seq<Face>, direction: Vec3, length: Vec3 -> real, center: Vec3)
    requires IsLengthFunction(length)
  {
    var cs := Candidates(faces, direction, length);
    (!AnyEligible(cs) ==> center == direction) &&
    (AnyEligible(cs) ==> exists i :: IsBest(cs, i) && center == faces[i].centroid)
  }

  /** The point the older scan returns: the centre of mass of the face the scan
      chooses, or the direction itself when it chooses none. */
  function ScannedCenter(faces: seq<Face>, direction: Vec3, length: Vec3 -> real): Vec3
    requires IsLengthFunction(length)
  {
    match Chosen(Candidates(faces, direction, length))
    case None => direction
    case Some(i) => faces[i].centroid
  }

  /** best_face_for_direction of keycap_exporter_core.py. The direction is used as
      given, without normalising it; a face whose normalAt raises or whose normal is
      zero aborts the scan; the result is the centre of mass of the chosen face, or
      the direction itself when no face is accepted. */
  method BestCenterForDirection(faces: seq<Face>, direction: Vec3, length: Vec3 -> real)
    returns (r: Result<Vec3>)
    requires IsLengthFunction(length)
    ensures FirstBadNormal(faces).Some? ==>
      r == Failure(NormalError(faces[FirstBadNormal(faces).value]))
    ensures FirstBadNormal(faces).None? ==>
      r == Success(ScannedCenter(faces, direction, length)) && IsBestCenter(faces, direction, length, r.value)
  {
    ghost var cs := Candidates(faces, direction, length);
    var bestCenter := direction;
    var bestScore := InitialScore;
    var bestSupport := InitialSupport;
    ghost var bestFace: Option<nat> := None;
    var i := 0;
    while i < |faces|
      invariant 0 <= i <= |faces|
      invariant ScanState(bestFace, bestScore, bestSupport) == Scan(cs, i)
      invariant bestFace.None? ==> bestCenter == direction
      invariant bestFace.Some? ==> bestFace.value < i && bestCenter == faces[bestFace.value].centroid
      invariant forall j :: 0 <= j < i ==> !BadNormal(faces[j])
    {
      ghost var before := ScanState(bestFace, bestScore, bestSupport);
      var face := faces[i];
      assert cs[i] == CandidateOf(face, direction, length);
      if face.normal.None? {
        FirstBadNormalAt(faces, i);
        return Failure(NormalEvaluationFailed);
      }
      var normalVector := UnitVector(face.normal.value, length);
      if normalVector.Failure? {
        FirstBadNormalAt(faces, i);
        return Failure(normalVector.error);
      }
      var score := Dot(normalVector.value, direction);
      if !(score < bestScore) {
        var support := Dot(face.centroid, direction);
        if score > bestScore + Tolerance || (Abs(score - bestScore) <= Tolerance && support > bestSupport) {
          bestScore := score;
          bestSupport := support;
          bestCenter := face.centroid;
          bestFace := Some(i);
        }
      }
      assert ScanState(bestFace, bestScore, bestSupport) == Step(before, i, cs[i]);
      i := i + 1;
    }
    ScannedCenterIsBest(faces, direction, length);
    return Success(bestCenter);
  }

  /** The centre the older scan keeps is a best centre: the direction itself when no
      face is eligible, else the centre of mass of a best match. */
  lemma ScannedCenterIsBest(faces: seq<Face>, direction: Vec3, length: Vec3 -> real)
    requires IsLengthFunction(length)
    ensures IsBestCenter(faces, direction, length, ScannedCenter(faces, direction, length))
  {
    var cs := Candidates(faces, direction, length);
    ChosenIsBest(cs);
    if Chosen(cs).Some? {
      assert IsBest(cs, Chosen(cs).value) && ScannedCenter(faces, direction, length) == faces[Chosen(cs).value].centroid;
    }
  }

  /** The first bad normal is found where the scan meets it. */
  lemma {:induction false} FirstBadNormalAt(faces: seq<Face>, i: nat)
    requires i < |faces| && BadNormal(faces[i])
    requires forall j :: 0 <= j < i ==> !BadNormal(faces[j])
    ensures FirstBadNormal(faces) == Some(i)
  {
    if i > 0 {
      FirstBadNormalAt(faces[1..], i - 1);
    }
  }

  /** A usable face whose support exceeds the initial support is always eligible for
      a unit direction: unit scores lie in [-1, 1], so only faces scoring within the
      tolerance of -1 with a support at or below -1e100 are never accepted. */
  lemma UnitCandidateEligible(n: Vec3, d: Vec3, support: real)
    requires NormSq(n) == 1.0 && NormSq(d) == 1.0
    requires support > InitialSupport
    ensures Eligible(Candidate(Dot(n, d), support))
  {
    UnitDotBounds(n, d);
  }
}
