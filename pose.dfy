/** The pose-override table (SkeletalMesh::SkeletonModifier) and what the pose
    producers make of it: the finger clear, the triangular-wave finger motion, the
    three scripted demonstrations and the live toggle-bend control. The producers
    are stated here as functions from the old table to the new one; the methods in
    producers.dfy carry them out write by write.

    The table maps bone names to local transforms. A transform is either the
    identity or glm::rotate(identity, angle, axis), kept symbolic as Rot(axis, angle).
    Bone names are strings in the viewer; here a name is a Bone value, and Spelling
    gives its string. Spelling is a bijection between canonical bones and strings
    (SpellingInjective, ParseSpelling), so a table keyed by canonical bones is a
    table keyed by names. */
module HandPose {
  import opened Geometry

  datatype Transform = Id | Rot(axis: Axis, angle: real)

  // ---------------------------------------------------------------------------
  // Bone names

  datatype Finger = Thumb | Index | Middle | Ring | Pinky {
    /** The name the producers pass as the finger argument. */
    function Name(): string {
      match this
      case Thumb => "thumb"
      case Index => "index"
      case Middle => "middle"
      case Ring => "ring"
      case Pinky => "pinky"
    }
  }

  datatype Joint = Proximal | Intermediate | Distal | Fingertip

  const AllFingers: set<Finger> := {Thumb, Index, Middle, Ring, Pinky}
  const AllJoints: set<Joint> := {Proximal, Intermediate, Distal, Fingertip}

  /** The suffix finger_move and km_finger_move append to a finger's name. */
  function Suffix(j: Joint): string {
    match j
    case Proximal => "_proximal_phalange"
    case Intermediate => "_intermediate_phalange"
    case Distal => "_distal_phalange"
    case Fingertip => "_fingertip_phalange"
  }

  /** A bone name, by the way the producers build it: a phalange key
      "<finger>" + Suffix(joint) as finger_move builds it, the fingertip
      "<finger>_fingertip" as finger_move_clear spells it, or any other name. */
  datatype Bone =
    | Phalange(finger: Finger, joint: Joint)
    | Tip(finger: Finger)
    | Named(name: string)

  /** The part of a finger bone's name after the finger's name. */
  function FingerSuffix(b: Bone): string
    requires !b.Named?
  {
    if b.Tip? then "_fingertip" else Suffix(b.joint)
  }

  /** The string a bone stands for. */
  function Spelling(b: Bone): string {
    if b.Named? then b.name else b.finger.Name() + FingerSuffix(b)
  }

  lemma AllEnumerated(f: Finger, j: Joint)
    ensures f in AllFingers && j in AllJoints
  {
    match f
    case Thumb =>
    case Index =>
    case Middle =>
    case Ring =>
    case Pinky =>
  }

  /** The bones built from a finger's name: five fingers, four phalanges and a tip each. */
  const FingerBones: set<Bone> :=
    (set f, j | f in AllFingers && j in AllJoints :: Phalange(f, j)) + (set f | f in AllFingers :: Tip(f))

  /** The strings of the finger bones. */
  const Vocabulary: set<string> := set b | b in FingerBones :: Spelling(b)

  /** A bone is canonical unless it is a Named bone whose string is also the
      spelling of a finger bone. */
  predicate Canonical(b: Bone) {
    b.Named? ==> b.name !in Vocabulary
  }

  lemma InFingerBones(b: Bone)
    requires !b.Named?
    ensures b in FingerBones && Spelling(b) in Vocabulary
  {
    if b.Tip? {
      AllEnumerated(b.finger, Fingertip);
    } else {
      AllEnumerated(b.finger, b.joint);
    }
  }

  /** Two finger-prefixed names are equal only for the same finger and suffix:
      the five finger names start with five different letters. */
  lemma {:induction false} NamePrefix(f1: Finger, s1: string, f2: Finger, s2: string)
    requires f1.Name() + s1 == f2.Name() + s2
    ensures f1 == f2 && s1 == s2
  {
    var n1, n2 := f1.Name(), f2.Name();
    assert (n1 + s1)[0] == n1[0];
    assert (n2 + s2)[0] == n2[0];
    assert n1 == n2;
    assert s1 == (n1 + s1)[|n1|..];
    assert s2 == (n2 + s2)[|n2|..];
  }

  /** The five suffixes have five different lengths. */
  lemma {:induction false} SuffixDetermines(a: Bone, b: Bone)
    requires !a.Named? && !b.Named? && |FingerSuffix(a)| == |FingerSuffix(b)|
    ensures a.Tip? == b.Tip? && (a.Phalange? ==> a.joint == b.joint)
  {
    assert |Suffix(Proximal)| == 18;
    assert |Suffix(Intermediate)| == 22;
    assert |Suffix(Distal)| == 16;
    assert |Suffix(Fingertip)| == 19;
    assert |"_fingertip"| == 10;
  }

  /** Different canonical bones are different strings. */
  lemma {:induction false} SpellingInjective(a: Bone, b: Bone)
    requires Canonical(a) && Canonical(b) && Spelling(a) == Spelling(b)
    ensures a == b
  {
    if a.Named? && !b.Named? {
      InFingerBones(b);
    } else if !a.Named? && b.Named? {
      InFingerBones(a);
    } else if !a.Named? && !b.Named? {
      NamePrefix(a.finger, FingerSuffix(a), b.finger, FingerSuffix(b));
      SuffixDetermines(a, b);
    }
  }

  /** The canonical bone a string stands for. */
  ghost function Parse(s: string): (b: Bone)
    ensures Canonical(b) && Spelling(b) == s
  {
    if s in Vocabulary then
      var b :| b in FingerBones && Spelling(b) == s;
      b
    else
      Named(s)
  }

  /** Parsing the spelling of a canonical bone gives the bone back. */
  lemma ParseSpelling(b: Bone)
    requires Canonical(b)
    ensures Parse(Spelling(b)) == b
  {
    SpellingInjective(Parse(Spelling(b)), b);
  }

  const Metacarpals: Bone := Named("metacarpals")

  /** "metacarpals" is shorter than every finger bone's name. */
  lemma MetacarpalsCanonical()
    ensures Canonical(Metacarpals)
  {
    forall b | b in FingerBones ensures Spelling(b) != "metacarpals" {
      assert |b.finger.Name()| >= 4;
      assert |Spelling(b)| >= 14;
    }
  }

  /** The fingertip key finger_move writes and the fingertip bone
      finger_move_clear resets are two different names. */
  lemma FingertipSpellings(f: Finger)
    ensures Spelling(Phalange(f, Fingertip)) == f.Name() + "_fingertip_phalange"
    ensures Spelling(Tip(f)) == f.Name() + "_fingertip"
    ensures Spelling(Phalange(f, Fingertip)) != Spelling(Tip(f))
  {
    assert |Spelling(Phalange(f, Fingertip))| != |Spelling(Tip(f))|;
  }

  // ---------------------------------------------------------------------------
  // Tables

  type Table = map<Bone, Transform>

  /** Every bone of the table is canonical, so that no two keys are one name. */
  predicate WellKeyed(m: Table) {
    forall b :: b in m ==> Canonical(b)
  }

  /** Bone b has the same entry in both tables, or is missing from both. */
  predicate Agree(m: Table, r: Table, b: Bone) {
    (b in m <==> b in r) && (b in m ==> m[b] == r[b])
  }

  // ---------------------------------------------------------------------------
  // finger_move_clear

  /** The bone finger_move_clear resets for joint j of finger f. */
  function ClearedBone(f: Finger, j: Joint): Bone {
    if j == Fingertip then Tip(f) else Phalange(f, j)
  }

  /** The twenty bones finger_move_clear resets: four per finger. */
  const ClearedBones: set<Bone> :=
    set f, j | f in AllFingers && j in AllJoints :: ClearedBone(f, j)

  /** finger_move_clear resets the proximal, intermediate and distal phalanges and
      the "<finger>_fingertip" bone of every finger, and nothing else: not the
      "<finger>_fingertip_phalange" key finger_move writes, and no named bone. */
  lemma ClearedBonesMembership()
    ensures forall f: Finger, j: Joint :: Phalange(f, j) in ClearedBones <==> j != Fingertip
    ensures forall f: Finger :: Tip(f) in ClearedBones
    ensures forall b: Bone :: b.Named? ==> b !in ClearedBones
  {
    forall f: Finger, j: Joint | j != Fingertip ensures Phalange(f, j) in ClearedBones {
      AllEnumerated(f, j);
      assert ClearedBone(f, j) == Phalange(f, j);
    }
    forall f: Finger ensures Tip(f) in ClearedBones {
      AllEnumerated(f, Fingertip);
      assert ClearedBone(f, Fingertip) == Tip(f);
    }
  }

  /** The four names finger_move_clear writes for one finger, as it spells them. */
  function ListedNames(f: Finger): set<string> {
    match f
    case Thumb => {"thumb_proximal_phalange", "thumb_intermediate_phalange", "thumb_distal_phalange", "thumb_fingertip"}
    case Index => {"index_proximal_phalange", "index_intermediate_phalange", "index_distal_phalange", "index_fingertip"}
    case Middle => {"middle_proximal_phalange", "middle_intermediate_phalange", "middle_distal_phalange", "middle_fingertip"}
    case Ring => {"ring_proximal_phalange", "ring_intermediate_phalange", "ring_distal_phalange", "ring_fingertip"}
    case Pinky => {"pinky_proximal_phalange", "pinky_intermediate_phalange", "pinky_distal_phalange", "pinky_fingertip"}
  }

  /** The spellings of one finger's four cleared bones. */
  function ClearedNames(f: Finger): set<string> {
    {Spelling(ClearedBone(f, Proximal)), Spelling(ClearedBone(f, Intermediate)),
     Spelling(ClearedBone(f, Distal)), Spelling(ClearedBone(f, Fingertip))}
  }

  // One literal per lemma: each equality of string literals is checked character by character.

  lemma ThumbProximalSpelled() ensures "thumb" + "_proximal_phalange" == "thumb_proximal_phalange" { }
  lemma ThumbIntermediateSpelled() ensures "thumb" + "_intermediate_phalange" == "thumb_intermediate_phalange" { }
  lemma ThumbDistalSpelled() ensures "thumb" + "_distal_phalange" == "thumb_distal_phalange" { }
  lemma ThumbTipSpelled() ensures "thumb" + "_fingertip" == "thumb_fingertip" { }

  lemma IndexProximalSpelled() ensures "index" + "_proximal_phalange" == "index_proximal_phalange" { }
  lemma IndexIntermediateSpelled() ensures "index" + "_intermediate_phalange" == "index_intermediate_phalange" { }
  lemma IndexDistalSpelled() ensures "index" + "_distal_phalange" == "index_distal_phalange" { }
  lemma IndexTipSpelled() ensures "index" + "_fingertip" == "index_fingertip" { }

  lemma MiddleProximalSpelled() ensures "middle" + "_proximal_phalange" == "middle_proximal_phalange" { }
  lemma MiddleIntermediateSpelled() ensures "middle" + "_intermediate_phalange" == "middle_intermediate_phalange" { }
  lemma MiddleDistalSpelled() ensures "middle" + "_distal_phalange" == "middle_distal_phalange" { }
  lemma MiddleTipSpelled() ensures "middle" + "_fingertip" == "middle_fingertip" { }

  lemma RingProximalSpelled() ensures "ring" + "_proximal_phalange" == "ring_proximal_phalange" { }
  lemma RingIntermediateSpelled() ensures "ring" + "_intermediate_phalange" == "ring_intermediate_phalange" { }
  lemma RingDistalSpelled() ensures "ring" + "_distal_phalange" == "ring_distal_phalange" { }
  lemma RingTipSpelled() ensures "ring" + "_fingertip" == "ring_fingertip" { }

  lemma PinkyProximalSpelled() ensures "pinky" + "_proximal_phalange" == "pinky_proximal_phalange" { }
  lemma PinkyIntermediateSpelled() ensures "pinky" + "_intermediate_phalange" == "pinky_intermediate_phalange" { }
  lemma PinkyDistalSpelled() ensures "pinky" + "_distal_phalange" == "pinky_distal_phalange" { }
  lemma PinkyTipSpelled() ensures "pinky" + "_fingertip" == "pinky_fingertip" { }

  lemma ThumbNamesListed()
    ensures ClearedNames(Thumb) == ListedNames(Thumb)
  {
    assert Spelling(ClearedBone(Thumb, Proximal)) == "thumb" + "_proximal_phalange";
    assert Spelling(ClearedBone(Thumb, Intermediate)) == "thumb" + "_intermediate_phalange";
    assert Spelling(ClearedBone(Thumb, Distal)) == "thumb" + "_distal_phalange";
    assert Spelling(ClearedBone(Thumb, Fingertip)) == "thumb" + "_fingertip";
    ThumbProximalSpelled();
    ThumbIntermediateSpelled();
    ThumbDistalSpelled();
    ThumbTipSpelled();
  }

  lemma IndexNamesListed()
    ensures ClearedNames(Index) == ListedNames(Index)
  {
    assert Spelling(ClearedBone(Index, Proximal)) == "index" + "_proximal_phalange";
    assert Spelling(ClearedBone(Index, Intermediate)) == "index" + "_intermediate_phalange";
    assert Spelling(ClearedBone(Index, Distal)) == "index" + "_distal_phalange";
    assert Spelling(ClearedBone(Index, Fingertip)) == "index" + "_fingertip";
    IndexProximalSpelled();
    IndexIntermediateSpelled();
    IndexDistalSpelled();
    IndexTipSpelled();
  }

  lemma MiddleNamesListed()
    ensures ClearedNames(Middle) == ListedNames(Middle)
  {
    assert Spelling(ClearedBone(Middle, Proximal)) == "middle" + "_proximal_phalange";
    assert Spelling(ClearedBone(Middle, Intermediate)) == "middle" + "_intermediate_phalange";
    assert Spelling(ClearedBone(Middle, Distal)) == "middle" + "_distal_phalange";
    assert Spelling(ClearedBone(Middle, Fingertip)) == "middle" + "_fingertip";
    MiddleProximalSpelled();
    MiddleIntermediateSpelled();
    MiddleDistalSpelled();
    MiddleTipSpelled();
  }

  lemma RingNamesListed()
    ensures ClearedNames(Ring) == ListedNames(Ring)
  {
    assert Spelling(ClearedBone(Ring, Proximal)) == "ring" + "_proximal_phalange";
    assert Spelling(ClearedBone(Ring, Intermediate)) == "ring" + "_intermediate_phalange";
    assert Spelling(ClearedBone(Ring, Distal)) == "ring" + "_distal_phalange";
    assert Spelling(ClearedBone(Ring, Fingertip)) == "ring" + "_fingertip";
    RingProximalSpelled();
    RingIntermediateSpelled();
    RingDistalSpelled();
    RingTipSpelled();
  }

  lemma PinkyNamesListed()
    ensures ClearedNames(Pinky) == ListedNames(Pinky)
  {
    assert Spelling(ClearedBone(Pinky, Proximal)) == "pinky" + "_proximal_phalange";
    assert Spelling(ClearedBone(Pinky, Intermediate)) == "pinky" + "_intermediate_phalange";
    assert Spelling(ClearedBone(Pinky, Distal)) == "pinky" + "_distal_phalange";
    assert Spelling(ClearedBone(Pinky, Fingertip)) == "pinky" + "_fingertip";
    PinkyProximalSpelled();
    PinkyIntermediateSpelled();
    PinkyDistalSpelled();
    PinkyTipSpelled();
  }

  /** Finger by finger, the four cleared bones are spelled as finger_move_clear
      lists them. */
  lemma ClearedBonesListed()
    ensures forall f: Finger :: ClearedNames(f) == ListedNames(f)
  {
    forall f: Finger ensures ClearedNames(f) == ListedNames(f) {
      match f
      case Thumb => ThumbNamesListed();
      case Index => IndexNamesListed();
      case Middle => MiddleNamesListed();
      case Ring => RingNamesListed();
      case Pinky => PinkyNamesListed();
    }
  }

  /** finger_move_clear: every bone of ClearedBones becomes the identity; every
      other bone, metacarpals among them, keeps its entry. */
  function Cleared(m: Table): (r: Table)
    ensures forall b :: b in ClearedBones ==> b in r && r[b] == Id
    ensures forall b :: b !in ClearedBones ==> Agree(m, r, b)
  {
    m + map b | b in ClearedBones :: Id
  }

  /** The four writes finger_move_clear makes for one finger, in source order. */
  function ClearedFinger(m: Table, f: Finger): Table {
    m[Phalange(f, Proximal) := Id][Phalange(f, Intermediate) := Id][Phalange(f, Distal) := Id][Tip(f) := Id]
  }

  /** finger_move_clear after its first i fingers: thumb, index, middle, ring, pinky. */
  function ClearedUpTo(m: Table, i: nat): Table
    requires i <= 5
  {
    if i == 0 then m else ClearedFinger(ClearedUpTo(m, i - 1), FingerAt(i - 1))
  }

  /** b is one of the bones finger_move_clear resets for the first i fingers. */
  predicate ClearedBelow(b: Bone, i: nat) {
    (b.Tip? || (b.Phalange? && b.joint != Fingertip)) && Order(b.finger) < i
  }

  /** The table once the first i fingers have been cleared. */
  ghost predicate ClearStage(r: Table, m: Table, i: nat) {
    forall b: Bone :: if ClearedBelow(b, i) then b in r && r[b] == Id else Agree(m, r, b)
  }

  /** Each finger's block of writes clears exactly that finger's four bones. */
  lemma {:induction false} ClearStages(m: Table, i: nat)
    requires i <= 5
    ensures ClearStage(ClearedUpTo(m, i), m, i)
  {
    if i > 0 {
      ClearStages(m, i - 1);
      var r := ClearedUpTo(m, i - 1);
      var g := FingerAt(i - 1);
      forall b: Bone ensures if ClearedBelow(b, i) then b in ClearedFinger(r, g) && ClearedFinger(r, g)[b] == Id
                             else Agree(m, ClearedFinger(r, g), b) {
        assert ClearedBelow(b, i) <==>
          ClearedBelow(b, i - 1) || b in {Phalange(g, Proximal), Phalange(g, Intermediate), Phalange(g, Distal), Tip(g)};
      }
    }
  }

  /** The twenty writes in source order leave exactly the table Cleared describes. */
  lemma ClearedInOrder(m: Table)
    ensures ClearedUpTo(m, 5) == Cleared(m)
  {
    ClearStages(m, 5);
    ClearedBonesMembership();
    var r := ClearedUpTo(m, 5);
    forall b: Bone ensures Agree(r, Cleared(m), b) {
      if b.Phalange? {
        AllEnumerated(b.finger, b.joint);
      }
      assert ClearedBelow(b, 5) <==> b in ClearedBones;
    }
    TablesEqual(r, Cleared(m));
  }

  /** Two tables whose every bone agrees are the same table. */
  lemma TablesEqual(r: Table, s: Table)
    requires forall b :: Agree(r, s, b)
    ensures r == s
  {
    forall b ensures b in r.Keys <==> b in s.Keys {
      assert Agree(r, s, b);
    }
    assert r.Keys == s.Keys;
    forall b | b in r ensures r[b] == s[b] {
      assert Agree(r, s, b);
    }
  }

  // ---------------------------------------------------------------------------
  // The triangular wave that drives the scripted motion

  /** |t / (period / 2) - 1|: 1 at the start of a period, 0 at its middle, back
      to 1 at its end. */
  function Wave(t: real, period: real): real
    requires 0.0 < period
  {
    Abs(t / (period * 0.5) - 1.0)
  }

  /** The bend angle finger_move gives a joint with tuning fraction frac at time t
      of a period: the wave scaled by pi / frac. A negative frac bends the other way. */
  function JointAngle(t: real, period: real, frac: real): real
    requires 0.0 < period && frac != 0.0
  {
    Wave(t, period) * (Pi / frac)
  }

  /** Within a period the wave stays between 0 and 1. */
  lemma {:induction false} WaveBounded(t: real, period: real)
    requires 0.0 < period
    ensures 0.0 <= Wave(t, period)
    ensures 0.0 <= t <= period ==> Wave(t, period) <= 1.0
  {
    var u := t / (period * 0.5);
    if 0.0 <= t <= period {
      assert u * (period * 0.5) == t;
      assert 0.0 <= u <= 2.0;
    }
  }

  /** Within a period a bend never exceeds pi / |frac| in size, and its sign is
      the sign of frac. */
  lemma {:induction false} JointAngleBounded(t: real, period: real, frac: real)
    requires 0.0 < period && frac != 0.0
    ensures 0.0 <= t <= period ==> Abs(JointAngle(t, period, frac)) <= Pi / Abs(frac)
    ensures 0.0 < frac ==> 0.0 <= JointAngle(t, period, frac)
    ensures frac < 0.0 ==> JointAngle(t, period, frac) <= 0.0
  {
    var w := Wave(t, period);
    var c := Pi / frac;
    WaveBounded(t, period);
    assert Abs(c) == Pi / Abs(frac);
    assert Abs(w * c) == w * Abs(c);
    assert 0.0 <= t <= period ==> w * Abs(c) <= Abs(c);
    if 0.0 < frac {
      assert 0.0 < c;
    } else {
      assert c < 0.0;
    }
  }

  /** The wave is symmetric about the middle of the period. */
  lemma {:induction false} WaveSymmetric(t: real, period: real)
    requires 0.0 < period
    ensures Wave(period - t, period) == Wave(t, period)
  {
    var h := period * 0.5;
    assert (period - t) / h == period / h - t / h;
    assert period / h == 2.0;
  }

  /** A joint is bent as far at time t as at time period - t. */
  lemma {:induction false} JointAngleSymmetric(t: real, period: real, frac: real)
    requires 0.0 < period && frac != 0.0
    ensures JointAngle(period - t, period, frac) == JointAngle(t, period, frac)
  {
    WaveSymmetric(t, period);
  }

  /** At the start of a period a joint is at its extreme pi / frac; at the middle
      it is straight. */
  lemma {:induction false} JointAngleExtremes(period: real, frac: real)
    requires 0.0 < period && frac != 0.0
    ensures JointAngle(0.0, period, frac) == Pi / frac
    ensures JointAngle(period * 0.5, period, frac) == 0.0
  {
    assert (period * 0.5) / (period * 0.5) == 1.0;
  }

  // ---------------------------------------------------------------------------
  // finger_move

  /** The four per-joint fractions finger_move takes. */
  datatype Fracs = Fracs(proximal: real, intermediate: real, distal: real, fingertip: real) {
    function Of(j: Joint): real {
      match j
      case Proximal => proximal
      case Intermediate => intermediate
      case Distal => distal
      case Fingertip => fingertip
    }
  }

  const NoBend: Fracs := Fracs(0.0, 0.0, 0.0, 0.0)

  /** One of finger_move's four guarded writes: a zero fraction skips the joint. */
  function MoveJoint(m: Table, f: Finger, j: Joint, t: real, period: real, frac: real): (r: Table)
    requires 0.0 < period
    ensures frac != 0.0 ==> Phalange(f, j) in r && r[Phalange(f, j)] == Rot(ZAxis, JointAngle(t, period, frac))
    ensures frac == 0.0 ==> r == m
    ensures forall b :: b != Phalange(f, j) ==> Agree(m, r, b)
  {
    if frac != 0.0 then m[Phalange(f, j) := Rot(ZAxis, JointAngle(t, period, frac))] else m
  }

  /** finger_move: a joint with a nonzero fraction gets its z-axis bend, a joint
      with a zero fraction keeps its entry, and no other bone changes. */
  function FingerMoved(m: Table, f: Finger, t: real, period: real, fr: Fracs): (r: Table)
    requires 0.0 < period
    ensures forall j :: fr.Of(j) != 0.0 ==>
      Phalange(f, j) in r && r[Phalange(f, j)] == Rot(ZAxis, JointAngle(t, period, fr.Of(j)))
    ensures forall j :: fr.Of(j) == 0.0 ==> Agree(m, r, Phalange(f, j))
    ensures forall b: Bone :: !(b.Phalange? && b.finger == f) ==> Agree(m, r, b)
  {
    var r1 := MoveJoint(m, f, Proximal, t, period, fr.proximal);
    var r2 := MoveJoint(r1, f, Intermediate, t, period, fr.intermediate);
    var r3 := MoveJoint(r2, f, Distal, t, period, fr.distal);
    MoveJoint(r3, f, Fingertip, t, period, fr.fingertip)
  }

  /** finger_move with four zero fractions leaves the table as it was. */
  lemma {:induction false} FingerMovedNoBend(m: Table, f: Finger, t: real, period: real)
    requires 0.0 < period
    ensures FingerMoved(m, f, t, period, NoBend) == m
  {
  }

  // ---------------------------------------------------------------------------
  // Clear-and-move poses

  /** The period, in seconds, of every scripted demonstration. */
  const Period: real := 2.4

  /** The fractions of the five fingers for one scripted pose. */
  datatype HandFracs = HandFracs(thumb: Fracs, index: Fracs, middle: Fracs, ring: Fracs, pinky: Fracs) {
    function Of(f: Finger): Fracs {
      match f
      case Thumb => thumb
      case Index => index
      case Middle => middle
      case Ring => ring
      case Pinky => pinky
    }
  }

  /** The "<finger>_fingertip_phalange" keys a pose writes: those of the fingers
      whose fingertip fraction is nonzero. */
  function WrittenTips(hf: HandFracs): set<Bone> {
    set f | f in AllFingers && hf.Of(f).fingertip != 0.0 :: Phalange(f, Fingertip)
  }

  /** What a joint cleared to the identity ends as after finger_move with fraction frac. */
  function Bend(t: real, frac: real): Transform {
    if frac != 0.0 then Rot(ZAxis, JointAngle(t, Period, frac)) else Id
  }

  /** The position of each finger in the order the poses move them. */
  function Order(f: Finger): nat {
    match f
    case Thumb => 0
    case Index => 1
    case Middle => 2
    case Ring => 3
    case Pinky => 4
  }

  /** The finger moved at position i of a clear-and-move pose. */
  function FingerAt(i: nat): (f: Finger)
    requires i < 5
    ensures Order(f) == i
  {
    if i == 0 then Thumb else if i == 1 then Index else if i == 2 then Middle
    else if i == 3 then Ring else Pinky
  }

  /** finger_move_clear followed by the first i finger_move calls of a
      clear-and-move pose: thumb, index, middle, ring, pinky in that order. */
  function MovedUpTo(m: Table, t: real, hf: HandFracs, i: nat): Table
    requires i <= 5
  {
    if i == 0 then Cleared(m)
    else FingerMoved(MovedUpTo(m, t, hf, i - 1), FingerAt(i - 1), t, Period, hf.Of(FingerAt(i - 1)))
  }

  /** finger_move_clear, then finger_move for all five fingers with the pose's
      fractions: the shape of completion_1 and completion_3. */
  function ClearAndMove(m: Table, t: real, hf: HandFracs): Table {
    MovedUpTo(m, t, hf, 5)
  }

  /** Finger f's proximal, intermediate and distal joints hold the bends of fr and
      its cleared fingertip is the identity. */
  ghost predicate Settled(r: Table, f: Finger, t: real, fr: Fracs) {
    && (forall j :: j != Fingertip ==> Phalange(f, j) in r && r[Phalange(f, j)] == Bend(t, fr.Of(j)))
    && Tip(f) in r && r[Tip(f)] == Id
  }

  /** finger_move has written the "<finger>_fingertip_phalange" bend of fr. */
  ghost predicate TipWritten(r: Table, f: Finger, t: real, fr: Fracs) {
    && fr.fingertip != 0.0
    && Phalange(f, Fingertip) in r
    && r[Phalange(f, Fingertip)] == Rot(ZAxis, JointAngle(t, Period, fr.fingertip))
  }

  /** The table of a clear-and-move pose once the first i fingers have been moved:
      those are settled to their bends, the rest to straight, the written
      fingertip keys are in place, and every other bone keeps its old entry. */
  ghost predicate Stage(r: Table, m: Table, t: real, hf: HandFracs, i: nat) {
    && (forall f: Finger :: Settled(r, f, t, if Order(f) < i then hf.Of(f) else NoBend))
    && (forall f: Finger :: Order(f) < i && hf.Of(f).fingertip != 0.0 ==> TipWritten(r, f, t, hf.Of(f)))
    && (forall b :: b !in ClearedBones && b !in WrittenTips(hf) ==> Agree(m, r, b))
  }

  /** finger_move on a straightened finger leaves it settled to its fractions. */
  lemma MovedSettles(r: Table, g: Finger, t: real, fr: Fracs)
    requires Settled(r, g, t, NoBend)
    ensures Settled(FingerMoved(r, g, t, Period, fr), g, t, fr)
  {
  }

  /** finger_move for one finger leaves every other finger as it was. */
  lemma MovedKeepsOthers(r: Table, g: Finger, t: real, fr: Fracs, f: Finger, frf: Fracs)
    requires f != g && Settled(r, f, t, frf)
    ensures Settled(FingerMoved(r, g, t, Period, fr), f, t, frf)
  {
  }

  /** finger_move keeps every bone it has no nonzero fraction for. */
  lemma MovedOutside(r: Table, g: Finger, t: real, fr: Fracs, b: Bone)
    requires !(b.Phalange? && b.finger == g && fr.Of(b.joint) != 0.0)
    ensures Agree(r, FingerMoved(r, g, t, Period, fr), b)
  {
  }

  lemma StageSettlesStep(r: Table, m: Table, t: real, hf: HandFracs, g: Finger)
    requires Stage(r, m, t, hf, Order(g))
    ensures var r' := FingerMoved(r, g, t, Period, hf.Of(g));
      forall f: Finger :: Settled(r', f, t, if Order(f) < Order(g) + 1 then hf.Of(f) else NoBend)
  {
    var r' := FingerMoved(r, g, t, Period, hf.Of(g));
    forall f: Finger ensures Settled(r', f, t, if Order(f) < Order(g) + 1 then hf.Of(f) else NoBend) {
      var before := if Order(f) < Order(g) then hf.Of(f) else NoBend;
      assert Settled(r, f, t, before);
      if f == g {
        MovedSettles(r, g, t, hf.Of(g));
      } else {
        MovedKeepsOthers(r, g, t, hf.Of(g), f, before);
      }
    }
  }

  lemma StageTipsStep(r: Table, m: Table, t: real, hf: HandFracs, g: Finger)
    requires Stage(r, m, t, hf, Order(g))
    ensures var r' := FingerMoved(r, g, t, Period, hf.Of(g));
      forall f: Finger :: Order(f) < Order(g) + 1 && hf.Of(f).fingertip != 0.0 ==> TipWritten(r', f, t, hf.Of(f))
  {
    var r' := FingerMoved(r, g, t, Period, hf.Of(g));
    forall f: Finger | Order(f) < Order(g) + 1 && hf.Of(f).fingertip != 0.0 ensures TipWritten(r', f, t, hf.Of(f)) {
      if f != g {
        assert TipWritten(r, f, t, hf.Of(f));
        MovedOutside(r, g, t, hf.Of(g), Phalange(f, Fingertip));
      } else {
        assert hf.Of(g).Of(Fingertip) != 0.0;
      }
    }
  }

  lemma StageOthersStep(r: Table, m: Table, t: real, hf: HandFracs, g: Finger)
    requires Stage(r, m, t, hf, Order(g))
    ensures var r' := FingerMoved(r, g, t, Period, hf.Of(g));
      forall b :: b !in ClearedBones && b !in WrittenTips(hf) ==> Agree(m, r', b)
  {
    var r' := FingerMoved(r, g, t, Period, hf.Of(g));
    forall b | b !in ClearedBones && b !in WrittenTips(hf) ensures Agree(r, r', b) {
      if b.Phalange? && b.finger == g {
        AllEnumerated(g, b.joint);
        assert ClearedBone(g, b.joint) == b || b.joint == Fingertip;
      }
      MovedOutside(r, g, t, hf.Of(g), b);
    }
  }

  /** One more finger_move call settles one more finger and disturbs nothing else. */
  lemma StageStep(r: Table, m: Table, t: real, hf: HandFracs, g: Finger)
    requires Stage(r, m, t, hf, Order(g))
    ensures Stage(FingerMoved(r, g, t, Period, hf.Of(g)), m, t, hf, Order(g) + 1)
  {
    StageSettlesStep(r, m, t, hf, g);
    StageTipsStep(r, m, t, hf, g);
    StageOthersStep(r, m, t, hf, g);
  }

  /** Each finger_move call of a clear-and-move pose settles one more finger. */
  lemma {:induction false} MovedStages(m: Table, t: real, hf: HandFracs, i: nat)
    requires i <= 5
    ensures Stage(MovedUpTo(m, t, hf, i), m, t, hf, i)
  {
    if i == 0 {
      ClearedBonesMembership();
    } else {
      MovedStages(m, t, hf, i - 1);
      StageStep(MovedUpTo(m, t, hf, i - 1), m, t, hf, FingerAt(i - 1));
    }
  }

  /** After a clear-and-move pose every proximal, intermediate and distal joint
      holds exactly its own finger's bend (the identity where the fraction is zero),
      every cleared fingertip is the identity, the "<finger>_fingertip_phalange"
      key holds its bend exactly where the fingertip fraction is nonzero, and every
      other bone keeps its entry. */
  lemma ClearAndMovePose(m: Table, t: real, hf: HandFracs)
    ensures var r := ClearAndMove(m, t, hf);
      && (forall f: Finger :: Settled(r, f, t, hf.Of(f)))
      && (forall f: Finger :: hf.Of(f).fingertip != 0.0 ==> TipWritten(r, f, t, hf.Of(f)))
      && (forall b :: b !in ClearedBones && b !in WrittenTips(hf) ==> Agree(m, r, b))
  {
    MovedStages(m, t, hf, 5);
    forall f: Finger ensures Order(f) < 5 {
    }
  }

  // ---------------------------------------------------------------------------
  // The three scripted demonstrations

  /** completion_1's fractions: a grab with all five fingers. */
  const GrabFinger: Fracs := Fracs(3.0, 3.0, 2.0, 0.0)
  const GrabFracs: HandFracs := HandFracs(Fracs(6.0, 12.0, 12.0, 0.0), GrabFinger, GrabFinger, GrabFinger, GrabFinger)

  /** completion_2's fractions: the "OK" sign made with thumb and index. */
  const OkThumb: Fracs := Fracs(6.0, 12.0, 12.0, 12.0)
  const OkIndex: Fracs := Fracs(6.0, 6.0, 2.0, 0.0)
  const OkFracs: HandFracs := HandFracs(OkThumb, OkIndex, NoBend, NoBend, NoBend)

  /** completion_3's fractions: a grab whose thumb bends backwards. */
  const TiltFracs: HandFracs := HandFracs(Fracs(0.0, -6.0, -4.0, 0.0), GrabFinger, GrabFinger, GrabFinger, GrabFinger)

  /** completion_3's fraction for the swing of the whole hand about the y axis. */
  const SwingFrac: real := 2.3

  /** The position within the current period: fmod(passed_time, 2.4). */
  function TimeInPeriod(passedTime: real): (t: real)
    ensures 0.0 <= passedTime ==> 0.0 <= t < Period
  {
    FMod(passedTime, Period)
  }

  /** completion_1: clear the fingers, then bend all five into a grab. */
  function Completion1Table(m: Table, passedTime: real): Table {
    ClearAndMove(m, TimeInPeriod(passedTime), GrabFracs)
  }

  /** completion_2: clear the fingers, then bend the thumb and the index finger. */
  function Completion2Table(m: Table, passedTime: real): Table {
    var t := TimeInPeriod(passedTime);
    FingerMoved(FingerMoved(Cleared(m), Thumb, t, Period, OkThumb), Index, t, Period, OkIndex)
  }

  /** completion_3: swing metacarpals about the y axis, then clear the fingers and
      bend them with the thumb reversed. */
  function Completion3Table(m: Table, passedTime: real): Table {
    var t := TimeInPeriod(passedTime);
    ClearAndMove(m[Metacarpals := Rot(YAxis, JointAngle(t, Period, SwingFrac))], t, TiltFracs)
  }

  /** completion_2 is a clear-and-move pose whose middle, ring and pinky fractions
      are all zero: its two calls do what the five-call shape does. */
  lemma Completion2AsClearAndMove(m: Table, passedTime: real)
    ensures Completion2Table(m, passedTime) == ClearAndMove(m, TimeInPeriod(passedTime), OkFracs)
  {
    var t := TimeInPeriod(passedTime);
    assert MovedUpTo(m, t, OkFracs, 0) == Cleared(m);
    assert MovedUpTo(m, t, OkFracs, 1) == FingerMoved(Cleared(m), Thumb, t, Period, OkThumb);
    var r2 := MovedUpTo(m, t, OkFracs, 2);
    assert r2 == FingerMoved(MovedUpTo(m, t, OkFracs, 1), Index, t, Period, OkIndex);
    FingerMovedNoBend(r2, Middle, t, Period);
    assert MovedUpTo(m, t, OkFracs, 3) == r2;
    FingerMovedNoBend(r2, Ring, t, Period);
    assert MovedUpTo(m, t, OkFracs, 4) == r2;
    FingerMovedNoBend(r2, Pinky, t, Period);
  }

  /** A grab never writes a "<finger>_fingertip_phalange" key. */
  lemma GrabWritesNoTip()
    ensures WrittenTips(GrabFracs) == {} && WrittenTips(TiltFracs) == {}
  {
    forall f: Finger ensures GrabFracs.Of(f).fingertip == 0.0 && TiltFracs.Of(f).fingertip == 0.0 {
    }
  }

  /** The OK sign writes exactly one "<finger>_fingertip_phalange" key: the thumb's. */
  lemma OkWritesThumbTip()
    ensures WrittenTips(OkFracs) == {Phalange(Thumb, Fingertip)}
  {
    forall f: Finger | OkFracs.Of(f).fingertip != 0.0 ensures f == Thumb {
    }
  }

  /** completion_1 settles every finger to its grab bend, resets every
      "<finger>_fingertip" bone, and keeps every bone outside the clear vocabulary,
      metacarpals among them. */
  lemma Completion1Pose(m: Table, passedTime: real)
    ensures var r := Completion1Table(m, passedTime);
      && (forall f: Finger :: Settled(r, f, TimeInPeriod(passedTime), GrabFracs.Of(f)))
      && (forall b :: b !in ClearedBones ==> Agree(m, r, b))
  {
    ClearAndMovePose(m, TimeInPeriod(passedTime), GrabFracs);
    GrabWritesNoTip();
  }

  /** Once the time is nonnegative, every joint the grab bends bends forward and
      by at most a right angle. */
  lemma GrabBounded(passedTime: real, f: Finger, j: Joint)
    requires 0.0 <= passedTime && j != Fingertip
    ensures var b := Bend(TimeInPeriod(passedTime), GrabFracs.Of(f).Of(j));
      b == Id || (b.axis == ZAxis && 0.0 <= b.angle <= Pi / 2.0)
  {
    var t := TimeInPeriod(passedTime);
    var frac := GrabFracs.Of(f).Of(j);
    assert 2.0 <= frac;
    JointAngleBounded(t, Period, frac);
    assert Pi / frac <= Pi / 2.0;
  }

  /** completion_2 bends the thumb and the index finger with the OK fractions and
      leaves middle, ring and pinky straight. */
  lemma Completion2Fingers(m: Table, passedTime: real)
    ensures var r := Completion2Table(m, passedTime);
      forall f: Finger :: Settled(r, f, TimeInPeriod(passedTime), OkFracs.Of(f))
  {
    ClearedBonesMembership();
  }

  /** completion_2 writes its thumb fingertip bend, pi / 12 scaled by the wave,
      under the key finger_move builds, "thumb_fingertip_phalange", while the
      "thumb_fingertip" bone finger_move_clear resets stays the identity; every
      other bone outside the clear vocabulary keeps its entry. */
  lemma Completion2ThumbTip(m: Table, passedTime: real)
    ensures var r := Completion2Table(m, passedTime);
      && Phalange(Thumb, Fingertip) in r
      && r[Phalange(Thumb, Fingertip)] == Rot(ZAxis, JointAngle(TimeInPeriod(passedTime), Period, 12.0))
      && Tip(Thumb) in r && r[Tip(Thumb)] == Id
      && (forall b :: b !in ClearedBones && b != Phalange(Thumb, Fingertip) ==> Agree(m, r, b))
  {
    ClearedBonesMembership();
  }

  /** completion_3 swings metacarpals about the y axis by the wave scaled by
      pi / 2.3: finger_move_clear, which runs after that write, does not reset it. */
  lemma Completion3Swing(m: Table, passedTime: real)
    ensures var r := Completion3Table(m, passedTime);
      Metacarpals in r && r[Metacarpals] == Rot(YAxis, JointAngle(TimeInPeriod(passedTime), Period, SwingFrac))
  {
    var t := TimeInPeriod(passedTime);
    ClearAndMoveKeepsNamed(m[Metacarpals := Rot(YAxis, JointAngle(t, Period, SwingFrac))], t, TiltFracs, Metacarpals);
  }

  /** completion_3 settles every finger to its fractions and keeps every bone
      outside the clear vocabulary other than metacarpals. */
  lemma Completion3Fingers(m: Table, passedTime: real)
    ensures var r := Completion3Table(m, passedTime);
      && (forall f: Finger :: Settled(r, f, TimeInPeriod(passedTime), TiltFracs.Of(f)))
      && (forall b :: b !in ClearedBones && b != Metacarpals ==> Agree(m, r, b))
  {
    var t := TimeInPeriod(passedTime);
    ClearAndMovePose(m[Metacarpals := Rot(YAxis, JointAngle(t, Period, SwingFrac))], t, TiltFracs);
    GrabWritesNoTip();
  }

  /** In completion_3 the thumb's proximal joint stays straight and its other two
      joints bend backwards; the other fingers grab as in completion_1. */
  lemma TiltThumbReversed(t: real, f: Finger, j: Joint)
    requires j != Fingertip
    ensures f == Thumb && j == Proximal ==> Bend(t, TiltFracs.Of(f).Of(j)) == Id
    ensures f == Thumb && j != Proximal ==>
      Bend(t, TiltFracs.Of(f).Of(j)).Rot? && Bend(t, TiltFracs.Of(f).Of(j)).angle <= 0.0
    ensures f != Thumb ==> TiltFracs.Of(f) == GrabFracs.Of(f)
  {
    if f == Thumb && j != Proximal {
      JointAngleBounded(t, Period, TiltFracs.Of(f).Of(j));
    }
  }

  /** A clear-and-move pose keeps every named bone. */
  lemma ClearAndMoveKeepsNamed(m: Table, t: real, hf: HandFracs, b: Bone)
    requires b.Named?
    ensures Agree(m, ClearAndMove(m, t, hf), b)
  {
    ClearAndMovePose(m, t, hf);
    ClearedBonesMembership();
  }

  /** The demonstrations repeat every 2.4 seconds. */
  lemma CompletionsPeriodic(m: Table, passedTime: real)
    requires 0.0 <= passedTime
    ensures Completion1Table(m, passedTime + Period) == Completion1Table(m, passedTime)
    ensures Completion2Table(m, passedTime + Period) == Completion2Table(m, passedTime)
    ensures Completion3Table(m, passedTime + Period) == Completion3Table(m, passedTime)
  {
    FModPeriodic(passedTime, Period);
  }

  /** finger_move_clear never resets the "<finger>_fingertip_phalange" keys, so the
      thumb bend completion_2 writes under "thumb_fingertip_phalange" is still in
      the table after completion_1 has run on it. */
  lemma StaleThumbTip(m: Table, p: real, q: real)
    ensures var r := Completion1Table(Completion2Table(m, p), q);
      Phalange(Thumb, Fingertip) in r &&
      r[Phalange(Thumb, Fingertip)] == Rot(ZAxis, JointAngle(TimeInPeriod(p), Period, 12.0))
  {
    Completion2ThumbTip(m, p);
    Completion1Pose(Completion2Table(m, p), q);
    ClearedBonesMembership();
  }

  // ---------------------------------------------------------------------------
  // Live control: keyboard_mouse_control and km_finger_move

  /** The three bend angles km_finger_move takes. */
  datatype Angles = Angles(proximal: real, intermediate: real, distal: real) {
    function Of(j: Joint): real
      requires j != Fingertip
    {
      match j
      case Proximal => proximal
      case Intermediate => intermediate
      case Distal => distal
    }
  }

  /** The full bend of the live control, pi / 3. */
  const BendAngle: real := Pi / 3.0

  /** The angles keyboard_mouse_control hands km_finger_move for each finger. */
  function LiveAngles(f: Finger): Angles {
    match f
    case Thumb => Angles(BendAngle * 0.2, BendAngle * 0.3, BendAngle * 0.5)
    case Index => Angles(BendAngle, BendAngle * 0.9, BendAngle * 0.8)
    case Middle => Angles(BendAngle, BendAngle * 0.9, BendAngle * 0.8)
    case Ring => Angles(BendAngle * 0.9, BendAngle * 0.8, BendAngle * 0.7)
    case Pinky => Angles(BendAngle * 0.9, BendAngle * 0.8, BendAngle * 0.7)
  }

  /** Every live angle is a forward bend of at most pi / 3. */
  lemma LiveAnglesBounded(f: Finger, j: Joint)
    requires j != Fingertip
    ensures 0.0 < LiveAngles(f).Of(j) <= BendAngle
  {
  }

  /** What km_finger_move writes for one of its three joints. */
  function LiveBend(bent: bool, angle: real): Transform {
    if bent then Rot(ZAxis, angle) else Id
  }

  /** km_finger_move: the proximal, intermediate and distal phalanges of finger f
      get their angles about the z axis when the finger is bent and the identity
      when it is not; nothing else changes, the fingertip bones included. */
  function KmFingerMoved(m: Table, f: Finger, bent: bool, a: Angles): (r: Table)
    ensures Phalange(f, Proximal) in r && r[Phalange(f, Proximal)] == LiveBend(bent, a.proximal)
    ensures Phalange(f, Intermediate) in r && r[Phalange(f, Intermediate)] == LiveBend(bent, a.intermediate)
    ensures Phalange(f, Distal) in r && r[Phalange(f, Distal)] == LiveBend(bent, a.distal)
    ensures forall b: Bone :: !(b.Phalange? && b.finger == f && b.joint != Fingertip) ==> Agree(m, r, b)
  {
    m[Phalange(f, Proximal) := LiveBend(bent, a.proximal)]
     [Phalange(f, Intermediate) := LiveBend(bent, a.intermediate)]
     [Phalange(f, Distal) := LiveBend(bent, a.distal)]
  }

  /** The five bent flags the Z, X, C, V and B keys toggle. */
  datatype Bends = Bends(thumb: bool, index: bool, middle: bool, ring: bool, pinky: bool) {
    function Of(f: Finger): bool {
      match f
      case Thumb => thumb
      case Index => index
      case Middle => middle
      case Ring => ring
      case Pinky => pinky
    }
  }

  /** The fifteen bones the live control writes. */
  predicate LiveBone(b: Bone) {
    b.Phalange? && b.joint != Fingertip
  }

  /** The first i km_finger_move calls of keyboard_mouse_control: thumb, index,
      middle, ring, pinky in that order. */
  function LiveUpTo(m: Table, bends: Bends, i: nat): Table
    requires i <= 5
  {
    if i == 0 then m
    else KmFingerMoved(LiveUpTo(m, bends, i - 1), FingerAt(i - 1), bends.Of(FingerAt(i - 1)), LiveAngles(FingerAt(i - 1)))
  }

  /** keyboard_mouse_control: km_finger_move for all five fingers with their
      flags and angles. */
  function KeyboardMouseControlled(m: Table, bends: Bends): Table {
    LiveUpTo(m, bends, 5)
  }

  /** Finger f's three live bones hold its live bend. */
  ghost predicate LiveSettled(r: Table, f: Finger, bent: bool) {
    forall j :: j != Fingertip ==> Phalange(f, j) in r && r[Phalange(f, j)] == LiveBend(bent, LiveAngles(f).Of(j))
  }

  lemma KmSettles(m: Table, f: Finger, bent: bool)
    ensures LiveSettled(KmFingerMoved(m, f, bent, LiveAngles(f)), f, bent)
  {
  }

  /** The first i fingers hold their live bends and every other bone keeps its entry. */
  lemma {:induction false} LiveStages(m: Table, bends: Bends, i: nat)
    requires i <= 5
    ensures var r := LiveUpTo(m, bends, i);
      && (forall f: Finger :: Order(f) < i ==> LiveSettled(r, f, bends.Of(f)))
      && (forall b :: !(LiveBone(b) && Order(b.finger) < i) ==> Agree(m, r, b))
  {
    if i > 0 {
      LiveStages(m, bends, i - 1);
      var g := FingerAt(i - 1);
      var r0 := LiveUpTo(m, bends, i - 1);
      var r := LiveUpTo(m, bends, i);
      KmSettles(r0, g, bends.Of(g));
      forall f: Finger | Order(f) < i ensures LiveSettled(r, f, bends.Of(f)) {
        if f != g {
          assert LiveSettled(r0, f, bends.Of(f));
        }
      }
    }
  }

  /** After keyboard_mouse_control every proximal, intermediate and distal
      phalange holds its finger's live bend when that finger is bent and the
      identity when it is not; every other bone, fingertips and metacarpals among
      them, keeps its entry. */
  lemma LivePose(m: Table, bends: Bends)
    ensures var r := KeyboardMouseControlled(m, bends);
      && (forall f: Finger :: LiveSettled(r, f, bends.Of(f)))
      && (forall b :: !LiveBone(b) ==> Agree(m, r, b))
  {
    LiveStages(m, bends, 5);
    forall f: Finger ensures Order(f) < 5 {
    }
  }

  /** The live pose depends on the flags alone: running the live control on its
      own result changes nothing, and changing one finger's flag changes that
      finger's three phalanges and no other bone. */
  lemma LiveIdempotent(m: Table, bends: Bends)
    ensures KeyboardMouseControlled(KeyboardMouseControlled(m, bends), bends) == KeyboardMouseControlled(m, bends)
  {
    var r := KeyboardMouseControlled(m, bends);
    var r' := KeyboardMouseControlled(r, bends);
    LivePose(m, bends);
    LivePose(r, bends);
    forall b ensures (b in r <==> b in r') && (b in r ==> r[b] == r'[b]) {
      if LiveBone(b) {
        assert LiveSettled(r, b.finger, bends.Of(b.finger));
        assert LiveSettled(r', b.finger, bends.Of(b.finger));
      } else {
        assert Agree(r, r', b);
      }
    }
    assert r'.Keys == r.Keys;
  }

  lemma LiveFlagLocal(m: Table, bends: Bends, bends': Bends, b: Bone)
    requires !(b.Phalange? && bends.Of(b.finger) != bends'.Of(b.finger))
    ensures Agree(KeyboardMouseControlled(m, bends), KeyboardMouseControlled(m, bends'), b)
  {
    LivePose(m, bends);
    LivePose(m, bends');
    if LiveBone(b) {
      assert LiveSettled(KeyboardMouseControlled(m, bends), b.finger, bends.Of(b.finger));
      assert LiveSettled(KeyboardMouseControlled(m, bends'), b.finger, bends'.Of(b.finger));
    }
  }

  // ---------------------------------------------------------------------------
  // Canonical keys

  /** A table that keeps the named bones of a well-keyed table and gains no other
      named bone is well keyed: every finger bone is canonical. */
  lemma NoNewNames(m: Table, r: Table)
    requires WellKeyed(m)
    requires forall b: Bone :: b.Named? ==> Agree(m, r, b)
    ensures WellKeyed(r)
  {
    forall b | b in r ensures Canonical(b) {
      if b.Named? {
        assert Agree(m, r, b);
      }
    }
  }

  lemma Completion1WellKeyed(m: Table, passedTime: real)
    requires WellKeyed(m)
    ensures WellKeyed(Completion1Table(m, passedTime))
  {
    ClearedBonesMembership();
    Completion1Pose(m, passedTime);
    NoNewNames(m, Completion1Table(m, passedTime));
  }

  lemma Completion2WellKeyed(m: Table, passedTime: real)
    requires WellKeyed(m)
    ensures WellKeyed(Completion2Table(m, passedTime))
  {
    ClearedBonesMembership();
    Completion2ThumbTip(m, passedTime);
    NoNewNames(m, Completion2Table(m, passedTime));
  }

  lemma Completion3WellKeyed(m: Table, passedTime: real)
    requires WellKeyed(m)
    ensures WellKeyed(Completion3Table(m, passedTime))
  {
    MetacarpalsCanonical();
    var t := TimeInPeriod(passedTime);
    var m' := m[Metacarpals := Rot(YAxis, JointAngle(t, Period, SwingFrac))];
    assert WellKeyed(m');
    forall b: Bone | b.Named? ensures Agree(m', Completion3Table(m, passedTime), b) {
      ClearAndMoveKeepsNamed(m', t, TiltFracs, b);
    }
    NoNewNames(m', Completion3Table(m, passedTime));
  }

  /** The live control keeps the table keyed by canonical bones. */
  lemma LiveWellKeyed(m: Table, bends: Bends)
    requires WellKeyed(m)
    ensures WellKeyed(KeyboardMouseControlled(m, bends))
  {
    LivePose(m, bends);
    NoNewNames(m, KeyboardMouseControlled(m, bends));
  }

}
