/** The pose producers as the viewer runs them: each writes entries of the
    frame's SkeletonModifier one assignment at a time, and each is proved to leave
    the table its specification function in HandPose describes. */
module PoseProducers {
  import opened Geometry
  import opened HandPose

  /** SkeletalMesh::SkeletonModifier: the bone-to-transform table the main loop
      keeps from frame to frame and the producers write into. */
  class SkeletonModifier {
    var entries: Table

    /** A fresh modifier holds no overrides. */
    constructor ()
      ensures entries == map[]
    {
      entries := map[];
    }
  }

  /** finger_move_clear: twenty writes of the identity. */
  method FingerMoveClear(modifier: SkeletonModifier)
    modifies modifier
    ensures modifier.entries == Cleared(old(modifier.entries))
  {
    ghost var m := modifier.entries;
    modifier.entries := modifier.entries[Phalange(Thumb, Proximal) := Id];
    modifier.entries := modifier.entries[Phalange(Thumb, Intermediate) := Id];
    modifier.entries := modifier.entries[Phalange(Thumb, Distal) := Id];
    modifier.entries := modifier.entries[Tip(Thumb) := Id];
    assert modifier.entries == ClearedUpTo(m, 1);
    modifier.entries := modifier.entries[Phalange(Index, Proximal) := Id];
    modifier.entries := modifier.entries[Phalange(Index, Intermediate) := Id];
    modifier.entries := modifier.entries[Phalange(Index, Distal) := Id];
    modifier.entries := modifier.entries[Tip(Index) := Id];
    assert modifier.entries == ClearedUpTo(m, 2);
    modifier.entries := modifier.entries[Phalange(Middle, Proximal) := Id];
    modifier.entries := modifier.entries[Phalange(Middle, Intermediate) := Id];
    modifier.entries := modifier.entries[Phalange(Middle, Distal) := Id];
    modifier.entries := modifier.entries[Tip(Middle) := Id];
    assert modifier.entries == ClearedUpTo(m, 3);
    modifier.entries := modifier.entries[Phalange(Ring, Proximal) := Id];
    modifier.entries := modifier.entries[Phalange(Ring, Intermediate) := Id];
    modifier.entries := modifier.entries[Phalange(Ring, Distal) := Id];
    modifier.entries := modifier.entries[Tip(Ring) := Id];
    assert modifier.entries == ClearedUpTo(m, 4);
    modifier.entries := modifier.entries[Phalange(Pinky, Proximal) := Id];
    modifier.entries := modifier.entries[Phalange(Pinky, Intermediate) := Id];
    modifier.entries := modifier.entries[Phalange(Pinky, Distal) := Id];
    modifier.entries := modifier.entries[Tip(Pinky) := Id];
    assert modifier.entries == ClearedUpTo(m, 5);

    ClearedInOrder(m);
  }

  /** finger_move: each joint with a nonzero fraction gets its z-axis bend. */
  method FingerMove(modifier: SkeletonModifier, finger: Finger, timeInPeriod: real, period: real,
                    proximalFrac: real, intermediateFrac: real, distalFrac: real, fingertipFrac: real)
    requires 0.0 < period
    modifies modifier
    ensures modifier.entries ==
      FingerMoved(old(modifier.entries), finger, timeInPeriod, period,
                  Fracs(proximalFrac, intermediateFrac, distalFrac, fingertipFrac))
  {
    if proximalFrac != 0.0 {
      var proximalAngle := JointAngle(timeInPeriod, period, proximalFrac);
      modifier.entries := modifier.entries[Phalange(finger, Proximal) := Rot(ZAxis, proximalAngle)];
    }
    if intermediateFrac != 0.0 {
      var intermediateAngle := JointAngle(timeInPeriod, period, intermediateFrac);
      modifier.entries := modifier.entries[Phalange(finger, Intermediate) := Rot(ZAxis, intermediateAngle)];
    }
    if distalFrac != 0.0 {
      var distalAngle := JointAngle(timeInPeriod, period, distalFrac);
      modifier.entries := modifier.entries[Phalange(finger, Distal) := Rot(ZAxis, distalAngle)];
    }
    if fingertipFrac != 0.0 {
      var fingertipAngle := JointAngle(timeInPeriod, period, fingertipFrac);
      modifier.entries := modifier.entries[Phalange(finger, Fingertip) := Rot(ZAxis, fingertipAngle)];
    }
  }

  /** completion_1: the five-finger grab. */
  method Completion1(modifier: SkeletonModifier, passedTime: real)
    modifies modifier
    ensures modifier.entries == Completion1Table(old(modifier.entries), passedTime)
  {
    ghost var m := modifier.entries;
    var period := 2.4;
    var timeInPeriod := FMod(passedTime, period);
    FingerMoveClear(modifier);
    assert modifier.entries == MovedUpTo(m, timeInPeriod, GrabFracs, 0);
    FingerMove(modifier, Thumb, timeInPeriod, period, 6.0, 12.0, 12.0, 0.0);
    assert modifier.entries == MovedUpTo(m, timeInPeriod, GrabFracs, 1);
    FingerMove(modifier, Index, timeInPeriod, period, 3.0, 3.0, 2.0, 0.0);
    assert modifier.entries == MovedUpTo(m, timeInPeriod, GrabFracs, 2);
    FingerMove(modifier, Middle, timeInPeriod, period, 3.0, 3.0, 2.0, 0.0);
    assert modifier.entries == MovedUpTo(m, timeInPeriod, GrabFracs, 3);
    FingerMove(modifier, Ring, timeInPeriod, period, 3.0, 3.0, 2.0, 0.0);
    assert modifier.entries == MovedUpTo(m, timeInPeriod, GrabFracs, 4);
    FingerMove(modifier, Pinky, timeInPeriod, period, 3.0, 3.0, 2.0, 0.0);
  }

  /** completion_2: the OK sign. */
  method Completion2(modifier: SkeletonModifier, passedTime: real)
    modifies modifier
    ensures modifier.entries == Completion2Table(old(modifier.entries), passedTime)
  {
    var period := 2.4;
    var timeInPeriod := FMod(passedTime, period);
    FingerMoveClear(modifier);
    FingerMove(modifier, Thumb, timeInPeriod, period, 6.0, 12.0, 12.0, 12.0);
    FingerMove(modifier, Index, timeInPeriod, period, 6.0, 6.0, 2.0, 0.0);
  }

  /** completion_3: the swinging hand with the thumb bent backwards. */
  method Completion3(modifier: SkeletonModifier, passedTime: real)
    modifies modifier
    ensures modifier.entries == Completion3Table(old(modifier.entries), passedTime)
  {
    var period := 2.4;
    var timeInPeriod := FMod(passedTime, period);
    var metacarpalsAngle := JointAngle(timeInPeriod, period, 2.3);
    modifier.entries := modifier.entries[Metacarpals := Rot(YAxis, metacarpalsAngle)];
    ghost var m := modifier.entries;
    FingerMoveClear(modifier);
    assert modifier.entries == MovedUpTo(m, timeInPeriod, TiltFracs, 0);
    FingerMove(modifier, Thumb, timeInPeriod, period, 0.0, -6.0, -4.0, 0.0);
    assert modifier.entries == MovedUpTo(m, timeInPeriod, TiltFracs, 1);
    FingerMove(modifier, Index, timeInPeriod, period, 3.0, 3.0, 2.0, 0.0);
    assert modifier.entries == MovedUpTo(m, timeInPeriod, TiltFracs, 2);
    FingerMove(modifier, Middle, timeInPeriod, period, 3.0, 3.0, 2.0, 0.0);
    assert modifier.entries == MovedUpTo(m, timeInPeriod, TiltFracs, 3);
    FingerMove(modifier, Ring, timeInPeriod, period, 3.0, 3.0, 2.0, 0.0);
    assert modifier.entries == MovedUpTo(m, timeInPeriod, TiltFracs, 4);
    FingerMove(modifier, Pinky, timeInPeriod, period, 3.0, 3.0, 2.0, 0.0);
  }

  /** km_finger_move: three writes, all bends or all identities. */
  method KmFingerMove(modifier: SkeletonModifier, finger: Finger, shouldBent: bool,
                      proximalAngle: real, intermediateAngle: real, distalAngle: real)
    modifies modifier
    ensures modifier.entries ==
      KmFingerMoved(old(modifier.entries), finger, shouldBent, Angles(proximalAngle, intermediateAngle, distalAngle))
  {
    if shouldBent {
      modifier.entries := modifier.entries[Phalange(finger, Proximal) := Rot(ZAxis, proximalAngle)];
      modifier.entries := modifier.entries[Phalange(finger, Intermediate) := Rot(ZAxis, intermediateAngle)];
      modifier.entries := modifier.entries[Phalange(finger, Distal) := Rot(ZAxis, distalAngle)];
    } else {
      modifier.entries := modifier.entries[Phalange(finger, Proximal) := Id];
      modifier.entries := modifier.entries[Phalange(finger, Intermediate) := Id];
      modifier.entries := modifier.entries[Phalange(finger, Distal) := Id];
    }
  }

  /** keyboard_mouse_control: the five fingers from their bent flags. */
  method KeyboardMouseControl(modifier: SkeletonModifier, bends: Bends)
    modifies modifier
    ensures modifier.entries == KeyboardMouseControlled(old(modifier.entries), bends)
  {
    ghost var m := modifier.entries;
    var bendAngle := Pi / 3.0;
    KmFingerMove(modifier, Thumb, bends.thumb, bendAngle * 0.2, bendAngle * 0.3, bendAngle * 0.5);
    assert modifier.entries == LiveUpTo(m, bends, 1);
    KmFingerMove(modifier, Index, bends.index, bendAngle, bendAngle * 0.9, bendAngle * 0.8);
    assert modifier.entries == LiveUpTo(m, bends, 2);
    KmFingerMove(modifier, Middle, bends.middle, bendAngle, bendAngle * 0.9, bendAngle * 0.8);
    assert modifier.entries == LiveUpTo(m, bends, 3);
    KmFingerMove(modifier, Ring, bends.ring, bendAngle * 0.9, bendAngle * 0.8, bendAngle * 0.7);
    assert modifier.entries == LiveUpTo(m, bends, 4);
    KmFingerMove(modifier, Pinky, bends.pinky, bendAngle * 0.9, bendAngle * 0.8, bendAngle * 0.7);
  }
}
