/** The three-way pickup selector: the handle is dragged within its travel, snaps to the
    nearest of the three pickup angles when released, and the angle it snaps to selects the
    pickup the sound system plays with. */
module PickupSwitch {
  import opened Audio
  import opened Mathf
  import opened SoundSystem

  /** float.MaxValue, the distance the snap search starts from. */
  const FloatMax: real := 340282346638528859811704183484516925440.0

  /** The snap search over `angles`, from a best distance and angle so far: an angle replaces
      the best one only when it is strictly closer to `current`. */
  function SnapScan(current: real, angles: seq<real>, closestDistance: real, closestPosition: real): real
    decreases |angles|
  {
    if angles == [] then closestPosition
    else
      var d := Abs(current - angles[0]);
      if d < closestDistance then SnapScan(current, angles[1..], d, angles[0])
      else SnapScan(current, angles[1..], closestDistance, closestPosition)
  }

  /** The angle the handle snaps to from `current`: the first of neck, middle and bridge at
      the least distance (middle, should every distance reach float.MaxValue). */
  function SnapAngle(current: real, neck: real, middle: real, bridge: real): real {
    SnapScan(current, [neck, middle, bridge], FloatMax, middle)
  }

  /** The snap lands on the nearest of the three angles, the earliest of them on a tie;
      only when every distance reaches float.MaxValue does it stay on the middle angle. */
  lemma SnapAngleNearest(current: real, neck: real, middle: real, bridge: real)
    ensures var r := SnapAngle(current, neck, middle, bridge);
      var dn, dm, db := Abs(current - neck), Abs(current - middle), Abs(current - bridge);
      (dn < FloatMax && dn <= dm && dn <= db ==> r == neck)
      && (dm < FloatMax && dm < dn && dm <= db ==> r == middle)
      && (db < FloatMax && db < dn && db < dm ==> r == bridge)
      && (dn >= FloatMax && dm >= FloatMax && db >= FloatMax ==> r == middle)
  {
    var dn, dm, db := Abs(current - neck), Abs(current - middle), Abs(current - bridge);
    var ps := [neck, middle, bridge];
    assert ps[1..] == [middle, bridge] && ps[1..][1..] == [bridge] && ps[1..][1..][1..] == [];
    var d1, p1 := if dn < FloatMax then dn else FloatMax, if dn < FloatMax then neck else middle;
    var d2, p2 := if dm < d1 then dm else d1, if dm < d1 then middle else p1;
    var p3 := if db < d2 then bridge else p2;
    assert SnapScan(current, ps, FloatMax, middle) == SnapScan(current, [middle, bridge], d1, p1);
    assert SnapScan(current, [middle, bridge], d1, p1) == SnapScan(current, [bridge], d2, p2);
    assert SnapScan(current, [bridge], d2, p2) == p3;
  }

  /** The pickup picked for a snapped angle: the first of Neck, Middle, Bridge whose angle is
      within the threshold of it, else the one already selected. */
  function Classify(closest: real, neck: real, middle: real, bridge: real, threshold: real, current: Pickup): Pickup {
    if Abs(closest - neck) < threshold then Neck
    else if Abs(closest - middle) < threshold then Middle
    else if Abs(closest - bridge) < threshold then Bridge
    else current
  }

  /** The angle SetPickupPosition turns the handle to. */
  function AngleOf(p: Pickup, neck: real, middle: real, bridge: real): real {
    match p
    case Neck => neck
    case Middle => middle
    case Bridge => bridge
  }

  /** The place of a pickup in the order the thresholds are compared in. */
  function Rank(p: Pickup): nat {
    match p
    case Neck => 0
    case Middle => 1
    case Bridge => 2
  }

  /** A snapped angle that is the angle of pickup `p` selects, under a positive threshold, the
      first pickup in the order Neck, Middle, Bridge whose angle lies within the threshold: so
      never a later one than `p`, and exactly `p` when the three angles are at least a
      threshold apart. */
  lemma SnapSelects(closest: real, neck: real, middle: real, bridge: real, threshold: real, current: Pickup, p: Pickup)
    requires threshold > 0.0
    requires closest == AngleOf(p, neck, middle, bridge)
    ensures var q := Classify(closest, neck, middle, bridge, threshold, current);
      Abs(closest - AngleOf(q, neck, middle, bridge)) < threshold
      && Rank(q) <= Rank(p)
      && (forall e: Pickup :: Rank(e) < Rank(q) ==> Abs(closest - AngleOf(e, neck, middle, bridge)) >= threshold)
    ensures Abs(neck - middle) >= threshold && Abs(neck - bridge) >= threshold && Abs(middle - bridge) >= threshold ==>
      Classify(closest, neck, middle, bridge, threshold, current) == p
  {
    var q := Classify(closest, neck, middle, bridge, threshold, current);
    forall e: Pickup | Rank(e) < Rank(q) ensures Abs(closest - AngleOf(e, neck, middle, bridge)) >= threshold {
      match e
      case Neck =>
      case Middle =>
      case Bridge =>
    }
  }

  /** Under a positive threshold (and distances below float.MaxValue) a snap always selects a
      pickup: the one the snapped angle belongs to, or an earlier one within the threshold. */
  lemma SnapAlwaysSelects(current: real, neck: real, middle: real, bridge: real, threshold: real, selected: Pickup)
    requires threshold > 0.0
    requires Abs(current - neck) < FloatMax || Abs(current - middle) < FloatMax || Abs(current - bridge) < FloatMax
    ensures var closest := SnapAngle(current, neck, middle, bridge);
      var q := Classify(closest, neck, middle, bridge, threshold, selected);
      (closest == neck || closest == middle || closest == bridge)
      && Abs(closest - AngleOf(q, neck, middle, bridge)) < threshold
  {
    SnapAngleNearest(current, neck, middle, bridge);
    var closest := SnapAngle(current, neck, middle, bridge);
    var p := if closest == neck then Neck else if closest == middle then Middle else Bridge;
    SnapSelects(closest, neck, middle, bridge, threshold, selected, p);
  }

  /** A drag moves the target by the mouse travel and clamps it to the handle's travel. */
  function DragTarget(target: real, mouseDeltaX: real, sensitivity: real, neck: real, bridge: real): (r: real)
    ensures bridge <= neck ==> bridge <= r <= neck
  {
    Clamp(target - mouseDeltaX * sensitivity, bridge, neck)
  }

  class PickupSwitchController {
    const neckPosition: real
    const middlePosition: real
    const bridgePosition: real
    const snapThreshold: real
    const mouseSensitivity: real
    /** GuitarSoundSystem.Instance; null when there is none. */
    const sound: GuitarSoundSystem?
    var isDragging: bool
    var targetRotation: real
    var currentRotation: real
    var currentPickup: Pickup

    /** Start: without a camera or a switch handle (`handleAngle` is None) it gives up with
        both rotations at zero; otherwise it takes the handle's angle as both the current and
        the target rotation and then turns to the neck position, the neck pickup being already
        selected so that nothing is passed on to the sound system. */
    constructor (neck: real, middle: real, bridge: real, threshold: real, sensitivity: real,
                 soundSystem: GuitarSoundSystem?, handleAngle: Option<real>)
      ensures neckPosition == neck && middlePosition == middle && bridgePosition == bridge
      ensures snapThreshold == threshold && mouseSensitivity == sensitivity && sound == soundSystem
      ensures handleAngle.None? ==> currentRotation == 0.0 && targetRotation == 0.0
      ensures handleAngle.Some? ==> currentRotation == handleAngle.value && targetRotation == neck
      ensures currentPickup == Neck && !isDragging
    {
      neckPosition := neck;
      middlePosition := middle;
      bridgePosition := bridge;
      snapThreshold := threshold;
      mouseSensitivity := sensitivity;
      sound := soundSystem;
      isDragging := false;
      currentPickup := Neck;
      currentRotation := 0.0;
      targetRotation := 0.0;
      new;
      if handleAngle.None? {
        return;
      }
      currentRotation := handleAngle.value;
      targetRotation := currentRotation;
      // SetPickupPosition(Neck): the neck pickup is already selected, so SetPickupType has
      // nothing to do.
      targetRotation := neckPosition;
    }

    /** The mouse went down on the handle. */
    method BeginDrag()
      modifies this
      ensures isDragging
      ensures targetRotation == old(targetRotation) && currentRotation == old(currentRotation)
      ensures currentPickup == old(currentPickup)
    {
      isDragging := true;
    }

    /** The mouse moved by `mouseDeltaX` pixels; only a drag turns the target. */
    method Drag(mouseDeltaX: real)
      modifies this
      ensures isDragging == old(isDragging) && currentRotation == old(currentRotation)
      ensures currentPickup == old(currentPickup)
      ensures targetRotation == if isDragging
        then DragTarget(old(targetRotation), mouseDeltaX, mouseSensitivity, neckPosition, bridgePosition)
        else old(targetRotation)
    {
      if isDragging {
        targetRotation := Clamp(targetRotation - mouseDeltaX * mouseSensitivity, bridgePosition, neckPosition);
      }
    }

    /** The mouse went up: a drag ends with a snap. */
    method EndDrag()
      modifies this, sound
      ensures !isDragging && currentRotation == old(currentRotation)
      ensures old(isDragging) ==>
        var closest := SnapAngle(old(currentRotation), neckPosition, middlePosition, bridgePosition);
        targetRotation == closest
        && currentPickup == Classify(closest, neckPosition, middlePosition, bridgePosition, snapThreshold, old(currentPickup))
      ensures !old(isDragging) ==> targetRotation == old(targetRotation) && currentPickup == old(currentPickup)
      ensures sound != null && sound.currentPickup != old(sound.currentPickup) ==> sound.currentPickup == currentPickup
      ensures sound != null ==> sound.activeNotes == old(sound.activeNotes) && sound.log == old(sound.log)
    {
      if isDragging {
        isDragging := false;
        SnapToNearestPosition();
      }
    }

    /** Move the current rotation a fraction `t` (the frame time times the rotation speed) of
        the way to the target. */
    method UpdateSwitchRotation(t: real)
      modifies this
      ensures currentRotation == Lerp(old(currentRotation), targetRotation, t)
      ensures targetRotation == old(targetRotation) && currentPickup == old(currentPickup)
      ensures isDragging == old(isDragging)
    {
      currentRotation := Lerp(currentRotation, targetRotation, t);
    }

    /** Turn the target to the nearest pickup angle and select the pickup it lands on. */
    method SnapToNearestPosition()
      modifies this, sound
      ensures var closest := SnapAngle(old(currentRotation), neckPosition, middlePosition, bridgePosition);
        targetRotation == closest
        && currentPickup == Classify(closest, neckPosition, middlePosition, bridgePosition, snapThreshold, old(currentPickup))
      ensures currentRotation == old(currentRotation) && isDragging == old(isDragging)
      ensures sound != null && sound.currentPickup != old(sound.currentPickup) ==> sound.currentPickup == currentPickup
      ensures sound != null ==> sound.activeNotes == old(sound.activeNotes) && sound.log == old(sound.log)
    {
      var positions := [neckPosition, middlePosition, bridgePosition];
      var closestDistance := FloatMax;
      var closestPosition := middlePosition;
      for i := 0 to |positions|
        invariant SnapScan(currentRotation, positions[i..], closestDistance, closestPosition)
               == SnapAngle(currentRotation, neckPosition, middlePosition, bridgePosition)
      {
        assert positions[i..][1..] == positions[i + 1..];
        var distance := Abs(currentRotation - positions[i]);
        if distance < closestDistance {
          closestDistance := distance;
          closestPosition := positions[i];
        }
      }
      targetRotation := closestPosition;
      if Abs(closestPosition - neckPosition) < snapThreshold {
        SetPickupType(Neck);
      } else if Abs(closestPosition - middlePosition) < snapThreshold {
        SetPickupType(Middle);
      } else if Abs(closestPosition - bridgePosition) < snapThreshold {
        SetPickupType(Bridge);
      }
    }

    /** Select a pickup; only a change is passed on to the sound system. */
    method SetPickupType(pickup: Pickup)
      modifies this, sound
      ensures currentPickup == pickup
      ensures targetRotation == old(targetRotation) && currentRotation == old(currentRotation)
      ensures isDragging == old(isDragging)
      ensures sound != null ==>
        sound.currentPickup == (if old(currentPickup) != pickup then pickup else old(sound.currentPickup))
        && sound.activeNotes == old(sound.activeNotes) && sound.log == old(sound.log)
    {
      if currentPickup != pickup {
        currentPickup := pickup;
        if sound != null {
          sound.currentPickup := pickup;
        }
      }
    }

    /** Turn the handle to a pickup's angle and select that pickup. */
    method SetPickupPosition(pickup: Pickup)
      modifies this, sound
      ensures targetRotation == AngleOf(pickup, neckPosition, middlePosition, bridgePosition)
      ensures currentPickup == pickup
      ensures currentRotation == old(currentRotation) && isDragging == old(isDragging)
      ensures sound != null ==>
        sound.currentPickup == (if old(currentPickup) != pickup then pickup else old(sound.currentPickup))
        && sound.activeNotes == old(sound.activeNotes) && sound.log == old(sound.log)
    {
      targetRotation := match pickup
        case Neck => neckPosition
        case Middle => middlePosition
        case Bridge => bridgePosition;
      SetPickupType(pickup);
    }
  }
}
