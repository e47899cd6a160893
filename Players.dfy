/** The player's collision test and mouse-look state. Coordinates and angles are exact
    reals; the camera direction computed from yaw and pitch with trigonometry is not part
    of this model. */
module Players {
  import opened Glm

  /** An axis-aligned bounding box. */
  datatype AABB = AABB(min: Vec3, max: Vec3)

  /** `Player::intersects`: strict overlap on all three axes. */
  predicate Intersects(a: AABB, b: AABB) {
    a.min.x < b.max.x && a.max.x > b.min.x &&
    a.min.y < b.max.y && a.max.y > b.min.y &&
    a.min.z < b.max.z && a.max.z > b.min.z
  }

  lemma IntersectsIsSymmetric(a: AABB, b: AABB)
    ensures Intersects(a, b) <==> Intersects(b, a)
  {
  }

  /** Boxes that only touch along one axis do not intersect. */
  lemma TouchingBoxesDoNotIntersect(a: AABB, b: AABB)
    requires a.max.x == b.min.x || a.max.y == b.min.y || a.max.z == b.min.z
    ensures !Intersects(a, b) && !Intersects(b, a)
  {
  }

  /** A box intersects itself exactly when it has positive extent on every axis. */
  lemma SelfIntersection(a: AABB)
    ensures Intersects(a, a) <==> a.min.x < a.max.x && a.min.y < a.max.y && a.min.z < a.max.z
  {
  }

  /** `lookSens`. */
  const LookSensitivity: real := 0.1

  /** The camera fields a mouse event updates. */
  datatype LookState = LookState(firstMouse: bool, lastX: real, lastY: real, yaw: real, pitch: real)

  /** The state a new player starts in. */
  function InitialLook(): LookState {
    LookState(true, 400.0, 300.0, -90.0, 0.0)
  }

  /** Pitch is kept within [-89, 89] degrees. */
  function ClampPitch(p: real): (r: real)
    ensures -89.0 <= r <= 89.0
    ensures -89.0 <= p <= 89.0 ==> r == p
  {
    if p > 89.0 then 89.0 else if p < -89.0 then -89.0 else p
  }

  /** `processMouseMovement` on the look fields: on the first event the last position is
      taken to be the event's own, so the offsets are zero. */
  function Look(s: LookState, xpos: real, ypos: real): LookState {
    var lastX := if s.firstMouse then xpos else s.lastX;
    var lastY := if s.firstMouse then ypos else s.lastY;
    var xoffset := (xpos - lastX) * LookSensitivity;
    var yoffset := (lastY - ypos) * LookSensitivity;
    LookState(false, xpos, ypos, s.yaw + xoffset, ClampPitch(s.pitch + yoffset))
  }

  /** After every event the last position is the event's, `firstMouse` is off, and pitch
      is within [-89, 89]; yaw moves by a tenth of the horizontal offset. */
  lemma LookUpdatesPosition(s: LookState, xpos: real, ypos: real)
    ensures Look(s, xpos, ypos).lastX == xpos && Look(s, xpos, ypos).lastY == ypos
    ensures !Look(s, xpos, ypos).firstMouse
    ensures -89.0 <= Look(s, xpos, ypos).pitch <= 89.0
    ensures !s.firstMouse ==> Look(s, xpos, ypos).yaw == s.yaw + (xpos - s.lastX) / 10.0
  {
  }

  /** The first event after construction leaves yaw and pitch as they were. */
  lemma FirstEventDoesNotTurn(xpos: real, ypos: real)
    ensures Look(InitialLook(), xpos, ypos) == LookState(false, xpos, ypos, -90.0, 0.0)
  {
  }

  /** The look state after a sequence of mouse events. */
  function LookAll(s: LookState, events: seq<(real, real)>): LookState
    decreases |events|
  {
    if |events| == 0 then s else LookAll(Look(s, events[0].0, events[0].1), events[1..])
  }

  /** Starting from pitch 0, pitch stays within [-89, 89] after any sequence of events. */
  lemma {:induction false} PitchStaysClamped(s: LookState, events: seq<(real, real)>)
    requires -89.0 <= s.pitch <= 89.0
    ensures -89.0 <= LookAll(s, events).pitch <= 89.0
    decreases |events|
  {
    if |events| > 0 {
      PitchStaysClamped(Look(s, events[0].0, events[0].1), events[1..]);
    }
  }

  lemma PitchStaysClampedFromStart(events: seq<(real, real)>)
    ensures -89.0 <= LookAll(InitialLook(), events).pitch <= 89.0
  {
    PitchStaysClamped(InitialLook(), events);
  }

  class Player {
    var firstMouse: bool
    var lastX: real
    var lastY: real
    var yaw: real
    var pitch: real

    function State(): LookState
      reads this
    {
      LookState(firstMouse, lastX, lastY, yaw, pitch)
    }

    constructor()
      ensures State() == InitialLook()
    {
      firstMouse, lastX, lastY, yaw, pitch := true, 400.0, 300.0, -90.0, 0.0;
    }

    /** `Player::processMouseMovement`, without the camera direction it derives. */
    method ProcessMouseMovement(xpos: real, ypos: real)
      modifies this`firstMouse, this`lastX, this`lastY, this`yaw, this`pitch
      ensures State() == Look(old(State()), xpos, ypos)
    {
      if firstMouse {
        lastX := xpos;
        lastY := ypos;
        firstMouse := false;
      }
      var xoffset := xpos - lastX;
      var yoffset := lastY - ypos;
      lastX := xpos;
      lastY := ypos;
      xoffset := xoffset * LookSensitivity;
      yoffset := yoffset * LookSensitivity;
      yaw := yaw + xoffset;
      pitch := pitch + yoffset;
      if pitch > 89.0 {
        pitch := 89.0;
      }
      if pitch < -89.0 {
        pitch := -89.0;
      }
    }
  }
}
