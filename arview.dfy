/** SimpleARView: the view object whose fields the frame callback, the touch
    handler and the UI signal handler update in place. Only the state those
    handlers read and write is kept: the trigger flag and last update time, the
    pinwheel's orientation about z, and the plane anchor (an identity and the
    set of entities attached to it) with the anchors currently in the scene. */
module ARView {
  import opened Trigger
  import opened Rotation

  datatype Option<T> = None | Some(value: T)

  /** The UI commands a view model can send to the view. */
  datatype UISignal = ResetAnchor | Spin

  /** The entities the view attaches to its anchor. */
  datatype Entity = Stick | Pinwheels

  /** A horizontal-plane anchor: its identity and its children. */
  datatype Anchor = Anchor(id: nat, children: set<Entity>)

  /** The first touch of a move event: its horizontal location now and at the
      previous event, in view points. */
  datatype Touch = Touch(x: real, previousX: real)

  class SimpleARView {
    var hasBeenTriggered: bool
    var lastUpdateTime: real
    /** pinwheels.orientation, as an angle about z. */
    var orientation: Angle
    var planeAnchor: Option<Anchor>
    /** Ids of the anchors added to the scene and not yet removed from it. */
    var sceneAnchors: set<nat>
    /** Every id below this one has been handed to an anchor already. */
    var nextAnchorId: nat
    /** Every audio command the view has issued, in order. */
    ghost var audioLog: seq<Command>

    /** The audio commands alternate Play, Stop, Play, ... so the flag is set
        exactly when the last command issued was Play; the current anchor is
        in the scene; all anchor ids were handed out by this view. */
    ghost predicate Valid()
      reads this
    {
      Alternating(audioLog, false) &&
      hasBeenTriggered == Flip(false, |audioLog|) &&
      (planeAnchor.Some? ==> planeAnchor.value.id in sceneAnchors) &&
      (forall id :: id in sceneAnchors ==> id < nextAnchorId)
    }

    /** The two fields of the trigger state machine. */
    function State(): TriggerState
      reads this
    {
      TriggerState(hasBeenTriggered, lastUpdateTime)
    }

    /** A view created at time `now`: idle, no anchor yet, and the last update
        time initialised to the creation time. */
    constructor (now: real)
      ensures Valid()
      ensures State() == TriggerState(false, now)
      ensures orientation == Identity
      ensures planeAnchor == None && sceneAnchors == {}
      ensures audioLog == []
    {
      hasBeenTriggered := false;
      lastUpdateTime := now;
      orientation := Identity;
      planeAnchor := None;
      sceneAnchors := {};
      nextAnchorId := 0;
      audioLog := [];
    }

    /** A fresh horizontal-plane anchor, added to the scene. */
    method NewAnchor(children: set<Entity>) returns (a: Anchor)
      requires Valid()
      modifies this`sceneAnchors, this`nextAnchorId
      ensures Valid()
      ensures a.children == children
      ensures a.id !in old(sceneAnchors) && a.id >= old(nextAnchorId)
      ensures sceneAnchors == old(sceneAnchors) + {a.id}
    {
      a := Anchor(nextAnchorId, children);
      nextAnchorId := nextAnchorId + 1;
      sceneAnchors := sceneAnchors + {a.id};
    }

    /** The anchor and transform part of setting up the entities: a new plane
        anchor in the scene with the stick and the pinwheels attached, the
        pinwheels back at the identity orientation. */
    method SetupEntities()
      requires Valid()
      modifies this
      ensures Valid()
      ensures planeAnchor.Some? && planeAnchor.value.children == {Stick, Pinwheels}
      ensures planeAnchor.value.id !in old(sceneAnchors)
      ensures sceneAnchors == old(sceneAnchors) + {planeAnchor.value.id}
      ensures orientation == Identity
      ensures State() == old(State()) && audioLog == old(audioLog)
    {
      var a := NewAnchor({Stick, Pinwheels});
      planeAnchor := Some(a);
      orientation := Identity;
    }

    /** Removes the current anchor (if any) from the scene and replaces it with
        a new one that has no children. */
    method ResetPlaneAnchor()
      requires Valid()
      modifies this
      ensures Valid()
      ensures planeAnchor.Some? && planeAnchor.value.children == {}
      ensures old(planeAnchor).Some? ==> planeAnchor.value.id != old(planeAnchor).value.id
      ensures planeAnchor.value.id !in old(sceneAnchors)
      ensures sceneAnchors == (if old(planeAnchor).Some? then old(sceneAnchors) - {old(planeAnchor).value.id}
                               else old(sceneAnchors)) + {planeAnchor.value.id}
      ensures State() == old(State()) && orientation == old(orientation) && audioLog == old(audioLog)
    {
      if planeAnchor.Some? {
        sceneAnchors := sceneAnchors - {planeAnchor.value.id};
      }
      planeAnchor := None;
      var a := NewAnchor({});
      planeAnchor := Some(a);
    }

    /** The spin command applies a physics impulse, which changes none of the
        modelled state. */
    method SpinWheels()
      ensures State() == old(State()) && orientation == old(orientation)
      ensures planeAnchor == old(planeAnchor) && sceneAnchors == old(sceneAnchors)
      ensures nextAnchorId == old(nextAnchorId)
    {
    }

    /** Dispatches a UI signal: reset replaces the anchor, spin applies the impulse. */
    method ProcessUISignal(signal: UISignal)
      requires Valid()
      modifies this
      ensures Valid()
      ensures State() == old(State()) && orientation == old(orientation) && audioLog == old(audioLog)
      ensures signal == ResetAnchor ==>
                planeAnchor.Some? && planeAnchor.value.children == {} &&
                planeAnchor.value.id !in old(sceneAnchors) &&
                sceneAnchors == (if old(planeAnchor).Some? then old(sceneAnchors) - {old(planeAnchor).value.id}
                                 else old(sceneAnchors)) + {planeAnchor.value.id}
      ensures signal == Spin ==>
                planeAnchor == old(planeAnchor) && sceneAnchors == old(sceneAnchors) &&
                nextAnchorId == old(nextAnchorId)
    {
      match signal
      case ResetAnchor => ResetPlaneAnchor();
      case Spin => SpinWheels();
    }

    /** A touch move turns the pinwheel by the horizontal delta times
        -GestureSpeed; a move event without a touch changes nothing. */
    method TouchesMoved(touch: Option<Touch>)
      modifies this`orientation
      ensures touch.None? ==> orientation == old(orientation)
      ensures touch.Some? ==> orientation == Gesture(old(orientation), touch.value.x - touch.value.previousX)
    {
      if touch.None? {
        return;
      }
      var deltaX := touch.value.x - touch.value.previousX;
      orientation := Compose(orientation, Angle(0.0, deltaX * -GestureSpeed));
    }

    /** One frame. `level` is the recorder's averaged power for channel 0,
        `now` the clock, and `playing` what the audio controller reports after
        the trigger branch. Returns the audio commands issued, in order. */
    method RenderLoop(level: real, now: real, playing: bool) returns (cmds: seq<Command>)
      requires Valid()
      modifies this`hasBeenTriggered, this`lastUpdateTime, this`orientation, this`audioLog
      ensures Valid()
      ensures Outcome(State(), cmds) == Step(old(State()), Reading(level, now))
      ensures orientation == TickRotation(old(orientation), playing)
      ensures audioLog == old(audioLog) + cmds
      ensures planeAnchor == old(planeAnchor) && sceneAnchors == old(sceneAnchors)
      ensures nextAnchorId == old(nextAnchorId)
    {
      var currentTime := now;
      var timeInterval := currentTime - lastUpdateTime;
      ghost var before := State();
      cmds := [];

      if level > Threshold && !hasBeenTriggered {
        cmds := cmds + [Play];
        hasBeenTriggered := true;
        lastUpdateTime := currentTime;
      }

      if playing {
        orientation := Compose(orientation, PlayStep);
      }

      if timeInterval > Window && hasBeenTriggered {
        cmds := cmds + [Stop];
        lastUpdateTime := currentTime;
        hasBeenTriggered := false;
      }

      ghost var step := Step(before, Reading(level, now));
      assert cmds == step.cmds && State() == step.state;
      AppendTickAlternates(audioLog, before, Reading(level, now));
      audioLog := audioLog + cmds;
    }
  }
}
