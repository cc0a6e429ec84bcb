/** WaterInteractionBase: the trigger and condition gate that the water source and the
    vessel-to-vessel transfer are built on. The base class's state lives in an
    InteractionGate object that each site owns; the site's overrides (ExecuteTask,
    OnContainerExited, CheckCondition) are the site's own methods, which call into the gate
    for the base behaviour. */
module InteractionGates {
  import opened WaterMath
  import opened WaterSystem

  /** WaterInteractionBase.ConditionType. */
  datatype ConditionType = ButtonPress | TiltDetection | CollisionDetection

  /** The base condition switch. `pressed` is this frame's OVRInput.GetDown for the
      configured button and `tilted` the result of CheckTiltAngle. */
  function BaseCondition(c: ConditionType, pressed: bool, tilted: bool): bool
  {
    match c
    case ButtonPress => pressed
    case TiltDetection => tilted
    case CollisionDetection => true
  }

  /** The fill-level filter of OnTriggerEnter: requiresFull admits only full vessels, and
      its absence only vessels that are not full. */
  predicate FillLevelPasses(requiresFull: bool, isFull: bool)
  {
    !(requiresFull && !isFull) && !(!requiresFull && isFull)
  }

  /** The two guards amount to "the vessel is full exactly when a full one is required";
      in particular a partly filled vessel passes when requiresFull is false. */
  lemma FillLevelIsExact(requiresFull: bool, isFull: bool)
    ensures FillLevelPasses(requiresFull, isFull) <==> (isFull == requiresFull)
  {
  }

  /** Whether Update goes on to evaluate the condition: never in CollisionDetection mode
      (which fires on entry), and only while a container is present and nothing runs. */
  predicate Polls(c: ConditionType, hasContainer: bool, isExecuting: bool)
  {
    c != CollisionDetection && hasContainer && !isExecuting
  }

  class InteractionGate {
    var conditionType: ConditionType
    const tiltAngleThreshold: real
    const allowedVesselTypeEnum: AllowedVesselType
    var requiresFull: bool
    /** The converted filter; None is the null Type, "every vessel". */
    var allowedVesselType: Option<VesselKind>
    var currentContainer: Vessel?
    var isExecuting: bool

    /** The serialized settings; the converted filter starts as null until Awake. */
    constructor (conditionType: ConditionType, tiltAngleThreshold: real,
                 allowedVesselTypeEnum: AllowedVesselType, requiresFull: bool)
      ensures this.conditionType == conditionType && this.tiltAngleThreshold == tiltAngleThreshold
      ensures this.allowedVesselTypeEnum == allowedVesselTypeEnum && this.requiresFull == requiresFull
      ensures allowedVesselType == None && currentContainer == null && !isExecuting
    {
      this.conditionType := conditionType;
      this.tiltAngleThreshold := tiltAngleThreshold;
      this.allowedVesselTypeEnum := allowedVesselTypeEnum;
      this.requiresFull := requiresFull;
      allowedVesselType := None;
      currentContainer := null;
      isExecuting := false;
    }

    /** WaterInteractionBase.Awake: the collider checks only log; the enum is converted. */
    method Awake()
      modifies this`allowedVesselType
      ensures allowedVesselType == ToVesselFilter(allowedVesselTypeEnum)
    {
      allowedVesselType := match allowedVesselTypeEnum
        case All => None
        case WaterBucket => Some(Bucket)
        case WaterCup => Some(Cup);
    }

    /** Whether OnTriggerEnter takes the object as its container: it must be a vessel of an
        allowed kind whose fill level passes. */
    predicate Accepts(other: Vessel?)
      reads this, other
    {
      other != null && Allows(allowedVesselType, other.kind) && FillLevelPasses(requiresFull, other.IsFull())
    }

    /** The filtering part of OnTriggerEnter: an accepted vessel becomes the container; a
        refused object changes nothing. The caller then runs ExecuteTask at once in
        CollisionDetection mode (OnContainerEntered does nothing in every site). */
    method Enter(other: Vessel?) returns (accepted: bool)
      modifies this`currentContainer
      ensures accepted == Accepts(other)
      ensures currentContainer == if accepted then other else old(currentContainer)
    {
      if other == null {
        return false;
      }
      if allowedVesselType != None {
        var typeMatch := allowedVesselType == Some(other.kind);
        if !typeMatch {
          return false;
        }
      }
      if requiresFull && !other.IsFull() {
        return false;
      }
      if !requiresFull && other.IsFull() {
        return false;
      }
      currentContainer := other;
      return true;
    }

    /** The tail of OnTriggerExit once the leaving object is the container (the caller has
        run its OnContainerExited): the container is forgotten and the gate re-armed. */
    method ClearContainer()
      modifies this`currentContainer, this`isExecuting
      ensures currentContainer == null && !isExecuting
    {
      currentContainer := null;
      isExecuting := false;
    }

    /** CheckTiltAngle: the larger folded Euler angle of the container exceeds the threshold;
        false with no container. */
    predicate CheckTiltAngle()
      reads this, currentContainer
    {
      currentContainer != null &&
      TiltExceeds(currentContainer.eulerX, currentContainer.eulerZ, tiltAngleThreshold)
    }

    /** The base CheckCondition for this frame's button edge `pressed`. */
    predicate CheckCondition(pressed: bool)
      reads this, currentContainer
    {
      BaseCondition(conditionType, pressed, CheckTiltAngle())
    }

    /** The early returns of the base Update. */
    predicate UpdatePolls()
      reads this
    {
      Polls(conditionType, currentContainer != null, isExecuting)
    }
  }

  /** The entry filter, stated outright: a refused object is a non-vessel, a vessel of the
      wrong kind, or one whose fill level does not match requiresFull. */
  lemma AcceptsExactly(g: InteractionGate, v: Vessel)
    ensures g.Accepts(v) <==>
              (g.allowedVesselType == None || g.allowedVesselType == Some(v.kind)) && v.IsFull() == g.requiresFull
  {
    FillLevelIsExact(g.requiresFull, v.IsFull());
  }

  /** The tilt condition is the pour test of the vessel itself, with the gate's threshold. */
  lemma TiltConditionIsPourTest(g: InteractionGate)
    requires g.currentContainer != null
    ensures g.CheckTiltAngle() <==>
              WaterMath.IsPouringAngle(g.currentContainer.eulerX, g.currentContainer.eulerZ, g.tiltAngleThreshold)
  {
    TiltTestsAgree(g.currentContainer.eulerX, g.currentContainer.eulerZ, g.tiltAngleThreshold);
  }

  /** The button condition is exactly the press edge, and a CollisionDetection gate never
      fires from Update, whatever the condition would say. */
  lemma ConditionFacts(c: ConditionType, pressed: bool, tilted: bool, hasContainer: bool, isExecuting: bool)
    ensures c == ButtonPress ==> (BaseCondition(c, pressed, tilted) <==> pressed)
    ensures c == TiltDetection ==> (BaseCondition(c, pressed, tilted) <==> tilted)
    ensures c == CollisionDetection ==> !Polls(c, hasContainer, isExecuting)
    ensures Polls(c, hasContainer, isExecuting) ==> hasContainer && !isExecuting
  {
  }
}
