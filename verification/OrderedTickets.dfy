/** Tickets, the requests they answer, and the insertion-ordered dictionaries
    (keyed by request ID) in which the motion controller keeps them. */
module OrderedTickets {
  import opened Options

  datatype Origin = Local | Remote

  datatype Kind =
    | MotionPlay | MotionCancel | MotionInterrupt | MotionStatus | MotionList
    | TrackPoint | TrackBearing | TrackClear
    | FaceStep | FaceClear
    | TaskPlace | TaskCancel | TaskClear
    | AwayHold | AwayClear
    | OrientationAcquire | OrientationReturn | OrientationStatus | OrientationHold
    | Heartbeat | UnknownKind

  /** The payload fields that decide a branch of the controller. */
  datatype Request = Request(id: string, kind: Kind, replaceCurrent: bool, targetId: string)

  /** Why a ticket got its result. `Reported` carries a code of the runtime's own. */
  datatype Code =
    | AcceptedCode | CompletedCode | Superseded | LocalDisconnected | Disconnected | Faulted
    | StoppedCode | QueueFull | RequestIdCollision | Expired | UnknownMotion | Busy | Duplicate
    | AwayPoseActive | FaceFollowActive | UserInView | BlockedByTaskLight | AlignedCode
    | ReplacedCode | NotFound | CancelledCode | Interrupted | UnsafeTarget | UnsafeFaceStep
    | ShoulderWarm | OverTorque | ShoulderOverTemperature | UnknownType
    | Reported(text: string)

  datatype ResultState = Accepted | Completed | Failed | Cancelled
  datatype CommandResult = CommandResult(state: ResultState, code: Code)

  /** `key` is the identity of the ticket object; no two tickets share one. */
  datatype Ticket = Ticket(key: nat, origin: Origin, request: Request) {
    function Rid(): string { request.id }
  }

  predicate Tracking(k: Kind) { k == TrackPoint || k == TrackBearing }

  /** Whole-dictionary lookup: `d.get(id)`. */
  function Find(d: seq<Ticket>, id: string): (r: Option<Ticket>)
    ensures r.Some? ==> r.value in d && r.value.Rid() == id
    ensures r.None? ==> forall t | t in d :: t.Rid() != id
  {
    if d == [] then None
    else if d[0].Rid() == id then Some(d[0])
    else Find(d[1..], id)
  }

  /** `del d[id]`, keeping the order of the other entries. */
  function Without(d: seq<Ticket>, id: string): (r: seq<Ticket>)
    ensures forall t :: t in r <==> t in d && t.Rid() != id
    ensures |r| <= |d|
    ensures (exists t :: t in d && t.Rid() == id) ==> |r| < |d|
    ensures Distinct(d) ==> Distinct(r)
  {
    if d == [] then []
    else if d[0].Rid() == id then Without(d[1..], id)
    else
      var rest := Without(d[1..], id);
      assert forall t :: t in d <==> t == d[0] || t in d[1..];
      [d[0]] + rest
  }

  /** One entry per request ID. */
  ghost predicate Distinct(d: seq<Ticket>) {
    forall i, j | 0 <= i < j < |d| :: d[i].Rid() != d[j].Rid()
  }

  lemma FindIsMember(d: seq<Ticket>, t: Ticket)
    requires Distinct(d)
    ensures Find(d, t.Rid()) == Some(t) <==> t in d
  {}
}
