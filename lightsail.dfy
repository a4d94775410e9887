/** The instance-control client. The provider's `send` is not modelled: the
    client logs each command it sends, and what the provider answers is an
    input. The one rule of its own is how a get-instance response becomes a
    state label. */
module Lightsail {
  import opened Wrappers

  const DefaultRegion: string := "us-east-1"
  const StateMissingMessage: string := "Failed to get instance state"

  /** A command sent to the provider, naming the instance it acts on. */
  datatype Request =
    | StartInstanceCommand(instanceName: string)
    | StopInstanceCommand(instanceName: string)
    | RebootInstanceCommand(instanceName: string)
    | GetInstanceCommand(instanceName: string)

  /** What `send(GetInstanceCommand)` yields: the state name found in the
      response (absent when the instance or its state is missing), or the
      value it threw. */
  type GetInstanceResponse = Result<Option<string>, Thrown>

  /** The state name, or a failure when the call threw or the response
      carries no usable (present and non-empty) state name. */
  function StateFromResponse(response: GetInstanceResponse): (r: Result<string, Thrown>)
    ensures r.Success? <==> response.Success? && response.value.Some? && response.value.value != ""
    ensures r.Success? ==> r.value == response.value.value && r.value != ""
    ensures response.Failure? ==> r == Failure(response.error)
    ensures response.Success? && r.Failure? ==> r.error == ErrorObject(StateMissingMessage)
  {
    match response
    case Failure(t) => Failure(t)
    case Success(name) =>
      if name.None? || name.value == "" then Failure(ErrorObject(StateMissingMessage))
      else Success(name.value)
  }

  class LightsailClient {
    const region: string
    /** The commands sent to the provider, in order. */
    var sent: seq<Request>

    constructor (region: string)
      ensures this.region == region && sent == []
    {
      this.region := region;
      sent := [];
    }

    /** startInstance: send the command; its outcome is the provider's. */
    method StartInstance(instanceName: string, outcome: Outcome<Thrown>) returns (r: Outcome<Thrown>)
      modifies this`sent
      ensures sent == old(sent) + [StartInstanceCommand(instanceName)] && r == outcome
    {
      sent := sent + [StartInstanceCommand(instanceName)];
      r := outcome;
    }

    method StopInstance(instanceName: string, outcome: Outcome<Thrown>) returns (r: Outcome<Thrown>)
      modifies this`sent
      ensures sent == old(sent) + [StopInstanceCommand(instanceName)] && r == outcome
    {
      sent := sent + [StopInstanceCommand(instanceName)];
      r := outcome;
    }

    method RebootInstance(instanceName: string, outcome: Outcome<Thrown>) returns (r: Outcome<Thrown>)
      modifies this`sent
      ensures sent == old(sent) + [RebootInstanceCommand(instanceName)] && r == outcome
    {
      sent := sent + [RebootInstanceCommand(instanceName)];
      r := outcome;
    }

    /** getInstanceState: send the command, then read the state out of the
        response. */
    method GetInstanceState(instanceName: string, response: GetInstanceResponse)
      returns (r: Result<string, Thrown>)
      modifies this`sent
      ensures sent == old(sent) + [GetInstanceCommand(instanceName)]
      ensures r == StateFromResponse(response)
    {
      sent := sent + [GetInstanceCommand(instanceName)];
      match response
      case Failure(t) =>
        r := Failure(t);
      case Success(name) =>
        if name.None? || name.value == "" {
          r := Failure(ErrorObject(StateMissingMessage));
        } else {
          r := Success(name.value);
        }
    }
  }
}
