/**
 * The collaboration store (src/story/collaboration_protocol.py): a keyed
 * blackboard the stages share information through, and an append-only log of
 * proposals and conflict resolutions. Proposals are always accepted and
 * conflict resolution is a placeholder that echoes its input.
 */
module Collaboration {
  import opened Values

  /** The log entry `propose_change` appends. */
  function ProposalEntry(agentName: string, changeDetails: Value): (e: Value)
    ensures e.VDict? && e.fields.Keys == {"agent", "change", "status"}
    ensures e.fields["agent"] == VStr(agentName) && e.fields["change"] == changeDetails
    ensures e.fields["status"] == VStr("accepted")
  {
    VDict(map["agent" := VStr(agentName), "change" := changeDetails, "status" := VStr("accepted")])
  }

  /** The log entry `resolve_conflict` appends. */
  function ResolutionEntry(conflictDetails: Value): (e: Value)
    ensures e.VDict? && e.fields.Keys == {"conflict", "status"}
    ensures e.fields["conflict"] == conflictDetails && e.fields["status"] == VStr("resolved")
  {
    VDict(map["conflict" := conflictDetails, "status" := VStr("resolved")])
  }

  /** What `resolve_conflict` returns. */
  function Resolution(conflictDetails: Value): (r: Value)
    ensures r.VDict? && r.fields.Keys == {"resolution", "details"}
    ensures r.fields["resolution"] == VStr("accepted_one_proposal")
    ensures r.fields["details"] == conflictDetails
  {
    VDict(map["resolution" := VStr("accepted_one_proposal"), "details" := conflictDetails])
  }

  /**
   * Reading a key back after sharing it yields the shared value; every other key
   * reads as before, and a key never shared reads as None.
   */
  lemma GetAfterShare(context: map<string, Value>, infoType: string, data: Value, key: string)
    ensures Get(context[infoType := data], key) == if key == infoType then data else Get(context, key)
    ensures key !in context && key != infoType ==> Get(context[infoType := data], key) == VNull
  {
  }

  class CollaborationProtocol {
    var sharedContext: map<string, Value>
    var conflictResolutionLog: seq<Value>

    constructor ()
      ensures sharedContext == map[] && conflictResolutionLog == []
    {
      sharedContext := map[];
      conflictResolutionLog := [];
    }

    /** Stores `data` under `infoType`, overwriting; the agent name is only logged. */
    method ShareInformation(agentName: string, infoType: string, data: Value)
      modifies this`sharedContext
      ensures sharedContext == old(sharedContext)[infoType := data]
      ensures forall k :: k != infoType ==> Get(sharedContext, k) == Get(old(sharedContext), k)
    {
      sharedContext := sharedContext[infoType := data];
    }

    function GetContext(infoType: string): (data: Value)
      reads this
      ensures infoType in sharedContext ==> data == sharedContext[infoType]
      ensures infoType !in sharedContext ==> data == VNull
    {
      Get(sharedContext, infoType)
    }

    /** Accepts every proposal and logs it; the blackboard is untouched. */
    method ProposeChange(agentName: string, changeDetails: Value) returns (accepted: bool)
      modifies this`conflictResolutionLog
      ensures accepted
      ensures conflictResolutionLog == old(conflictResolutionLog) + [ProposalEntry(agentName, changeDetails)]
    {
      conflictResolutionLog := conflictResolutionLog + [ProposalEntry(agentName, changeDetails)];
      accepted := true;
    }

    /** A placeholder arbitration: logs the conflict as resolved and echoes it back. */
    method ResolveConflict(conflictDetails: Value) returns (resolution: Value)
      modifies this`conflictResolutionLog
      ensures conflictResolutionLog == old(conflictResolutionLog) + [ResolutionEntry(conflictDetails)]
      ensures resolution == Resolution(conflictDetails)
    {
      conflictResolutionLog := conflictResolutionLog + [ResolutionEntry(conflictDetails)];
      resolution := Resolution(conflictDetails);
    }
  }
}
