/**
 * The engagement service with the Zoho mapper plugged in as its unify step. The
 * service unifies the provider's answer as a one-element array with no custom
 * field mappings and takes element 0; with the Zoho per-object mapper still a
 * stub, that element is undefined, so every push stops before the store is written.
 */
module ZohoPush {
  import opened Wrappers
  import opened EngagementModel
  import opened EngagementSpec
  import opened Text
  import opened ZohoMappers

  /** The name of the unified object kind handed to unify as engagement_type. */
  function KindName(k: CrmObject): string
  {
    match k
    case EngagementCall => "engagement_call"
    case EngagementMeeting => "engagement_meeting"
    case EngagementEmail => "engagement_email"
  }

  /** `unify({ sourceObject: [resp.data], customFieldMappings: [] })[0]` through the Zoho mapper. */
  function ZohoUnifier(payload: RawPayload, kind: CrmObject): (r: Option<Fields>)
    ensures r.None?
  {
    Unify(Many([payload]), KindName(kind), Some([])).items[0]
  }

  /** A Zoho push fails and leaves the store as it was. */
  lemma ZohoAddWritesNothing(
    db: Db, engagementTypes: set<string>, input: EngagementInput, integrationId: string, linkedUserId: string,
    withRemoteData: bool, env: CallEnv)
    ensures var s := AddSpec(db, engagementTypes, input, integrationId, linkedUserId, withRemoteData, env, ZohoUnifier);
            s.result.Failure? && s.db == db
    ensures Validate(db, engagementTypes, input, linkedUserId).Success? && env.response.Some? ==>
              AddSpec(db, engagementTypes, input, integrationId, linkedUserId, withRemoteData, env, ZohoUnifier).result
              == Failure(UnifiedNothing)
  {
  }

  /** A Zoho batch fails on every input and leaves the store as it was. */
  lemma {:induction false} ZohoBatchWritesNothing(
    db: Db, engagementTypes: set<string>, inputs: seq<EngagementInput>, integrationId: string, linkedUserId: string,
    withRemoteData: bool, envs: seq<CallEnv>)
    requires |envs| == |inputs|
    ensures var s := BatchSpec(db, engagementTypes, inputs, integrationId, linkedUserId, withRemoteData, envs, ZohoUnifier);
            && s.db == db
            && |s.result| == |inputs|
            && forall i :: 0 <= i < |inputs| ==> s.result[i].Failure?
    decreases |inputs|
  {
    if inputs != [] {
      var n := |inputs| - 1;
      ZohoBatchWritesNothing(db, engagementTypes, inputs[..n], integrationId, linkedUserId, withRemoteData, envs[..n]);
      ZohoAddWritesNothing(db, engagementTypes, inputs[n], ToLower(integrationId), linkedUserId, withRemoteData, envs[n]);
    }
  }
}
