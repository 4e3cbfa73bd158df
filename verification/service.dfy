/**
 * The engagement service over its store. The tables it reads and writes are the
 * fields of the class; each method is proved to do what the matching function of
 * EngagementSpec says, and the push methods to keep at most one row per remote
 * identity.
 */
module Service {
  import opened Wrappers
  import opened EngagementModel
  import opened Text
  import opened FieldMappings
  import opened Reconciliation
  import opened EngagementSpec

  /** Builds the data of a row update by reassignment: each truthy unified field
      is written over the stored one. */
  method ApplyTruthyFields(stored: Fields, target: Fields) returns (data: Fields)
    ensures data == Overlay(stored, target)
  {
    data := stored;
    if Truthy(target.content) {
      data := data.(content := target.content);
    }
    if Truthy(target.direction) {
      data := data.(direction := target.direction);
    }
    if Truthy(target.subject) {
      data := data.(subject := target.subject);
    }
    if target.startAt.Some? {
      data := data.(startAt := target.startAt);
    }
    if target.endTime.Some? {
      data := data.(endTime := target.endTime);
    }
    if Truthy(target.engagementType) {
      data := data.(engagementType := target.engagementType);
    }
    if Truthy(target.companyId) {
      data := data.(companyId := target.companyId);
    }
  }

  /** The two passes of getEngagements over the listed rows: first each row's
      output with its field mappings, then, when asked for, each output's raw
      payload; a row without a snapshot fails the whole list. */
  method RenderRows(db: Db, rows: seq<Engagement>, withRemoteData: bool)
    returns (r: Result<seq<EngagementOutput>, ServiceError>)
    ensures r == RenderAll(db, rows, withRemoteData)
  {
    var outs: seq<EngagementOutput> := [];
    for i := 0 to |rows|
      invariant |outs| == i
      invariant forall k :: 0 <= k < i ==> Render(db, rows[k], false) == Success(outs[k])
    {
      var fieldMappings := CollectFieldMappings(ValuesOf(db.values, rows[i].id));
      outs := outs + [EngagementOutput(rows[i].id, rows[i].fields, fieldMappings, None)];
    }
    if withRemoteData {
      var withRemote: seq<EngagementOutput> := [];
      for i := 0 to |rows|
        invariant |withRemote| == i
        invariant forall k :: 0 <= k < i ==> Render(db, rows[k], true) == Success(withRemote[k])
      {
        if rows[i].id !in db.remoteData {
          RenderAllFails(db, rows, true, i);
          return Failure(RemoteDataNotFound);
        }
        withRemote := withRemote + [outs[i].(remoteData := Some(db.remoteData[rows[i].id].data))];
      }
      outs := withRemote;
    }
    RenderAllSucceeds(db, rows, withRemoteData, outs);
    return Success(outs);
  }

  class EngagementService {
    /** The accepted upper-case engagement types. */
    const engagementTypes: set<string>

    var linkedUsers: set<string>
    var companies: set<string>
    var engagements: seq<Engagement>
    var remoteData: map<string, RemoteSnapshot>
    var values: seq<ValueRow>
    var events: seq<Event>

    function Tables(): Db
      reads this
    {
      Db(linkedUsers, companies, engagements, remoteData, values, events)
    }

    ghost predicate Valid()
      reads this
    {
      UniqueIds(engagements) && UniqueRemoteKeys(engagements)
    }

    constructor (engagementTypes: set<string>, store: Db)
      requires UniqueIds(store.engagements) && UniqueRemoteKeys(store.engagements)
      ensures Valid()
      ensures this.engagementTypes == engagementTypes && Tables() == store
    {
      this.engagementTypes := engagementTypes;
      linkedUsers := store.linkedUsers;
      companies := store.companies;
      engagements := store.engagements;
      remoteData := store.remoteData;
      values := store.values;
      events := store.events;
    }

    /** getEngagement: the stored row, its field mappings and, when asked for,
        its raw snapshot. */
    method GetEngagement(id: string, withRemoteData: bool) returns (r: Result<EngagementOutput, ServiceError>)
      ensures r == GetSpec(Tables(), id, withRemoteData)
    {
      var found := FindById(engagements, id);
      if found.None? {
        return Failure(EngagementNotFound);
      }
      var engagement := engagements[found.value];
      var fieldMappings := CollectFieldMappings(ValuesOf(values, engagement.id));
      var res := EngagementOutput(engagement.id, engagement.fields, fieldMappings, None);
      if withRemoteData {
        if engagement.id !in remoteData {
          return Failure(RemoteDataNotFound);
        }
        res := res.(remoteData := Some(remoteData[engagement.id].data));
      }
      return Success(res);
    }

    /** getEngagements: the outputs of the rows of the lower-cased provider and the
        linked user, then one pull event. */
    method GetEngagements(integrationId: string, linkedUserId: string, withRemoteData: bool, eventId: string, now: int)
      returns (r: Result<seq<EngagementOutput>, ServiceError>)
      requires Valid()
      modifies this
      ensures Valid()
      ensures Step(r, Tables()) == ListSpec(old(Tables()), integrationId, linkedUserId, withRemoteData, eventId, now)
    {
      var db := Tables();
      var rows := MatchingRows(engagements, ToLower(integrationId), linkedUserId);
      r := RenderRows(db, rows, withRemoteData);
      if r.Failure? {
        return;
      }
      events := events + [PullEvent(eventId, integrationId, linkedUserId, now)];
    }

    /** addEngagement. The provider's answer, the unify step, the uuids and the
        clock come in as parameters; the id for a new row must be unused. */
    method AddEngagement(
      input: EngagementInput, integrationId: string, linkedUserId: string, withRemoteData: bool,
      env: CallEnv, unify: (RawPayload, CrmObject) -> Option<Fields>)
      returns (r: Result<EngagementOutput, ServiceError>)
      requires Valid()
      requires env.freshId !in Ids(engagements)
      modifies this
      ensures Valid()
      ensures Step(r, Tables()) == AddSpec(old(Tables()), engagementTypes, input, integrationId, linkedUserId, withRemoteData, env, unify)
    {
      if linkedUserId !in linkedUsers {
        return Failure(LinkedUserNotFound);
      }
      var company := input.companyId;
      if Truthy(company) && company.value !in companies {
        return Failure(CompanyNotFound);
      }
      var engagementType := ToUpper(input.engagementType);
      if engagementType != "" {
        if engagementType !in engagementTypes {
          return Failure(EngagementTypeUnknown);
        }
      } else {
        return Failure(EngagementTypeMissing);
      }

      if env.response.None? {
        return Failure(ProviderCallFailed);
      }
      var resp := env.response.value;
      var targetType := TargetKind(engagementType);
      var unified := unify(resp.data, targetType);
      if unified.None? {
        return Failure(UnifiedNothing);
      }
      var target := unified.value;

      var key := RemoteKey(resp.data.id, integrationId, linkedUserId);
      ReconcileKeepsOneRowPerIdentity(engagements, key, target, env.freshId, env.now);
      var existing := FindExisting(engagements, key);
      var ownerId: string;
      if existing.Some? {
        var stored := engagements[existing.value];
        var data := ApplyTruthyFields(stored.fields, target);
        engagements := engagements[existing.value := stored.(fields := data, modifiedAt := env.now)];
        ownerId := stored.id;
      } else {
        var data := ApplyTruthyFields(NoFields, target);
        var created := Engagement(env.freshId, data, key.remoteId, integrationId, linkedUserId, env.now, env.now);
        engagements := engagements + [created];
        ownerId := created.id;
      }

      remoteData := UpsertSnapshot(remoteData, ownerId, resp.data, env.snapshotId, env.now);
      r := GetEngagement(ownerId, withRemoteData);
      events := events + [PushEvent(env.eventId, PushStatus(resp.statusCode), integrationId, linkedUserId, env.now)];
    }

    /** batchAddEngagements: addEngagement on each input in order, with the provider
        id lower-cased; one fresh id per input. */
    method BatchAddEngagements(
      inputs: seq<EngagementInput>, integrationId: string, linkedUserId: string, withRemoteData: bool,
      envs: seq<CallEnv>, unify: (RawPayload, CrmObject) -> Option<Fields>)
      returns (rs: seq<Result<EngagementOutput, ServiceError>>)
      requires Valid()
      requires |envs| == |inputs|
      requires FreshIds(engagements, envs)
      modifies this
      ensures Valid()
      ensures Step(rs, Tables()) == BatchSpec(old(Tables()), engagementTypes, inputs, integrationId, linkedUserId, withRemoteData, envs, unify)
    {
      rs := [];
      var provider := ToLower(integrationId);
      for i := 0 to |inputs|
        invariant Valid()
        invariant Step(rs, Tables()) == BatchSpec(old(Tables()), engagementTypes, inputs[..i], integrationId, linkedUserId, withRemoteData, envs[..i], unify)
        invariant forall j :: i <= j < |envs| ==> envs[j].freshId !in Ids(engagements)
      {
        ghost var before := Tables();
        AddKeepsOneRowPerIdentity(before, engagementTypes, inputs[i], provider, linkedUserId, withRemoteData, envs[i], unify);
        var r := AddEngagement(inputs[i], provider, linkedUserId, withRemoteData, envs[i], unify);
        ghost var step := AddSpec(before, engagementTypes, inputs[i], provider, linkedUserId, withRemoteData, envs[i], unify);
        assert Step(r, Tables()) == step;
        rs := rs + [r];
        assert inputs[..i + 1][..i] == inputs[..i] && envs[..i + 1][..i] == envs[..i];
        assert inputs[..i + 1][i] == inputs[i] && envs[..i + 1][i] == envs[i];
        assert BatchSpec(old(Tables()), engagementTypes, inputs[..i + 1], integrationId, linkedUserId, withRemoteData, envs[..i + 1], unify)
            == Step(rs, step.db);
        forall j | i + 1 <= j < |envs| ensures envs[j].freshId !in Ids(engagements) {
          assert envs[j].freshId != envs[i].freshId;
        }
      }
      assert inputs[..|inputs|] == inputs && envs[..|envs|] == envs;
    }
  }
}
