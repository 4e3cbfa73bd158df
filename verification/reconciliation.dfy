/**
 * Find-or-create of a crm_engagements row by its remote identity
 * (remote_id, remote_platform, id_linked_user): an existing row is updated in
 * place with the sparse overlay and a refreshed modified_at; otherwise a row
 * with a fresh id and that identity is appended.
 */
module Reconciliation {
  import opened Wrappers
  import opened EngagementModel
  import Queries

  /** The ids of the rows. */
  function Ids(rows: seq<Engagement>): set<string>
  {
    set i | 0 <= i < |rows| :: rows[i].id
  }

  ghost predicate UniqueIds(rows: seq<Engagement>)
  {
    forall i, j :: 0 <= i < j < |rows| ==> rows[i].id != rows[j].id
  }

  /** At most one row per remote identity. */
  ghost predicate UniqueRemoteKeys(rows: seq<Engagement>)
  {
    forall i, j :: 0 <= i < j < |rows| ==> KeyOf(rows[i]) != KeyOf(rows[j])
  }

  /** The first row whose remote identity is exactly `key`. */
  function FindExisting(rows: seq<Engagement>, key: RemoteKey): (r: Option<nat>)
    ensures r.Some? ==> r.value < |rows| && KeyOf(rows[r.value]) == key
    ensures r.None? <==> forall i :: 0 <= i < |rows| ==> KeyOf(rows[i]) != key
  {
    Queries.FirstIndex(rows, (e: Engagement) => KeyOf(e) == key)
  }

  /** The filter of the findFirst call as the query engine reads it: a filter
      value that is undefined places no condition on its column. */
  predicate WhereMatches(e: Engagement, key: RemoteKey)
  {
    && (key.remoteId.None? || e.remoteId == key.remoteId)
    && e.remotePlatform == key.platform
    && e.linkedUser == key.linkedUser
  }

  /** The lookup as written: with no `id` in the provider payload the remote_id
      filter is undefined, so any row of the same platform and linked user matches. */
  function FindExistingAsWritten(rows: seq<Engagement>, key: RemoteKey): (r: Option<nat>)
    ensures r.Some? ==> r.value < |rows| && WhereMatches(rows[r.value], key)
    ensures r.None? <==> forall i :: 0 <= i < |rows| ==> !WhereMatches(rows[i], key)
  {
    Queries.FirstIndex(rows, (e: Engagement) => WhereMatches(e, key))
  }

  /** A payload without an `id` makes the written lookup pick a record that came
      from a different remote object, which the exact lookup does not. The record
      is then overwritten by any provider whose unify yields an object. */
  lemma MissingRemoteIdMatchesUnrelatedRecord()
    ensures var stored := Engagement("engagement-1", NoFields, Some("42"), "hubspot", "user-1", 0, 0);
            var key := RemoteKey(None, "hubspot", "user-1");
            && KeyOf(stored) != key
            && FindExistingAsWritten([stored], key) == Some(0)
            && FindExisting([stored], key) == None
  {
    var stored := Engagement("engagement-1", NoFields, Some("42"), "hubspot", "user-1", 0, 0);
    var key := RemoteKey(None, "hubspot", "user-1");
    assert WhereMatches([stored][0], key);
  }

  /** For a payload that carries an `id`, the lookup as written and the exact lookup
      agree: the discrepancy is confined to payloads without one. */
  lemma {:induction false} AsWrittenAgreesWhenIdPresent(rows: seq<Engagement>, key: RemoteKey)
    requires key.remoteId.Some?
    ensures FindExistingAsWritten(rows, key) == FindExisting(rows, key)
  {
    Queries.FirstIndexAgrees(rows, (e: Engagement) => WhereMatches(e, key), (e: Engagement) => KeyOf(e) == key);
  }

  /** An existing row after the update: sparse overlay, modified_at refreshed. */
  function Refresh(e: Engagement, incoming: Fields, now: int): Engagement
  {
    e.(fields := Overlay(e.fields, incoming), modifiedAt := now)
  }

  /** A new row: fresh id, the remote identity, only the truthy unified fields. */
  function NewEngagement(id: string, key: RemoteKey, incoming: Fields, now: int): Engagement
  {
    Engagement(id, Overlay(NoFields, incoming), key.remoteId, key.platform, key.linkedUser, now, now)
  }

  datatype Reconciled = Reconciled(rows: seq<Engagement>, ownerId: string)

  /** Find-or-create: at most one row is added, and the returned owner is a row that
      carries the key. */
  function Reconcile(rows: seq<Engagement>, key: RemoteKey, incoming: Fields, freshId: string, now: int): (r: Reconciled)
    ensures |rows| <= |r.rows| <= |rows| + 1
    ensures exists i :: 0 <= i < |r.rows| && r.rows[i].id == r.ownerId && KeyOf(r.rows[i]) == key
  {
    match FindExisting(rows, key)
    case Some(i) =>
      var updated := rows[i := Refresh(rows[i], incoming, now)];
      assert updated[i].id == rows[i].id && KeyOf(updated[i]) == key;
      Reconciled(updated, rows[i].id)
    case None =>
      var created := NewEngagement(freshId, key, incoming, now);
      assert (rows + [created])[|rows|] == created;
      Reconciled(rows + [created], freshId)
  }

  /** No row other than the one with the key changes, and at most one row is added,
      carrying the key. */
  lemma ReconcileFrame(rows: seq<Engagement>, key: RemoteKey, incoming: Fields, freshId: string, now: int)
    ensures var r := Reconcile(rows, key, incoming, freshId, now);
            && |rows| <= |r.rows| <= |rows| + 1
            && (forall i :: 0 <= i < |rows| && KeyOf(rows[i]) != key ==> r.rows[i] == rows[i])
            && (forall i :: 0 <= i < |r.rows| ==> KeyOf(r.rows[i]) == (if i < |rows| then KeyOf(rows[i]) else key))
  {
  }

  /** A row with the key is updated in place: same id, same identity, same
      created_at, modified_at refreshed, fields overlaid. */
  lemma ReconcileUpdatesInPlace(rows: seq<Engagement>, key: RemoteKey, incoming: Fields, freshId: string, now: int)
    requires FindExisting(rows, key).Some?
    ensures var i := FindExisting(rows, key).value;
            var r := Reconcile(rows, key, incoming, freshId, now);
            && |r.rows| == |rows|
            && r.ownerId == rows[i].id == r.rows[i].id
            && KeyOf(r.rows[i]) == key
            && r.rows[i].createdAt == rows[i].createdAt
            && r.rows[i].modifiedAt == now
            && r.rows[i].fields == Overlay(rows[i].fields, incoming)
  {
  }

  /** Without a row with the key, exactly one row is appended: fresh id, the key,
      created_at and modified_at set to now, and exactly the truthy unified fields. */
  lemma ReconcileCreates(rows: seq<Engagement>, key: RemoteKey, incoming: Fields, freshId: string, now: int)
    requires FindExisting(rows, key).None?
    ensures var r := Reconcile(rows, key, incoming, freshId, now);
            && |r.rows| == |rows| + 1
            && r.rows[..|rows|] == rows
            && r.ownerId == freshId == r.rows[|rows|].id
            && KeyOf(r.rows[|rows|]) == key
            && r.rows[|rows|].createdAt == now == r.rows[|rows|].modifiedAt
            && Known(r.rows[|rows|].fields) == Known(incoming)
            && forall n :: Get(r.rows[|rows|].fields, n) == if IsKnown(incoming, n) then Get(incoming, n) else None
  {
    OverlayFieldwise(NoFields, incoming);
    OverlayKnown(NoFields, incoming);
    var r := Reconcile(rows, key, incoming, freshId, now);
    assert r.rows[..|rows|] == rows;
  }

  /** Ids stay unique, identities stay unique, and afterwards exactly one row carries
      the key: the owner row whose id is returned. */
  lemma ReconcileKeepsOneRowPerIdentity(rows: seq<Engagement>, key: RemoteKey, incoming: Fields, freshId: string, now: int)
    requires UniqueIds(rows) && UniqueRemoteKeys(rows)
    requires freshId !in Ids(rows)
    ensures var r := Reconcile(rows, key, incoming, freshId, now);
            && UniqueIds(r.rows)
            && UniqueRemoteKeys(r.rows)
            && Ids(r.rows) == Ids(rows) + {r.ownerId}
            && (r.ownerId in Ids(rows) || r.ownerId == freshId)
            && forall i :: 0 <= i < |r.rows| ==> (KeyOf(r.rows[i]) == key <==> r.rows[i].id == r.ownerId)
  {
    var r := Reconcile(rows, key, incoming, freshId, now);
    match FindExisting(rows, key)
    case Some(k) =>
      assert forall i :: 0 <= i < |r.rows| ==> r.rows[i].id == rows[i].id && KeyOf(r.rows[i]) == KeyOf(rows[i]);
      assert Ids(r.rows) == Ids(rows);
      assert rows[k].id in Ids(rows);
    case None =>
      assert forall i :: 0 <= i < |rows| ==> r.rows[i] == rows[i];
      forall i | 0 <= i < |r.rows| ensures (KeyOf(r.rows[i]) == key <==> r.rows[i].id == r.ownerId) {
        if i < |rows| {
          assert rows[i].id in Ids(rows);
        }
      }
      assert Ids(r.rows) == Ids(rows) + {freshId} by {
        forall x | x in Ids(r.rows) ensures x in Ids(rows) + {freshId} {
          var i :| 0 <= i < |r.rows| && r.rows[i].id == x;
          if i < |rows| {
            assert rows[i].id == x;
          }
        }
        forall x | x in Ids(rows) ensures x in Ids(r.rows) {
          var i :| 0 <= i < |rows| && rows[i].id == x;
          assert r.rows[i].id == x;
        }
        assert r.rows[|rows|].id == freshId;
      }
      forall i, j | 0 <= i < j < |r.rows| ensures r.rows[i].id != r.rows[j].id {
        if j == |rows| {
          assert rows[i].id in Ids(rows);
        }
      }
  }

  /** Two reconciles of the same remote identity leave one row for it, holding the
      fields of both passes overlaid in order on what was there before (on nothing
      when the row did not exist yet). */
  lemma ReconcileTwice(rows: seq<Engagement>, key: RemoteKey, first: Fields, second: Fields, id1: string, id2: string, t1: int, t2: int)
    requires UniqueIds(rows) && UniqueRemoteKeys(rows)
    requires id1 !in Ids(rows) && id2 !in Ids(rows) && id1 != id2
    ensures var base := match FindExisting(rows, key) case Some(i) => rows[i].fields case None => NoFields;
            var r1 := Reconcile(rows, key, first, id1, t1);
            var r2 := Reconcile(r1.rows, key, second, id2, t2);
            && |r2.rows| == |r1.rows|
            && r2.ownerId == r1.ownerId
            && UniqueRemoteKeys(r2.rows)
            && (exists i :: 0 <= i < |r1.rows| && r1.rows[i].id == r1.ownerId && r1.rows[i].fields == Overlay(base, first))
            && exists i :: 0 <= i < |r2.rows| && KeyOf(r2.rows[i]) == key && r2.rows[i].id == r2.ownerId
                             && r2.rows[i].fields == Overlay(Overlay(base, first), second)
  {
    var base := match FindExisting(rows, key) case Some(i) => rows[i].fields case None => NoFields;
    var r1 := Reconcile(rows, key, first, id1, t1);
    ReconcileKeepsOneRowPerIdentity(rows, key, first, id1, t1);
    var i :| 0 <= i < |r1.rows| && r1.rows[i].id == r1.ownerId && r1.rows[i].fields == Overlay(base, first) by {
      match FindExisting(rows, key)
      case Some(k) =>
        assert r1.rows[k].id == r1.ownerId;
      case None =>
        assert r1.rows[|rows|].id == r1.ownerId;
    }
    assert KeyOf(r1.rows[i]) == key;
    var found := FindExisting(r1.rows, key);
    assert found == Some(i) by {
      assert found.Some?;
      assert r1.rows[found.value].id == r1.ownerId;
      assert forall j :: 0 <= j < i ==> j < |r1.rows| && KeyOf(r1.rows[j]) != key;
    }
    assert id2 !in Ids(r1.rows);
    ReconcileKeepsOneRowPerIdentity(r1.rows, key, second, id2, t2);
    var r2 := Reconcile(r1.rows, key, second, id2, t2);
    assert KeyOf(r2.rows[i]) == key && r2.rows[i].id == r2.ownerId;
  }
}
