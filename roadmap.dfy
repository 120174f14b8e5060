/**
 * The roadmap controller of src/controllers/roadmap.controller.js over an
 * in-memory `roadmaps` collection: documents by id, each a map of fields.
 * The clock is a parameter `now`, the id Firestore assigns to a new
 * document is a parameter `newId`.
 */
module Roadmap {
  import opened Wrappers
  import opened JsonValue
  import opened Zod
  import RoadmapSchema

  /** The ownership test: both emails are set (truthy) and differ. */
  predicate Forbidden(stored: Doc, body: Json) {
    var owner := if "email" in stored then Some(stored["email"]) else None;
    var requester := BodyField(body, "email");
    Truthy(owner) && Truthy(requester) && StrictlyDiffer(owner.value, requester.value)
  }

  /** The record's owner, a requester that gives no email, or a record without an owner are never refused. */
  lemma OwnerIsNeverForbidden(stored: Doc, body: Json)
    ensures !Truthy(BodyField(body, "email")) ==> !Forbidden(stored, body)
    ensures "email" !in stored || !Truthy(Some(stored["email"])) ==> !Forbidden(stored, body)
    ensures "email" in stored && stored["email"].JStr? && BodyField(body, "email") == Some(stored["email"]) ==>
      !Forbidden(stored, body)
  {
  }

  /** The stored payload of a created roadmap: the parsed data with owner fields from the body when set, and both timestamps. */
  function CreatePayload(data: Doc, body: Json, now: string): (p: Doc)
    ensures Lookup(p, "createdAt") == Some(JStr(now)) && Lookup(p, "updatedAt") == Some(JStr(now))
    ensures Truthy(BodyField(body, "email")) ==> Lookup(p, "email") == BodyField(body, "email")
    ensures !Truthy(BodyField(body, "email")) ==> Lookup(p, "email") == Lookup(data, "email")
    ensures Truthy(BodyField(body, "userId")) ==> Lookup(p, "userId") == BodyField(body, "userId")
    ensures !Truthy(BodyField(body, "userId")) ==> Lookup(p, "userId") == Lookup(data, "userId")
    ensures Truthy(BodyField(body, "name")) ==> Lookup(p, "ownerName") == BodyField(body, "name")
    ensures !Truthy(BodyField(body, "name")) ==> Lookup(p, "ownerName") == Lookup(data, "ownerName")
    ensures forall k :: k != "email" && k != "userId" && k != "ownerName" && k != "createdAt" && k != "updatedAt" ==>
      Lookup(p, k) == Lookup(data, k)
  {
    var p1 := SetField(data, "email", Or(BodyField(body, "email"), Lookup(data, "email")));
    var p2 := SetField(p1, "userId", Or(BodyField(body, "userId"), Lookup(data, "userId")));
    var p3 := SetField(p2, "ownerName", Or(BodyField(body, "name"), Lookup(data, "ownerName")));
    p3["createdAt" := JStr(now)]["updatedAt" := JStr(now)]
  }

  datatype Response = Done(status: nat, data: Doc) | Deleted | Failed(status: nat, error: string)

  class RoadmapStore {
    var docs: map<string, Doc>

    constructor ()
      ensures docs == map[]
    {
      docs := map[];
    }

    /** `createRoadmap`: an invalid body is refused before the store is touched; otherwise one new document. */
    method Create(env: Env, body: Json, now: string, newId: string) returns (r: Response)
      requires newId !in docs
      modifies this
      ensures Parse(env, RoadmapSchema.Roadmap, Some(body)).Fail? ==>
        r == Failed(400, "Invalid payload") && docs == old(docs)
      ensures Parse(env, RoadmapSchema.Roadmap, Some(body)).Ok? ==>
        var data := Parse(env, RoadmapSchema.Roadmap, Some(body)).value.value.fields;
        && docs == old(docs)[newId := CreatePayload(data, body, now)]
        && r == Done(201, WithId(newId, CreatePayload(data, body, now)))
    {
      var parsed := Parse(env, RoadmapSchema.Roadmap, Some(body));
      if parsed.Fail? {
        return Failed(400, "Invalid payload");
      }
      var data := parsed.value.value.fields;
      var payload := CreatePayload(data, body, now);
      docs := docs[newId := payload];
      r := Done(201, WithId(newId, payload));
    }

    /** `listRoadmaps`: with a requester email (body first, then query), only that owner's roadmaps; else all. */
    method List(body: Json, query: Option<Json>) returns (items: map<string, Doc>)
      ensures var email := Or(BodyField(body, "email"), query);
        && (forall id :: id in items <==>
              id in docs && (Truthy(email) ==> "email" in docs[id] && docs[id]["email"] == email.value))
        && (forall id :: id in items ==> items[id] == WithId(id, docs[id]))
    {
      var email := Or(BodyField(body, "email"), query);
      if Truthy(email) {
        items := map id | id in docs && "email" in docs[id] && docs[id]["email"] == email.value :: WithId(id, docs[id]);
      } else {
        items := map id | id in docs :: WithId(id, docs[id]);
      }
    }

    /** `getRoadmap`: 400 without an id, 404 for a missing document, 403 for another owner's. */
    method Get(id: string, body: Json) returns (r: Response)
      ensures r.Failed? && r.status == 400 <==> id == ""
      ensures r.Failed? && r.status == 404 <==> id != "" && id !in docs
      ensures r.Failed? && r.status == 403 <==> id != "" && id in docs && Forbidden(docs[id], body)
      ensures r.Done? <==> id != "" && id in docs && !Forbidden(docs[id], body)
      ensures r.Done? ==> r == Done(200, WithId(id, docs[id]))
    {
      if id == "" {
        return Failed(400, "id is required");
      }
      if id !in docs {
        return Failed(404, "Roadmap not found");
      }
      if Forbidden(docs[id], body) {
        return Failed(403, "Forbidden");
      }
      r := Done(200, WithId(id, docs[id]));
    }

    /**
     * `updateRoadmap`: 400 without an id or for an invalid update (before the
     * store is read), then 404 and 403 as for a read; otherwise the update's
     * fields and a fresh `updatedAt` are merged into that one document.
     */
    method Update(env: Env, id: string, body: Json, now: string) returns (r: Response)
      modifies this
      ensures var parsed := Parse(env, RoadmapSchema.RoadmapUpdate, Some(body));
        && (r == Failed(400, "id is required") <==> id == "")
        && (r == Failed(400, "Invalid payload") <==> id != "" && parsed.Fail?)
        && (r.Failed? && r.status == 404 <==> id != "" && parsed.Ok? && id !in old(docs))
        && (r.Failed? && r.status == 403 <==> id != "" && parsed.Ok? && id in old(docs) && Forbidden(old(docs)[id], body))
        && (r.Done? <==> id != "" && parsed.Ok? && id in old(docs) && !Forbidden(old(docs)[id], body))
      ensures r.Failed? ==> docs == old(docs)
      ensures r.Done? ==>
        var update := Parse(env, RoadmapSchema.RoadmapUpdate, Some(body)).value.value.fields;
        && docs == old(docs)[id := old(docs)[id] + update["updatedAt" := JStr(now)]]
        && r == Done(200, WithId(id, docs[id]))
    {
      if id == "" {
        return Failed(400, "id is required");
      }
      var parsed := Parse(env, RoadmapSchema.RoadmapUpdate, Some(body));
      if parsed.Fail? {
        return Failed(400, "Invalid payload");
      }
      var update := parsed.value.value.fields;
      RoadmapSchema.NoCreatedAt(env, body.fields);
      if "createdAt" in update {
        update := update - {"createdAt"};
      }
      update := update["updatedAt" := JStr(now)];
      if id !in docs {
        return Failed(404, "Roadmap not found");
      }
      if Forbidden(docs[id], body) {
        return Failed(403, "Forbidden");
      }
      docs := docs[id := docs[id] + update];
      r := Done(200, WithId(id, docs[id]));
    }

    /** `deleteRoadmap`: 400, 404 and 403 as for a read; otherwise exactly that document is removed. */
    method Delete(id: string, body: Json) returns (r: Response)
      modifies this
      ensures r.Failed? && r.status == 400 <==> id == ""
      ensures r.Failed? && r.status == 404 <==> id != "" && id !in old(docs)
      ensures r.Failed? && r.status == 403 <==> id != "" && id in old(docs) && Forbidden(old(docs)[id], body)
      ensures r == Deleted <==> id != "" && id in old(docs) && !Forbidden(old(docs)[id], body)
      ensures r == Deleted ==> docs == old(docs) - {id}
      ensures r != Deleted ==> docs == old(docs)
    {
      if id == "" {
        return Failed(400, "id is required");
      }
      if id !in docs {
        return Failed(404, "Roadmap not found");
      }
      if Forbidden(docs[id], body) {
        return Failed(403, "Forbidden");
      }
      docs := docs - {id};
      r := Deleted;
    }
  }

  /** An update keeps the stored creation time, sets `updatedAt`, and leaves untouched every field the update lacks. */
  lemma UpdateKeepsCreatedAt(env: Env, stored: Doc, body: Json, now: string)
    requires Parse(env, RoadmapSchema.RoadmapUpdate, Some(body)).Ok?
    ensures var update := Parse(env, RoadmapSchema.RoadmapUpdate, Some(body)).value.value.fields;
      var merged := stored + update["updatedAt" := JStr(now)];
      && ("createdAt" in stored <==> "createdAt" in merged)
      && ("createdAt" in stored ==> merged["createdAt"] == stored["createdAt"])
      && merged["updatedAt"] == JStr(now)
      && (forall k :: k in stored && k !in update && k != "updatedAt" ==> merged[k] == stored[k])
  {
    var r := Parse(env, RoadmapSchema.RoadmapUpdate, Some(body));
    assert RoadmapSchema.RoadmapUpdate.SObject?;
    assert body.JObj?;
    RoadmapSchema.NoCreatedAt(env, body.fields);
    assert RoadmapSchema.Parsed(env, RoadmapSchema.RoadmapUpdate, body.fields) == Some(r.value.value.fields);
  }

  /** After a successful delete the roadmap reads as missing. */
  method DeleteThenGet(store: RoadmapStore, id: string, body: Json) returns (r: Response)
    modifies store
    ensures id != "" && id in old(store.docs) && !Forbidden(old(store.docs)[id], body) ==>
      r.Failed? && r.status == 404
  {
    var d := store.Delete(id, body);
    r := store.Get(id, body);
  }
}
