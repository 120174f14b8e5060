/**
 * `docRef.set(update, { merge: true })` on a stored document: nested objects
 * are merged key by key, every other value in the update replaces the stored
 * one, and keys the update lacks keep their stored values.
 */
module DocMerge {
  import opened JsonValue

  /** `b` merged onto `a`. */
  function Merge(a: Json, b: Json): (r: Json)
    ensures !(a.JObj? && b.JObj?) ==> r == b
    ensures a.JObj? && b.JObj? ==> r.JObj? && r.fields.Keys == a.fields.Keys + b.fields.Keys
    ensures a.JObj? && b.JObj? ==> forall k :: k in a.fields && k !in b.fields ==> r.fields[k] == a.fields[k]
    ensures a.JObj? && b.JObj? ==> forall k :: k in b.fields && k !in a.fields ==> r.fields[k] == b.fields[k]
    ensures a.JObj? && b.JObj? ==> forall k :: k in b.fields && k in a.fields ==> r.fields[k] == Merge(a.fields[k], b.fields[k])
    decreases b
  {
    if a.JObj? && b.JObj? then
      JObj(map k | k in a.fields.Keys + b.fields.Keys ::
        if k in b.fields then (if k in a.fields then Merge(a.fields[k], b.fields[k]) else b.fields[k])
        else a.fields[k])
    else b
  }

  /** The stored document after a merging write of `update`. */
  function MergeDoc(stored: Doc, update: Doc): (r: Doc)
    ensures r.Keys == stored.Keys + update.Keys
    ensures forall k :: k in stored && k !in update ==> r[k] == stored[k]
    ensures forall k :: k in update && !(k in stored && stored[k].JObj? && update[k].JObj?) ==> r[k] == update[k]
  {
    Merge(JObj(stored), JObj(update)).fields
  }

  /** Merging a value onto itself changes nothing. */
  lemma {:induction false} MergeSelf(b: Json)
    ensures Merge(b, b) == b
    decreases b
  {
    if b.JObj? {
      var r := Merge(b, b);
      forall k | k in b.fields ensures r.fields[k] == b.fields[k] {
        MergeSelf(b.fields[k]);
      }
      assert r.fields == b.fields;
    }
  }

  /** Writing the same update twice leaves the document as writing it once. */
  lemma {:induction false} MergeIdempotent(a: Json, b: Json)
    ensures Merge(Merge(a, b), b) == Merge(a, b)
    decreases b
  {
    var m := Merge(a, b);
    if a.JObj? && b.JObj? {
      var r := Merge(m, b);
      forall k | k in m.fields ensures r.fields[k] == m.fields[k] {
        if k in b.fields {
          if k in a.fields {
            MergeIdempotent(a.fields[k], b.fields[k]);
          } else {
            MergeSelf(b.fields[k]);
          }
        }
      }
      assert r.fields == m.fields;
    } else {
      MergeSelf(b);
    }
  }

  /** An update with no keys leaves a stored document as it is. */
  lemma MergeEmpty(stored: Doc)
    ensures MergeDoc(stored, map[]) == stored
  {
  }

  /** A nested object in the update only adds to or overwrites the stored object's keys; it never removes one. */
  lemma MergeKeepsNested(stored: Doc, update: Doc, k: string, j: string)
    requires k in stored && stored[k].JObj? && k in update && update[k].JObj?
    requires j in stored[k].fields && j !in update[k].fields
    ensures var r := MergeDoc(stored, update);
      r[k].JObj? && j in r[k].fields && r[k].fields[j] == stored[k].fields[j]
  {
  }
}
