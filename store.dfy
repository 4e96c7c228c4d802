/** The document store the job reads and writes: each user is a document,
    a map from field names to values, addressed by the user's id. The only
    write the job performs is a `set(..., merge: true)` of the single field
    `tier`, which replaces the fields it names and keeps all others. */
module Store {
  import opened Tiers

  /** The id of a user document; it both addresses the document and is the
      reference that activity records carry in their `user_id` field. */
  type UserId = string

  type Field = string

  /** The field values the model distinguishes. Floating-point, timestamp,
      array and nested-map values are not part of this model. */
  datatype Value = Null | Bool(b: bool) | Int(i: int) | Str(s: string)

  type Document = map<Field, Value>

  const TierField: Field := "tier"

  /** The fields of a user's document; a document that does not exist yet
      reads as having none. */
  function DocOf(docs: map<UserId, Document>, user: UserId): (d: Document)
    ensures user in docs ==> d == docs[user]
    ensures user !in docs ==> d == map[]
  {
    if user in docs then docs[user] else map[]
  }

  /** Merge semantics of a partial write: the fields of `patch` take their
      new values, every other field of `doc` is kept, and no field is
      removed. */
  function Merge(doc: Document, patch: Document): (r: Document)
    ensures r.Keys == doc.Keys + patch.Keys
    ensures forall f :: f in patch ==> r[f] == patch[f]
    ensures forall f :: f in doc && f !in patch ==> r[f] == doc[f]
  {
    doc + patch
  }

  /** Writing the same patch a second time changes nothing. */
  lemma MergeIdempotent(doc: Document, patch: Document)
    ensures Merge(Merge(doc, patch), patch) == Merge(doc, patch)
  {
  }

  /** The partial document the job writes: `{ tier: new_tier }`. */
  function TierPatch(tier: Tier): (p: Document)
    ensures p.Keys == {TierField}
    ensures p[TierField] == Str(tier.Label())
  {
    map[TierField := Str(tier.Label())]
  }

  /** After the tier write the document carries the new label, and every
      field other than `tier` is present exactly when it was before, with
      the value it had before. */
  lemma TierWriteTouchesOnlyTier(doc: Document, tier: Tier)
    ensures TierField in Merge(doc, TierPatch(tier))
    ensures Merge(doc, TierPatch(tier))[TierField] == Str(tier.Label())
    ensures forall f :: f != TierField ==> (f in Merge(doc, TierPatch(tier)) <==> f in doc)
    ensures forall f :: f != TierField && f in doc ==> Merge(doc, TierPatch(tier))[f] == doc[f]
  {
  }

  /** The users collection, updated in place by merge writes. */
  class UserStore {
    var docs: map<UserId, Document>

    constructor (initial: map<UserId, Document>)
      ensures docs == initial
    {
      docs := initial;
    }

    /** `doc(path).set(patch, merge: true)`: the user's document becomes the
        merge of its old fields with `patch` (it is created if missing);
        every other document is left as it was. */
    method SetMerge(user: UserId, patch: Document)
      modifies this
      ensures docs == old(docs)[user := Merge(DocOf(old(docs), user), patch)]
      ensures forall u :: u != user ==> (u in docs <==> u in old(docs))
      ensures forall u :: u != user && u in old(docs) ==> docs[u] == old(docs)[u]
    {
      docs := docs[user := Merge(DocOf(docs, user), patch)];
    }
  }
}
