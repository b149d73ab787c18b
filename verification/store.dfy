/** Firestore as the handlers use it: a map from document path to a
    document's fields. A path alternates collection and document ids, so a
    document of collection `c` lives at `c + [id]`. */
module Store {
  import opened Values

  type Path = seq<string>
  type Doc = map<string, Value>
  type Db = map<Path, Doc>

  /** `collection(c).document(id)`. */
  function Child(coll: Path, id: string): Path {
    coll + [id]
  }

  /** `q` is a document directly inside collection `coll`. */
  predicate InCollection(q: Path, coll: Path) {
    |q| == |coll| + 1 && q[..|coll|] == coll
  }

  /** What Firestore stores for a written field: the server-time sentinel
      becomes the commit time of the write, anything else is kept. */
  function Stamped(v: Value, commit: DateTime): (r: Value)
    ensures r != ServerTimestamp
    ensures v != ServerTimestamp ==> r == v
  {
    if v == ServerTimestamp then Time(commit) else v
  }

  /** The fields as stored by a write committed at `commit`. */
  function Resolve(fields: Doc, commit: DateTime): (r: Doc)
    ensures r.Keys == fields.Keys
    ensures forall k :: k in fields ==> r[k] == Stamped(fields[k], commit)
  {
    map k | k in fields :: Stamped(fields[k], commit)
  }

  /** A document holding no server-time sentinel, as every document read
      back from Firestore is. */
  predicate Resolved(d: Doc) {
    forall k :: k in d ==> d[k] != ServerTimestamp
  }

  predicate AllResolved(db: Db) {
    forall q :: q in db ==> Resolved(db[q])
  }

  /** `document_ref.set(fields)` committed at `commit`: replaces the document. */
  function Set(db: Db, p: Path, fields: Doc, commit: DateTime): (r: Db)
    ensures r.Keys == db.Keys + {p}
    ensures r[p].Keys == fields.Keys && Resolved(r[p])
    ensures forall k :: k in fields ==> r[p][k] == Stamped(fields[k], commit)
    ensures forall q :: q in db && q != p ==> r[q] == db[q]
  {
    db[p := Resolve(fields, commit)]
  }

  /** `document_ref.update(fields)` committed at `commit`: merges `fields`
      into a document that must exist (Firestore rejects an update of a
      missing document). */
  function Update(db: Db, p: Path, fields: Doc, commit: DateTime): (r: Db)
    requires p in db
    ensures r.Keys == db.Keys
    ensures forall k :: k in fields ==> k in r[p] && r[p][k] == Stamped(fields[k], commit)
    ensures forall k :: k in db[p] && k !in fields ==> k in r[p] && r[p][k] == db[p][k]
    ensures forall k :: k in r[p] ==> k in db[p] || k in fields
    ensures forall q :: q in db && q != p ==> r[q] == db[q]
  {
    db[p := db[p] + Resolve(fields, commit)]
  }

  /** `document_ref.set(fields, merge=True)` committed at `commit`: an
      update that also creates. */
  function SetMerge(db: Db, p: Path, fields: Doc, commit: DateTime): (r: Db)
    ensures r.Keys == db.Keys + {p}
    ensures forall k :: k in fields ==> k in r[p] && r[p][k] == Stamped(fields[k], commit)
    ensures p in db ==> forall k :: k in db[p] && k !in fields ==> k in r[p] && r[p][k] == db[p][k]
    ensures forall k :: k in r[p] ==> (p in db && k in db[p]) || k in fields
    ensures forall q :: q in db && q != p ==> r[q] == db[q]
  {
    if p in db then db[p := db[p] + Resolve(fields, commit)] else db[p := Resolve(fields, commit)]
  }

  /** No write leaves a sentinel behind: a store holding none keeps
      holding none, whatever the written fields hold. */
  lemma WritesResolve(db: Db, p: Path, fields: Doc, commit: DateTime)
    requires AllResolved(db)
    ensures AllResolved(Set(db, p, fields, commit))
    ensures AllResolved(SetMerge(db, p, fields, commit))
    ensures p in db ==> AllResolved(Update(db, p, fields, commit))
  {
  }

  /** Deletes every document directly inside `coll`, as a loop over
      `collection.get()` calling `reference.delete()` on each does. */
  function DeleteCollection(db: Db, coll: Path): (r: Db)
    ensures forall q :: q in r <==> q in db && !InCollection(q, coll)
    ensures forall q :: q in r ==> r[q] == db[q]
  {
    map q | q in db && !InCollection(q, coll) :: db[q]
  }

  /** `snap` is what `collection(coll).stream()` yields: every document of
      the collection exactly once, as an (id, fields) pair, in the store's
      order (which the handlers do not control and the model does not fix). */
  predicate IsListing(db: Db, coll: Path, snap: seq<(string, Doc)>) {
    && (forall i | 0 <= i < |snap| :: Child(coll, snap[i].0) in db && db[Child(coll, snap[i].0)] == snap[i].1)
    && (forall i, j | 0 <= i < j < |snap| :: snap[i].0 != snap[j].0)
    && (forall q | q in db && InCollection(q, coll) :: exists i | 0 <= i < |snap| :: Child(coll, snap[i].0) == q)
  }
}
