/** The checkpoint store: one record per job, kept in a file named after the
    job id. Files are a map from path to slot; a slot that is not valid JSON
    is `Corrupt`. Reading falls back to a fresh `init` record; writing reloads
    the record, overwrites one key and stores the whole record again. */
module Checkpoint {

  /** The four values of the `status` key. */
  datatype Status = Init | Running | Fail | Finish

  /** A checkpoint record: `{chunk_id, status, chunk_position}`. */
  datatype Meta = Meta(chunkId: string, status: Status, chunkPosition: int)

  /** The content of a checkpoint file: a decodable record, or text that is not valid JSON. */
  datatype Slot = Stored(meta: Meta) | Corrupt

  /** The one-key overwrites the runner performs. */
  datatype Write = SetStatus(status: Status) | SetPosition(position: int)

  /** The record a job starts from. */
  function Fresh(chunkId: string): Meta
  {
    Meta(chunkId, Init, 0)
  }

  /** Reading the record at `path` for job `chunkId`. */
  function Load(files: map<string, Slot>, path: string, chunkId: string): (m: Meta)
    ensures path !in files ==> m == Fresh(chunkId)
    ensures path in files && files[path] == Corrupt ==> m == Fresh(chunkId)
    ensures path in files && files[path].Stored? ==> m == files[path].meta
  {
    if path in files && files[path].Stored? then files[path].meta else Fresh(chunkId)
  }

  /** Overwriting one key of a record; the other keys keep their values. */
  function Apply(m: Meta, w: Write): (r: Meta)
    ensures r.chunkId == m.chunkId
    ensures w.SetStatus? ==> r.status == w.status && r.chunkPosition == m.chunkPosition
    ensures w.SetPosition? ==> r.chunkPosition == w.position && r.status == m.status
  {
    match w
    case SetStatus(s) => m.(status := s)
    case SetPosition(p) => m.(chunkPosition := p)
  }

  /** The files after writing key `w` of the record at `path`: the record is
      reloaded (with the fallback), updated and stored whole. */
  function Save(files: map<string, Slot>, path: string, chunkId: string, w: Write): (files': map<string, Slot>)
    ensures path in files' && files'[path].Stored?
    ensures files'[path].meta == Apply(Load(files, path, chunkId), w)
    ensures forall p :: p != path ==> (p in files' <==> p in files)
    ensures forall p :: p != path && p in files ==> files'[p] == files[p]
  {
    files[path := Stored(Apply(Load(files, path, chunkId), w))]
  }

  /** A write followed by a read returns the written key's new value and every
      other key as it was stored (or as the fresh record had it). */
  lemma WriteThenLoad(files: map<string, Slot>, path: string, chunkId: string, w: Write)
    ensures var before := Load(files, path, chunkId);
            var after := Load(Save(files, path, chunkId, w), path, chunkId);
            && after.chunkId == before.chunkId
            && (w.SetStatus? ==> after.status == w.status && after.chunkPosition == before.chunkPosition)
            && (w.SetPosition? ==> after.chunkPosition == w.position && after.status == before.status)
  {
  }

  /** Writing the same key twice keeps only the second value: writes to one
      record are last-writer-wins. */
  lemma {:induction false} LastWriteWins(files: map<string, Slot>, path: string, chunkId: string, w1: Write, w2: Write)
    requires w1.SetStatus? == w2.SetStatus?
    ensures Save(Save(files, path, chunkId, w1), path, chunkId, w2) == Save(files, path, chunkId, w2)
  {
    var m := Load(files, path, chunkId);
    assert Apply(Apply(m, w1), w2) == Apply(m, w2);
  }

  /** A status write and a position write commute: either order leaves the same
      record, so the two separate writes can only disagree if a crash falls
      between them. */
  lemma {:induction false} StatusAndPositionCommute(files: map<string, Slot>, path: string, chunkId: string, s: Status, p: int)
    ensures Save(Save(files, path, chunkId, SetStatus(s)), path, chunkId, SetPosition(p))
         == Save(Save(files, path, chunkId, SetPosition(p)), path, chunkId, SetStatus(s))
  {
    var m := Load(files, path, chunkId);
    assert Apply(Apply(m, SetStatus(s)), SetPosition(p)) == Apply(Apply(m, SetPosition(p)), SetStatus(s));
  }

  /** The file system holding the checkpoint files. It is shared by every
      runner built on it, which is what makes a restart resume. */
  class Store {
    var files: map<string, Slot>

    constructor(files: map<string, Slot>)
      ensures this.files == files
    {
      this.files := files;
    }
  }
}
