/**
  core/outbox: the files a receiver has on offer. Every SQL statement is one function of the table;
  the class runs them, and the lemmas say what no sequence of them can do.
*/
module Outbox {
  import opened Wrappers
  import opened Texts
  import opened Hashing

  type Id = string

  datatype ItemState = Pending | Ready | Claimed | Delivered | Failed

  /** A row of `outbox`. `sha` is None until the file has been hashed. */
  datatype Item = Item(device: string, source: string, size: nat, mtime: int, sha: Option<Sha>, state: ItemState)

  predicate Offerable(i: Item) { (i.state == Ready || i.state == Claimed) && i.sha.Some? }

  // ---- the statements ----

  function Queued(rows: map<Id, Item>, id: Id, device: string, source: string, size: nat): map<Id, Item> {
    rows[id := Item(device, source, size, 0, None, Pending)]
  }

  function Digested(rows: map<Id, Item>, id: Id, sha: Sha, size: nat, mtime: int): map<Id, Item> {
    if id in rows && rows[id].state == Pending
    then rows[id := rows[id].(sha := Some(sha), size := size, mtime := mtime, state := Ready)]
    else rows
  }

  function Broken(rows: map<Id, Item>, id: Id): map<Id, Item> {
    if id in rows then rows[id := rows[id].(state := Failed)] else rows
  }

  function HandedOut(rows: map<Id, Item>, device: string, id: Id): map<Id, Item> {
    if id in rows && rows[id].device == device && rows[id].state == Ready then rows[id := rows[id].(state := Claimed)]
    else rows
  }

  function Acknowledged(rows: map<Id, Item>, device: string, id: Id): map<Id, Item> {
    if id in rows && rows[id].device == device then rows[id := rows[id].(state := Delivered)] else rows
  }

  function Dropped(rows: map<Id, Item>, device: string, id: Id): map<Id, Item> {
    if id in rows && rows[id].device == device then rows - {id} else rows
  }

  function Tidied(rows: map<Id, Item>, device: string): map<Id, Item> {
    map id | id in rows && !(rows[id].device == device && (rows[id].state == Delivered || rows[id].state == Failed)) ::
        rows[id]
  }

  /** What the table offers this device. */
  function Offers(rows: map<Id, Item>, device: string): map<Id, Sha> {
    map id | id in rows && rows[id].device == device && Offerable(rows[id]) :: rows[id].sha.value
  }

  // ---- the queue ----

  /** What reading a source while hashing it came to: nothing usable, or bytes, a size and an mtime. */
  datatype Reading = Unreadable | Changed | Seen(content: Bytes, size: nat, mtime: int)

  /** The source as `Open` finds it: gone, out of reach for now, or there. */
  datatype Source = Gone | Away | There(content: Bytes, mtime: int)

  datatype OpenError = NotFound | NotReady | SourceChanged | Unavailable

  /** `Open` as a function of the table: what it answers and what it writes. */
  function Opened(
      rows: map<Id, Item>, device: string, id: Id, source: Source): (Result<Bytes, OpenError>, map<Id, Item>) {
    if id !in rows || rows[id].device != device then (Err(NotFound), rows)
    else if !Offerable(rows[id]) then (Err(NotReady), rows)
    else
      match source
      case Gone => (Err(SourceChanged), Broken(rows, id))
      case Away => (Err(Unavailable), rows)
      case There(content, mtime) =>
        if |content| != rows[id].size || mtime != rows[id].mtime then (Err(SourceChanged), Broken(rows, id))
        else (Ok(content), rows)
  }

  /** The source has the size and mtime it was hashed at. */
  predicate Unchanged(i: Item, source: Source)
    requires source.There?
  {
    |source.content| == i.size && source.mtime == i.mtime
  }

  function Unhashed(rows: map<Id, Item>): set<Id> {
    set id | id in rows && rows[id].state == Pending
  }

  /** `hash` as a function of the table. */
  function HashedBy(rows: map<Id, Item>, id: Id, r: Reading): map<Id, Item> {
    match r
    case Seen(content, size, mtime) => Digested(rows, id, Sha256(content), size, mtime)
    case _ => Broken(rows, id)
  }

  predicate Untouched(before: map<Id, Item>, after: map<Id, Item>, id: Id) {
    id in before && id in after && after[id] == before[id]
  }

  predicate Worked(before: map<Id, Item>, after: map<Id, Item>, id: Id, r: Reading) {
    id in before && id in after && before[id].state == Pending && after[id].state != Pending &&
        after[id] == HashedBy(before, id, r)[id]
  }

  /** So many rows hashed since the start, each of them as it was read, and the others untouched. */
  predicate Progress(start: map<Id, Item>, rows: map<Id, Item>, readings: Id -> Reading, done: nat) {
    && rows.Keys == start.Keys && done + |Unhashed(rows)| == |Unhashed(start)|
    && forall id | id in rows :: Untouched(start, rows, id) || Worked(start, rows, id, readings(id))
  }

  lemma OneHashed(start: map<Id, Item>, rows: map<Id, Item>, readings: Id -> Reading, done: nat, id: Id)
    requires Progress(start, rows, readings, done) && id in rows && rows[id].state == Pending
    ensures var v := HashedBy(rows, id, readings(id));
      Progress(start, v, readings, done + 1) && |Unhashed(v)| < |Unhashed(rows)|
  {
    var v := HashedBy(rows, id, readings(id));
    assert Unhashed(v) == Unhashed(rows) - {id};
    forall other | other in v
      ensures Untouched(start, v, other) || Worked(start, v, other, readings(other))
    {
      assert Untouched(start, rows, other) || Worked(start, rows, other, readings(other));
    }
  }

  class OutboxQueue {
    var rows: map<Id, Item>

    constructor ()
      ensures rows == map[]
    {
      rows := map[];
    }

    /** `add`: the id is 128 fresh random bits, so it names no row. */
    method AddFile(id: Id, device: string, paired: bool, source: string, size: Option<nat>) returns (ok: bool)
      requires id !in rows
      modifies this
      ensures ok <==> device != "" && paired && size.Some?
      ensures rows == if ok then Queued(old(rows), id, device, source, size.value) else old(rows)
      ensures ok ==>
        rows - {id} == old(rows) && id in rows && rows[id].device == device && rows[id].source == source &&
            rows[id].size == size.value && rows[id].sha == None && rows[id].state == Pending
    {
      if device == "" || !paired || size.None? {
        return false;
      }
      rows := rows[id := Item(device, source, size.value, 0, None, Pending)];
      return true;
    }

    /**
      `HashPending`: until no row is pending. Every row that was pending is ready under the digest of
      what was read, or failed; the others are untouched.
    */
    method HashPending(readings: Id -> Reading) returns (done: nat)
      modifies this
      ensures Unhashed(rows) == {} && done == |Unhashed(old(rows))| && rows.Keys == old(rows).Keys
      ensures forall id | id in rows ::
        if old(rows)[id].state == Pending then rows[id] == HashedBy(old(rows), id, readings(id))[id]
        else rows[id] == old(rows)[id]
      ensures forall id | id in rows && old(rows)[id].state == Pending ::
        rows[id] == match readings(id)
          case Seen(content, size, mtime) =>
            old(rows)[id].(sha := Some(Sha256(content)), size := size, mtime := mtime, state := Ready)
          case _ => old(rows)[id].(state := Failed)
    {
      done := 0;
      while exists id | id in rows :: rows[id].state == Pending
        invariant Progress(old(rows), rows, readings, done)
        decreases |Unhashed(rows)|
      {
        var id :| id in rows && rows[id].state == Pending;
        ghost var before := rows;
        var r := readings(id);
        match r {
          case Seen(content, size, mtime) => rows := Digested(rows, id, Sha256(content), size, mtime);
          case _ => rows := Broken(rows, id);
        }
        OneHashed(old(rows), before, readings, done, id);
        done := done + 1;
      }
      assert Unhashed(rows) == {};
    }

    /**
      `Open`, and `Claim` once the bytes are to be served. A row that was handed out before is served
      again; a source that is out of reach for now changes nothing.
    */
    method Fetch(device: string, id: Id, source: Source) returns (r: Result<Bytes, OpenError>)
      modifies this
      ensures r == Opened(old(rows), device, id, source).0
      ensures rows == if r.Ok? then HandedOut(old(rows), device, id) else Opened(old(rows), device, id, source).1
      ensures r == Err(NotFound) <==> id !in old(rows) || old(rows)[id].device != device
      ensures r == Err(NotReady) <==>
        r != Err(NotFound) && (old(rows)[id].state in {Pending, Delivered, Failed} || old(rows)[id].sha.None?)
      ensures r == Err(Unavailable) <==> r != Err(NotFound) && r != Err(NotReady) && source.Away?
      ensures r == Err(SourceChanged) <==>
        r != Err(NotFound) && r != Err(NotReady) && !source.Away? &&
        !(source.There? && Unchanged(old(rows)[id], source))
      ensures r.Ok? ==>
        source.There? && r.value == source.content && rows == old(rows)[id := old(rows)[id].(state := Claimed)]
      ensures r.Err? ==>
        rows == if r.error == SourceChanged then old(rows)[id := old(rows)[id].(state := Failed)] else old(rows)
    {
      if id !in rows || rows[id].device != device {
        return Err(NotFound);
      }
      if !Offerable(rows[id]) {
        return Err(NotReady);
      }
      if source.Gone? {
        rows := Broken(rows, id);
        return Err(SourceChanged);
      }
      if source.Away? {
        return Err(Unavailable);
      }
      if |source.content| != rows[id].size || source.mtime != rows[id].mtime {
        rows := Broken(rows, id);
        return Err(SourceChanged);
      }
      rows := HandedOut(rows, device, id);
      return Ok(source.content);
    }

    /** `Deliver`: idempotent, and only for a row of the device that asks. */
    method Deliver(device: string, id: Id) returns (found: bool)
      modifies this
      ensures found <==> id in old(rows) && old(rows)[id].device == device
      ensures rows == Acknowledged(old(rows), device, id)
      ensures rows == if found then old(rows)[id := old(rows)[id].(state := Delivered)] else old(rows)
    {
      if id !in rows || rows[id].device != device {
        return false;
      }
      if rows[id].state != Delivered {
        rows := rows[id := rows[id].(state := Delivered)];
      }
      return true;
    }

    method Remove(device: string, id: Id) returns (found: bool)
      modifies this
      ensures found <==> id in old(rows) && old(rows)[id].device == device
      ensures rows == Dropped(old(rows), device, id)
      ensures rows == if found then old(rows) - {id} else old(rows)
    {
      found := id in rows && rows[id].device == device;
      if found {
        rows := rows - {id};
      }
    }

    method Clear(device: string) returns (n: nat)
      modifies this
      ensures rows == Tidied(old(rows), device)
      ensures forall id :: id in rows <==>
        id in old(rows) && !(old(rows)[id].device == device && old(rows)[id].state in {Delivered, Failed})
      ensures forall id | id in rows :: rows[id] == old(rows)[id]
      ensures n == |old(rows)| - |rows|
    {
      var left := Tidied(rows, device);
      FewerRows(rows, left);
      n := |rows| - |left|;
      rows := left;
    }
  }

  lemma FewerRows(rows: map<Id, Item>, left: map<Id, Item>)
    requires left.Keys <= rows.Keys
    ensures |left| <= |rows|
  {
    assert |left.Keys| == |left| && |rows.Keys| == |rows|;
    var rest := rows.Keys - left.Keys;
    assert rows.Keys == left.Keys + rest;
  }

  /**
    A row is served only while its source is as it was when it was hashed, by size and mtime; a
    source that is gone or differs fails the row, which is then on offer to nobody.
  */
  lemma ServesWhatItHashed(rows: map<Id, Item>, id: Id, content: Bytes, mtime: int, device: string, source: Source)
    requires id in rows && rows[id].state == Pending
    ensures var hashed := HashedBy(rows, id, Seen(content, |content|, mtime));
      var (r, after) := Opened(hashed, rows[id].device, id, source);
      && id in Offers(hashed, rows[id].device) && Offers(hashed, rows[id].device)[id] == Sha256(content)
      && (r.Ok? <==> source.There? && |source.content| == |content| && source.mtime == mtime)
      && (r.Ok? ==> after == hashed && r.value == source.content)
      && (r.Err? && !source.Away? ==> id !in Offers(after, device))
      && (device != rows[id].device ==> Opened(hashed, device, id, source) == (Err(NotFound), hashed))
  {
  }
}
