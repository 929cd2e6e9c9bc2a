/**
  core/storage/custody.go: can this receiver still produce these exact bytes? The answer is
  computed from the ledger row of the asking device and from what the disk shows while it is asked.
*/
module Custody {
  import opened Wrappers
  import opened Texts
  import opened Naming
  import opened Hashing
  import opened Ledger
  import opened ReceiverRuns
  import opened Guarantees

  /** A hex SHA-256 as it arrived: 64 hexadecimal digits, or anything else. */
  datatype ShaText = BadSha | HexSha(sha: Sha)

  datatype Request = Request(id: string, path: string, size: int, sha: ShaText)

  datatype Reason =
    | NoReason | Unknown | OriginalRemoved | Missing | SizeMismatch | ContentMismatch | Unreadable | BadRequest

  datatype Answer = Answer(id: string, confirmed: bool, reason: Reason)

  datatype FileState = Absent | Irregular | NoAccess | Regular(content: Bytes)

  /** What the disk shows at the two moments a confirmation looks: it may change in between. */
  datatype View = View(stat: Key -> FileState, read: Key -> FileState)

  /** A disk that holds still while it is looked at. */
  function Steady(disk: map<Key, Bytes>): View {
    var show := (k: Key) => if k in disk then Regular(disk[k]) else Absent;
    View(show, show)
  }

  /** `maxCustodyRead`, 1 TiB: no more than this of a file is read. */
  const MAX_READ := 0x100_0000_0000

  function Clip(b: Bytes): Bytes {
    if |b| <= MAX_READ then b else b[..MAX_READ]
  }

  /** `resolve`: the place of a ledger path below the destination directory, unless it escapes. */
  function Resolve(root: Key, rel: string): Option<Key> {
    if rel == "" || rel[0] == '/' then None
    else
      var abs := Walk(root, Split(rel, '/'));
      if abs == root || (root != [] && root < abs) then Some(abs[|root|..]) else None
  }

  function Refusal(id: string, reason: Reason): Answer { Answer(id, false, reason) }

  /** `confirmOne`, but for the trace it leaves in the ledger. */
  function ConfirmOne(files: map<string, Row>, root: Key, view: View, device: string, req: Request): Answer {
    if req.sha.BadSha? || req.path == "" || req.size < 0 then Refusal(req.id, BadRequest)
    else if req.path !in files || files[req.path].device != device then Refusal(req.id, Unknown)
    else
      var row := files[req.path];
      if row.removed then Refusal(req.id, OriginalRemoved)
      else if row.digest.size != req.size then Refusal(req.id, SizeMismatch)
      else
        match Resolve(root, req.path)
        case None => Refusal(req.id, Unknown)
        case Some(key) =>
          match view.stat(key)
          case Absent => Refusal(req.id, Missing)
          case Irregular => Refusal(req.id, Missing)
          case NoAccess => Refusal(req.id, Unreadable)
          case Regular(content) =>
            if |content| != row.digest.size then Refusal(req.id, SizeMismatch)
            else
              match view.read(key)
              case Regular(bytes) =>
                if Sha256(Clip(bytes)) == req.sha.sha then Answer(req.id, true, NoReason)
                else Refusal(req.id, ContentMismatch)
              case _ => Refusal(req.id, Unreadable)
  }

  /** The receiver read exactly these bytes, at the place of an unremoved row of this device. */
  predicate ReadBack(files: map<string, Row>, root: Key, view: View, device: string, path: string, bytes: Bytes) {
    && path in files && files[path].device == device && !files[path].removed && files[path].digest.size == |bytes|
    && Resolve(root, path).Some?
    && var key := Resolve(root, path).value;
       view.read(key).Regular? && Clip(view.read(key).content) == bytes && view.stat(key).Regular? &&
           |view.stat(key).content| == |bytes|
  }

  /** A yes means the asked-for bytes were read back, and nothing else is ever answered with a yes. */
  lemma ConfirmedExactly(files: map<string, Row>, root: Key, view: View, device: string, req: Request, bytes: Bytes)
    requires req.sha == HexSha(Sha256(bytes)) && req.size == |bytes|
    ensures ConfirmOne(files, root, view, device, req).confirmed
      <==> req.path != "" && ReadBack(files, root, view, device, req.path, bytes)
    ensures ConfirmOne(files, root, view, device, req).id == req.id
  {
  }

  /** The request makes sense, and the asking device has a row under its path. */
  predicate Asks(files: map<string, Row>, device: string, req: Request) {
    req.sha.HexSha? && req.path != "" && req.size >= 0 && req.path in files && files[req.path].device == device
  }

  /** Nothing in the ledger speaks against a yes: an unremoved row of this size. */
  predicate Eligible(files: map<string, Row>, device: string, req: Request) {
    Asks(files, device, req) && !files[req.path].removed && files[req.path].digest.size == req.size
  }

  /** It comes down to the disk, and there is a file of the right length to read. */
  predicate FileToRead(files: map<string, Row>, root: Key, view: View, device: string, req: Request) {
    Eligible(files, device, req) && Resolve(root, req.path).Some? &&
    var seen := view.stat(Resolve(root, req.path).value);
    seen.Regular? && |seen.content| == req.size
  }

  predicate NoFile(s: FileState) { s.Absent? || s.Irregular? }

  predicate OtherLength(s: FileState, size: int) { s.Regular? && |s.content| != size }

  predicate OtherBytes(s: FileState, sha: ShaText) { s.Regular? && sha.HexSha? && Clip(s.content) != sha.sha.content }

  /** What each refusal says about the ledger and the disk, and that nothing else is refused that way. */
  lemma RefusalsExactly(files: map<string, Row>, root: Key, view: View, device: string, req: Request)
    ensures var a := ConfirmOne(files, root, view, device, req);
      var key := Resolve(root, req.path);
      && (a.reason == NoReason <==> a.confirmed)
      && (a.reason == BadRequest <==> req.sha.BadSha? || req.path == "" || req.size < 0)
      && (a.reason == OriginalRemoved <==> Asks(files, device, req) && files[req.path].removed)
      && (a.reason == Unknown <==>
         a.reason != BadRequest && (!Asks(files, device, req) || (Eligible(files, device, req) && key.None?)))
      && (a.reason == Missing <==> Eligible(files, device, req) && key.Some? && NoFile(view.stat(key.value)))
      && (a.reason == SizeMismatch <==>
         (Asks(files, device, req) && !files[req.path].removed && files[req.path].digest.size != req.size) ||
         (Eligible(files, device, req) && key.Some? && OtherLength(view.stat(key.value), req.size)))
      && (a.reason == ContentMismatch <==>
         FileToRead(files, root, view, device, req) && OtherBytes(view.read(key.value), req.sha))
      && (a.reason == Unreadable <==>
         Eligible(files, device, req) && key.Some? &&
         (view.stat(key.value).NoAccess? ||
          (FileToRead(files, root, view, device, req) && !view.read(key.value).Regular?)))
  {
    hide Resolve, Clip;
  }

  /** Where a name's path leads: to its place, unless its first component was emptied or there is no room above it. */
  lemma NameResolves(n: Rendered, root: Key)
    requires NameOk(n)
    ensures var path := n.Path();
      path != "" && Resolve(root, path) == if root == [] || path[0] == '/' then None else Some(DiskKey(path))
  {
    hide Walk, NonEmpty;
    var path, file := n.Path(), FileName(n.base, n.ext);
    var parts := Split(path, '/');
    NameHasNoSlash(n);
    KeyOfResult(n);
    assert file != "." && file != "..";
    forall p | p in parts
      ensures p != "." && p != ".."
    {
      assert n.dir != "" ==> p in Split(n.dir, '/') || p == file;
    }
    WalkDown(root, parts);
    assert (root + DiskKey(path))[|root|..] == DiskKey(path);
  }

  /**
    The promise kept, and its bounds: in every run, a device asking about the bytes it committed
    under a path gets a yes exactly when that row's original is not marked as removed, the file is
    no larger than is ever read, and the path is one the receiver will open.
  */
  lemma CommittedRowsConfirm(u: Rules, disk: map<Key, Bytes>, steps: seq<Step>, root: Key, req: Request, bytes: Bytes)
    requires Runs(u, Init(disk), steps) && ApartThroughout(u, Init(disk), steps)
    requires var w := Exec(u, Init(disk), steps);
      req.path in w.files && req.path in w.placed && w.placed[req.path] == bytes &&
          w.files[req.path].digest.size == |bytes|
    requires req.sha == HexSha(Sha256(bytes)) && req.size == |bytes|
    ensures var w := Exec(u, Init(disk), steps);
      req.path != "" &&
      (ConfirmOne(w.files, root, Steady(w.disk), w.files[req.path].device, req).confirmed <==>
        !w.files[req.path].removed && |bytes| <= MAX_READ && root != [] && req.path[0] != '/')
  {
    hide Enabled, Apply, Runs, Exec, Walk, DiskKey, NameOk, Rendered.Path, ApartThroughout, Resolve;
    var w := Exec(u, Init(disk), steps);
    SoundInEveryRun(u, disk, steps);
    CustodyInEveryRun(u, disk, steps);
    NameResolves(w.files[req.path].name, root);
    assert Live(w, req.path) == !w.files[req.path].removed;
  }
}
