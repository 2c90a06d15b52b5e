/** Resizing storage (`sys_storage_resize`). */
module StorageResize {
  import opened Text
  import opened StorageLayout
  import opened StorageCreate

  datatype Direction = Shrink | Grow

  datatype Request = Request(id: string, path: string, newSize: nat, dir: Direction)

  /** What one request comes to for one configured entry or group, in visiting order. */
  datatype Task =
    | RunTool(args: seq<string>)
    | Unsupported(why: string)
    | NotFound(path: string)

  function ResizeArgs(path: string, r: Request): seq<string> {
    ["resize"] + (if r.dir.Shrink? then ["--shrink"] else []) + [path, Decimal(r.newSize)]
  }

  const BLOCK_WHY := "host block storage cannot be resized by qemu-img"
  const ISO_WHY := "ISO storage cannot be resized"

  function DiskTasks(home: Home, files: seq<DiskFile>, r: Request): seq<Task> {
    if files == [] then []
    else (if files[0].disk.id == r.id then [RunTool(ResizeArgs(DiskPath(home, files[0]), r))] else [])
         + DiskTasks(home, files[1..], r)
  }

  function OverlayTasks(home: Home, images: seq<CloudFile>, r: Request): seq<Task> {
    if images == [] then []
    else (if images[0].image.id == r.id then [RunTool(ResizeArgs(OverlayPath(home, images[0].image), r))] else [])
         + OverlayTasks(home, images[1..], r)
  }

  /** One task per matching image; one for a block or ISO group with any match. */
  function GroupTasks(home: Home, s: Storage, r: Request): seq<Task> {
    match s
    case DiskFiles(files) => DiskTasks(home, files, r)
    case HostBlock(devices) => if exists d :: d in devices && d.id == r.id then [Unsupported(BLOCK_WHY)] else []
    case Isos(isos) => if exists i :: i in isos && i.id == r.id then [Unsupported(ISO_WHY)] else []
    case CloudImages(images) => OverlayTasks(home, images, r)
  }

  function Matched(home: Home, storage: seq<Storage>, r: Request): seq<Task> {
    if storage == [] then [] else GroupTasks(home, storage[0], r) + Matched(home, storage[1..], r)
  }

  function RequestTasks(home: Home, storage: seq<Storage>, r: Request): seq<Task> {
    if Matched(home, storage, r) == [] then [NotFound(r.path)] else Matched(home, storage, r)
  }

  /** The flat list of tasks: request by request, in configuration order. */
  function Tasks(home: Home, storage: seq<Storage>, requests: seq<Request>): seq<Task> {
    if requests == [] then [] else RequestTasks(home, storage, requests[0]) + Tasks(home, storage, requests[1..])
  }

  /** Tool runs so far, with the errors reported. */
  datatype Log = Log(runs: seq<seq<string>>, errors: seq<StorageError>)

  function Perform(faults: Faults, log: Log, t: Task): Log {
    match t
    case RunTool(args) =>
      Log(log.runs + [args], log.errors + if faults(|log.runs|).Fine? then [] else [CommandRan])
    case Unsupported(why) => log.(errors := log.errors + [UnsupportedStorage(why)])
    case NotFound(path) => log.(errors := log.errors + [FileNotFound(path)])
  }

  function PerformAll(faults: Faults, log: Log, tasks: seq<Task>): Log
    decreases |tasks|
  {
    if tasks == [] then log else PerformAll(faults, Perform(faults, log, tasks[0]), tasks[1..])
  }

  lemma {:induction false} PerformConcat(faults: Faults, log: Log, a: seq<Task>, b: seq<Task>)
    ensures PerformAll(faults, log, a + b) == PerformAll(faults, PerformAll(faults, log, a), b)
    decreases |a|
  {
    if a == [] {
      assert a + b == b;
    } else {
      PerformConcat(faults, Perform(faults, log, a[0]), a[1..], b);
      assert (a + b)[0] == a[0] && (a + b)[1..] == a[1..] + b;
    }
  }

  method Resize(faults: Faults, log: Log, path: string, r: Request) returns (l: Log)
    ensures l == Perform(faults, log, RunTool(ResizeArgs(path, r)))
  {
    var args := ["resize"];
    if r.dir.Shrink? {
      args := args + ["--shrink"];
    }
    args := args + [path, Decimal(r.newSize)];
    assert args == ResizeArgs(path, r);
    var failed := !faults(|log.runs|).Fine?;
    l := Log(log.runs + [args], log.errors + if failed then [CommandRan] else []);
  }

  method ResizeDisks(home: Home, faults: Faults, log0: Log, files: seq<DiskFile>, r: Request)
    returns (log: Log, found: bool)
    ensures log == PerformAll(faults, log0, DiskTasks(home, files, r))
    ensures found <==> DiskTasks(home, files, r) != []
  {
    log, found := log0, false;
    assert files[0..] == files;
    for i := 0 to |files|
      invariant PerformAll(faults, log0, DiskTasks(home, files, r))
          == PerformAll(faults, log, DiskTasks(home, files[i..], r))
      invariant DiskTasks(home, files, r) != [] <==> found || DiskTasks(home, files[i..], r) != []
    {
      assert files[i..][1..] == files[i + 1..];
      if files[i].disk.id != r.id {
        assert DiskTasks(home, files[i..], r) == DiskTasks(home, files[i + 1..], r);
        continue;
      }
      found := true;
      ghost var tasks := DiskTasks(home, files[i..], r);
      assert tasks[1..] == DiskTasks(home, files[i + 1..], r);
      log := Resize(faults, log, DiskPath(home, files[i]), r);
    }
  }

  method ResizeOverlays(home: Home, faults: Faults, log0: Log, images: seq<CloudFile>, r: Request)
    returns (log: Log, found: bool)
    ensures log == PerformAll(faults, log0, OverlayTasks(home, images, r))
    ensures found <==> OverlayTasks(home, images, r) != []
  {
    log, found := log0, false;
    assert images[0..] == images;
    for i := 0 to |images|
      invariant PerformAll(faults, log0, OverlayTasks(home, images, r))
          == PerformAll(faults, log, OverlayTasks(home, images[i..], r))
      invariant OverlayTasks(home, images, r) != [] <==> found || OverlayTasks(home, images[i..], r) != []
    {
      assert images[i..][1..] == images[i + 1..];
      if images[i].image.id != r.id {
        assert OverlayTasks(home, images[i..], r) == OverlayTasks(home, images[i + 1..], r);
        continue;
      }
      found := true;
      ghost var tasks := OverlayTasks(home, images[i..], r);
      assert tasks[1..] == OverlayTasks(home, images[i + 1..], r);
      log := Resize(faults, log, OverlayPath(home, images[i].image), r);
    }
  }

  method ResizeGroup(home: Home, faults: Faults, log0: Log, s: Storage, r: Request) returns (log: Log, found: bool)
    ensures log == PerformAll(faults, log0, GroupTasks(home, s, r))
    ensures found <==> GroupTasks(home, s, r) != []
  {
    match s {
      case DiskFiles(files) => log, found := ResizeDisks(home, faults, log0, files, r);
      case CloudImages(images) => log, found := ResizeOverlays(home, faults, log0, images, r);
      case HostBlock(devices) =>
        found := exists d :: d in devices && d.id == r.id;
        log := if found then Log(log0.runs, log0.errors + [UnsupportedStorage(BLOCK_WHY)]) else log0;
        assert [Unsupported(BLOCK_WHY)][1..] == [];
      case Isos(isos) =>
        found := exists i :: i in isos && i.id == r.id;
        log := if found then Log(log0.runs, log0.errors + [UnsupportedStorage(ISO_WHY)]) else log0;
        assert [Unsupported(ISO_WHY)][1..] == [];
    }
  }

  /** The loops over requests, groups and entries perform exactly the flat task list, in
      order: every matching image is resized, whatever failed before it. */
  method SysStorageResize(home: Home, storage: seq<Storage>, faults: Faults, requests: seq<Request>) returns (log: Log)
    ensures log == PerformAll(faults, Log([], []), Tasks(home, storage, requests))
  {
    log := Log([], []);
    ghost var all := PerformAll(faults, log, Tasks(home, storage, requests));
    assert requests[0..] == requests;
    for k := 0 to |requests|
      invariant all == PerformAll(faults, log, Tasks(home, storage, requests[k..]))
    {
      var r := requests[k];
      assert requests[k..][1..] == requests[k + 1..];
      PerformConcat(faults, log, RequestTasks(home, storage, r), Tasks(home, storage, requests[k + 1..]));
      ghost var log0 := log;
      var found := false;
      assert storage[0..] == storage;
      for g := 0 to |storage|
        invariant PerformAll(faults, log0, Matched(home, storage, r))
            == PerformAll(faults, log, Matched(home, storage[g..], r))
        invariant Matched(home, storage, r) != [] <==> found || Matched(home, storage[g..], r) != []
        invariant !found ==> log == log0
      {
        assert storage[g..][1..] == storage[g + 1..];
        PerformConcat(faults, log, GroupTasks(home, storage[g], r), Matched(home, storage[g + 1..], r));
        var hit;
        log, hit := ResizeGroup(home, faults, log, storage[g], r);
        found := found || hit;
      }
      if !found {
        log := Log(log.runs, log.errors + [FileNotFound(r.path)]);
        assert [NotFound(r.path)][1..] == [];
      }
    }
  }

  // What the result says.

  /** Every task is a tool run and succeeds; `k` is the number of the first run. */
  predicate AllSucceed(faults: Faults, k: nat, tasks: seq<Task>)
    decreases |tasks|
  {
    tasks == [] || (tasks[0].RunTool? && faults(k).Fine? && AllSucceed(faults, k + 1, tasks[1..]))
  }

  lemma {:induction false} ErrorsOnlyGrow(faults: Faults, log: Log, tasks: seq<Task>)
    ensures |log.errors| <= |PerformAll(faults, log, tasks).errors|
    decreases |tasks|
  {
    if tasks != [] {
      ErrorsOnlyGrow(faults, Perform(faults, log, tasks[0]), tasks[1..]);
    }
  }

  lemma {:induction false} NoErrorExactly(faults: Faults, log: Log, tasks: seq<Task>)
    requires log.errors == []
    ensures PerformAll(faults, log, tasks).errors == [] <==> AllSucceed(faults, |log.runs|, tasks)
    decreases |tasks|
  {
    if tasks != [] {
      var log1 := Perform(faults, log, tasks[0]);
      if log1.errors == [] {
        NoErrorExactly(faults, log1, tasks[1..]);
      } else {
        ErrorsOnlyGrow(faults, log1, tasks[1..]);
      }
    }
  }

  lemma {:induction false} AllSucceedByIndex(faults: Faults, k: nat, tasks: seq<Task>)
    ensures AllSucceed(faults, k, tasks)
            <==> (forall t | t in tasks :: t.RunTool?) && forall i | k <= i < k + |tasks| :: faults(i).Fine?
    decreases |tasks|
  {
    if tasks != [] {
      AllSucceedByIndex(faults, k + 1, tasks[1..]);
      assert forall t | t in tasks :: t == tasks[0] || t in tasks[1..];
      assert forall t | t in tasks[1..] :: t in tasks;
      assert tasks[0] in tasks;
    }
  }

  lemma AllInConcat(a: seq<Task>, b: seq<Task>)
    ensures (forall t | t in a + b :: t.RunTool?)
        <==> (forall t | t in a :: t.RunTool?) && (forall t | t in b :: t.RunTool?)
  {
    assert forall t | t in a :: t in a + b;
    assert forall t | t in b :: t in a + b;
  }

  /** The request matched something, and only entries the tool can resize. */
  predicate OnlyResizable(home: Home, storage: seq<Storage>, r: Request) {
    Matched(home, storage, r) != [] && forall t | t in Matched(home, storage, r) :: t.RunTool?
  }

  lemma RequestRunsTool(home: Home, storage: seq<Storage>, r: Request)
    ensures (forall t | t in RequestTasks(home, storage, r) :: t.RunTool?) <==> OnlyResizable(home, storage, r)
  {
    if Matched(home, storage, r) == [] {
      assert NotFound(r.path) in RequestTasks(home, storage, r);
    }
  }

  lemma {:induction false} AllRunTool(home: Home, storage: seq<Storage>, requests: seq<Request>)
    ensures (forall t | t in Tasks(home, storage, requests) :: t.RunTool?)
            <==> forall r | r in requests :: OnlyResizable(home, storage, r)
  {
    if requests != [] {
      RequestRunsTool(home, storage, requests[0]);
      AllRunTool(home, storage, requests[1..]);
      AllInConcat(RequestTasks(home, storage, requests[0]), Tasks(home, storage, requests[1..]));
      assert requests == [requests[0]] + requests[1..];
    }
  }

  // Which images are resized.

  datatype ImageEntry = ImageEntry(id: string, path: string)

  function GroupImages(home: Home, s: Storage): seq<ImageEntry> {
    match s
    case DiskFiles(files) =>
      seq(|files|, i requires 0 <= i < |files| => ImageEntry(files[i].disk.id, DiskPath(home, files[i])))
    case CloudImages(images) =>
      seq(|images|, i requires 0 <= i < |images| => ImageEntry(images[i].image.id, OverlayPath(home, images[i].image)))
    case _ => []
  }

  /** The configured images that can be resized, in order. */
  function Images(home: Home, storage: seq<Storage>): seq<ImageEntry> {
    if storage == [] then [] else GroupImages(home, storage[0]) + Images(home, storage[1..])
  }

  /** A block device or an ISO has this id. */
  predicate BlockOrIsoNamed(s: Storage, id: string) {
    (s.HostBlock? && exists d :: d in s.devices && d.id == id) || (s.Isos? && exists i :: i in s.isos && i.id == id)
  }

  /** The runs of the image tool, in order. */
  function ToolRuns(tasks: seq<Task>): seq<seq<string>> {
    if tasks == [] then []
    else (if tasks[0].RunTool? then [tasks[0].args] else []) + ToolRuns(tasks[1..])
  }

  /** The tool is asked to bring this image to the requested size, shrinking it only if that was
      asked for. */
  predicate IsResize(args: seq<string>, path: string, r: Request) {
    args == if r.dir == Shrink then ["resize", "--shrink", path, Decimal(r.newSize)]
            else ["resize", path, Decimal(r.newSize)]
  }

  predicate Increasing(ks: seq<nat>) { forall a, b | 0 <= a < b < |ks| :: ks[a] < ks[b] }

  /** Each run resizes the image at its index, which has the requested id. */
  predicate ResizesAt(runs: seq<seq<string>>, images: seq<ImageEntry>, r: Request, ks: seq<nat>) {
    |ks| == |runs|
    && forall j | 0 <= j < |ks| ::
         ks[j] < |images| && images[ks[j]].id == r.id && IsResize(runs[j], images[ks[j]].path, r)
  }

  /** Every image with the id is among them. */
  predicate MissesNone(images: seq<ImageEntry>, id: string, ks: seq<nat>) {
    forall k | 0 <= k < |images| && images[k].id == id :: k in ks
  }

  /** The runs are, in order and each once, those on the images at `ks`: all that have the requested
      id and no others. */
  predicate Selects(runs: seq<seq<string>>, images: seq<ImageEntry>, r: Request, ks: seq<nat>) {
    Increasing(ks) && ResizesAt(runs, images, r, ks) && MissesNone(images, r.id, ks)
  }

  function Shifted(ks: seq<nat>, n: nat): seq<nat> {
    seq(|ks|, j requires 0 <= j < |ks| => ks[j] + n)
  }

  lemma MissesNoneConcat(images: seq<ImageEntry>, more: seq<ImageEntry>, id: string, ks: seq<nat>, moreKs: seq<nat>)
    requires MissesNone(images, id, ks) && MissesNone(more, id, moreKs)
    ensures MissesNone(images + more, id, ks + Shifted(moreKs, |images|))
  {
    var n, shifted := |images|, Shifted(moreKs, |images|);
    forall k | 0 <= k < |images + more| && (images + more)[k].id == id ensures k in ks + shifted {
      if k >= n {
        assert more[k - n].id == id;
        var j :| 0 <= j < |moreKs| && moreKs[j] == k - n;
        assert shifted[j] == k;
      } else {
        assert images[k].id == id;
      }
    }
  }

  lemma IncreasingConcat(ks: seq<nat>, moreKs: seq<nat>, n: nat)
    requires Increasing(ks) && Increasing(moreKs) && forall k | k in ks :: k < n
    ensures Increasing(ks + Shifted(moreKs, n))
  {
    var all := ks + Shifted(moreKs, n);
    forall a, b | 0 <= a < b < |all| ensures all[a] < all[b] {
      if b < |ks| {
        assert all[a] == ks[a] && all[b] == ks[b];
      } else if a < |ks| {
        assert all[a] == ks[a] && ks[a] in ks && all[b] == moreKs[b - |ks|] + n;
      } else {
        assert all[a] == moreKs[a - |ks|] + n && all[b] == moreKs[b - |ks|] + n;
      }
    }
  }

  lemma ResizesAtConcat(runs: seq<seq<string>>, images: seq<ImageEntry>, ks: seq<nat>,
                        moreRuns: seq<seq<string>>, moreImages: seq<ImageEntry>, moreKs: seq<nat>, r: Request)
    requires ResizesAt(runs, images, r, ks) && ResizesAt(moreRuns, moreImages, r, moreKs)
    ensures ResizesAt(runs + moreRuns, images + moreImages, r, ks + Shifted(moreKs, |images|))
  {
    var all := ks + Shifted(moreKs, |images|);
    forall j | 0 <= j < |all|
      ensures all[j] < |images + moreImages| && (images + moreImages)[all[j]].id == r.id
      ensures IsResize((runs + moreRuns)[j], (images + moreImages)[all[j]].path, r)
    {
      if j < |ks| {
        assert all[j] == ks[j] && (images + moreImages)[ks[j]] == images[ks[j]];
      } else {
        var k := j - |ks|;
        assert all[j] == moreKs[k] + |images| && (images + moreImages)[all[j]] == moreImages[moreKs[k]];
        assert (runs + moreRuns)[j] == moreRuns[k];
      }
    }
  }

  lemma SelectsConcat(runs: seq<seq<string>>, images: seq<ImageEntry>, ks: seq<nat>,
                      moreRuns: seq<seq<string>>, moreImages: seq<ImageEntry>, moreKs: seq<nat>, r: Request)
      returns (all: seq<nat>)
    requires Selects(runs, images, r, ks) && Selects(moreRuns, moreImages, r, moreKs)
    ensures Selects(runs + moreRuns, images + moreImages, r, all)
  {
    all := ks + Shifted(moreKs, |images|);
    MissesNoneConcat(images, moreImages, r.id, ks, moreKs);
    IncreasingConcat(ks, moreKs, |images|);
    ResizesAtConcat(runs, images, ks, moreRuns, moreImages, moreKs, r);
  }

  lemma {:induction false} ToolRunsConcat(a: seq<Task>, b: seq<Task>)
    ensures ToolRuns(a + b) == ToolRuns(a) + ToolRuns(b)
  {
    if a == [] {
      assert a + b == b;
    } else {
      ToolRunsConcat(a[1..], b);
      assert (a + b)[1..] == a[1..] + b;
    }
  }

  /** One image: resized if it has the id. */
  lemma OneSelects(image: ImageEntry, r: Request, tasks: seq<Task>) returns (ks: seq<nat>)
    requires tasks == if image.id == r.id then [RunTool(ResizeArgs(image.path, r))] else []
    ensures Selects(ToolRuns(tasks), [image], r, ks)
  {
    ks := if image.id == r.id then [0] else [];
    assert image.id == r.id ==> tasks[1..] == [];
  }

  lemma {:induction false} DisksSelect(home: Home, files: seq<DiskFile>, r: Request) returns (ks: seq<nat>)
    ensures Selects(ToolRuns(DiskTasks(home, files, r)), GroupImages(home, DiskFiles(files)), r, ks)
  {
    if files == [] {
      ks := [];
    } else {
      var image := ImageEntry(files[0].disk.id, DiskPath(home, files[0]));
      var head := if files[0].disk.id == r.id then [RunTool(ResizeArgs(image.path, r))] else [];
      var first := OneSelects(image, r, head);
      var rest := DisksSelect(home, files[1..], r);
      ks := SelectsConcat(ToolRuns(head), [image], first, ToolRuns(DiskTasks(home, files[1..], r)),
                          GroupImages(home, DiskFiles(files[1..])), rest, r);
      ToolRunsConcat(head, DiskTasks(home, files[1..], r));
      assert [image] + GroupImages(home, DiskFiles(files[1..])) == GroupImages(home, DiskFiles(files));
    }
  }

  lemma {:induction false} OverlaysSelect(home: Home, images: seq<CloudFile>, r: Request) returns (ks: seq<nat>)
    ensures Selects(ToolRuns(OverlayTasks(home, images, r)), GroupImages(home, CloudImages(images)), r, ks)
  {
    if images == [] {
      ks := [];
    } else {
      var image := ImageEntry(images[0].image.id, OverlayPath(home, images[0].image));
      var head := if images[0].image.id == r.id then [RunTool(ResizeArgs(image.path, r))] else [];
      var first := OneSelects(image, r, head);
      var rest := OverlaysSelect(home, images[1..], r);
      ks := SelectsConcat(ToolRuns(head), [image], first, ToolRuns(OverlayTasks(home, images[1..], r)),
                          GroupImages(home, CloudImages(images[1..])), rest, r);
      ToolRunsConcat(head, OverlayTasks(home, images[1..], r));
      assert [image] + GroupImages(home, CloudImages(images[1..])) == GroupImages(home, CloudImages(images));
    }
  }

  lemma GroupSelects(home: Home, s: Storage, r: Request) returns (ks: seq<nat>)
    ensures Selects(ToolRuns(GroupTasks(home, s, r)), GroupImages(home, s), r, ks)
  {
    match s
    case DiskFiles(files) => ks := DisksSelect(home, files, r);
    case CloudImages(images) => ks := OverlaysSelect(home, images, r);
    case _ =>
      ks := [];
      assert |GroupTasks(home, s, r)| <= 1 && forall t | t in GroupTasks(home, s, r) :: !t.RunTool?;
  }

  /** A request runs the tool on exactly the configured disks and overlays that have its id, in
      order and each once, whatever else has that id. */
  lemma {:induction false} MatchedSelects(home: Home, storage: seq<Storage>, r: Request) returns (ks: seq<nat>)
    ensures Selects(ToolRuns(Matched(home, storage, r)), Images(home, storage), r, ks)
  {
    if storage == [] {
      ks := [];
    } else {
      var first := GroupSelects(home, storage[0], r);
      var rest := MatchedSelects(home, storage[1..], r);
      ks := SelectsConcat(ToolRuns(GroupTasks(home, storage[0], r)), GroupImages(home, storage[0]), first,
                          ToolRuns(Matched(home, storage[1..], r)), Images(home, storage[1..]), rest, r);
      ToolRunsConcat(GroupTasks(home, storage[0], r), Matched(home, storage[1..], r));
    }
  }

  lemma RequestSelects(home: Home, storage: seq<Storage>, r: Request) returns (ks: seq<nat>)
    ensures Selects(ToolRuns(RequestTasks(home, storage, r)), Images(home, storage), r, ks)
  {
    ks := MatchedSelects(home, storage, r);
    if Matched(home, storage, r) == [] {
      assert RequestTasks(home, storage, r)[1..] == [];
    }
  }

  /** The other tasks of a request: one unsupported error for each block or ISO group that has the id,
      in order, and a not-found error if nothing at all has it. */
  function Refusals(tasks: seq<Task>): seq<Task> {
    if tasks == [] then [] else (if tasks[0].RunTool? then [] else [tasks[0]]) + Refusals(tasks[1..])
  }

  lemma {:induction false} RefusalsConcat(a: seq<Task>, b: seq<Task>)
    ensures Refusals(a + b) == Refusals(a) + Refusals(b)
  {
    if a == [] {
      assert a + b == b;
    } else {
      RefusalsConcat(a[1..], b);
      assert (a + b)[1..] == a[1..] + b;
    }
  }

  lemma {:induction false} NoRefusals(tasks: seq<Task>)
    requires forall t | t in tasks :: t.RunTool?
    ensures Refusals(tasks) == []
  {
    if tasks != [] {
      NoRefusals(tasks[1..]);
    }
  }

  lemma {:induction false} ImageTasksRun(home: Home, s: Storage, r: Request)
    requires s.DiskFiles? || s.CloudImages?
    ensures forall t | t in GroupTasks(home, s, r) :: t.RunTool?
    decreases GroupSize(s)
  {
    if GroupSize(s) > 0 {
      match s
      case DiskFiles(files) => ImageTasksRun(home, DiskFiles(files[1..]), r);
      case CloudImages(images) => ImageTasksRun(home, CloudImages(images[1..]), r);
    }
  }

  lemma GroupRefuses(home: Home, s: Storage, r: Request)
    ensures Refusals(GroupTasks(home, s, r))
            == if !BlockOrIsoNamed(s, r.id) then []
               else if s.HostBlock? then [Unsupported("host block storage cannot be resized by qemu-img")]
               else [Unsupported("ISO storage cannot be resized")]
  {
    if s.DiskFiles? || s.CloudImages? {
      ImageTasksRun(home, s, r);
      NoRefusals(GroupTasks(home, s, r));
    } else if GroupTasks(home, s, r) != [] {
      assert GroupTasks(home, s, r)[1..] == [];
    }
  }

  /** Refusals group by group. */
  lemma RequestRefuses(home: Home, front: seq<Storage>, s: Storage, r: Request)
    ensures Refusals(Matched(home, front + [s], r))
            == Refusals(Matched(home, front, r))
               + (if !BlockOrIsoNamed(s, r.id) then []
                  else if s.HostBlock? then [Unsupported("host block storage cannot be resized by qemu-img")]
                  else [Unsupported("ISO storage cannot be resized")])
  {
    MatchedSnoc(home, front, s, r);
    RefusalsConcat(Matched(home, front, r), GroupTasks(home, s, r));
    GroupRefuses(home, s, r);
  }

  lemma {:induction false} MatchedSnoc(home: Home, front: seq<Storage>, s: Storage, r: Request)
    ensures Matched(home, front + [s], r) == Matched(home, front, r) + GroupTasks(home, s, r)
  {
    var all := front + [s];
    if front == [] {
      assert all[1..] == [];
    } else {
      MatchedSnoc(home, front[1..], s, r);
      assert all[1..] == front[1..] + [s];
    }
  }

  /** Something of the group has the id. */
  predicate GroupNames(home: Home, s: Storage, id: string) {
    BlockOrIsoNamed(s, id) || exists e :: e in GroupImages(home, s) && e.id == id
  }

  lemma {:induction false} RunsOfImages(tasks: seq<Task>)
    requires forall t | t in tasks :: t.RunTool?
    ensures |ToolRuns(tasks)| == |tasks|
  {
    if tasks != [] {
      RunsOfImages(tasks[1..]);
    }
  }

  lemma SelectsSomeExactly(runs: seq<seq<string>>, images: seq<ImageEntry>, r: Request, ks: seq<nat>)
    requires Selects(runs, images, r, ks)
    ensures runs != [] <==> exists e :: e in images && e.id == r.id
  {
    if runs != [] {
      assert images[ks[0]] in images;
    }
    if e :| e in images && e.id == r.id {
      var k :| 0 <= k < |images| && images[k] == e;
      assert k in ks;
    }
  }

  lemma GroupMatchesExactly(home: Home, s: Storage, r: Request)
    ensures GroupTasks(home, s, r) != [] <==> GroupNames(home, s, r.id)
    ensures (exists t :: t in GroupTasks(home, s, r) && !t.RunTool?) <==> BlockOrIsoNamed(s, r.id)
  {
    var tasks := GroupTasks(home, s, r);
    if s.DiskFiles? || s.CloudImages? {
      var ks := GroupSelects(home, s, r);
      ImageTasksRun(home, s, r);
      RunsOfImages(tasks);
      SelectsSomeExactly(ToolRuns(tasks), GroupImages(home, s), r, ks);
    } else if tasks != [] {
      assert tasks[0] in tasks;
    }
  }

  lemma {:induction false} ImagesOfGroups(home: Home, storage: seq<Storage>, e: ImageEntry)
    ensures e in Images(home, storage) <==> exists s :: s in storage && e in GroupImages(home, s)
  {
    if storage != [] {
      ImagesOfGroups(home, storage[1..], e);
      assert storage == [storage[0]] + storage[1..];
    }
  }

  /** Some configured disk or overlay has the id. */
  predicate ImageNamed(home: Home, storage: seq<Storage>, id: string) {
    exists e :: e in Images(home, storage) && e.id == id
  }

  /** A request can be carried out if and only if some disk or overlay has its id and no block device
      or ISO does. */
  lemma OnlyResizableExactly(home: Home, storage: seq<Storage>, r: Request)
    ensures OnlyResizable(home, storage, r)
            <==> ImageNamed(home, storage, r.id) && forall s | s in storage :: !BlockOrIsoNamed(s, r.id)
  {
    MatchedExactly(home, storage, r);
    if ImageNamed(home, storage, r.id) {
      var e :| e in Images(home, storage) && e.id == r.id;
      ImagesOfGroups(home, storage, e);
      var s :| s in storage && e in GroupImages(home, s);
      assert GroupNames(home, s, r.id);
    }
    if OnlyResizable(home, storage, r) {
      var s :| s in storage && GroupNames(home, s, r.id);
      var e :| e in GroupImages(home, s) && e.id == r.id;
      ImagesOfGroups(home, storage, e);
    }
  }

  /** A request is refused only by block devices and ISOs that have its id, and is not found if and
      only if nothing has it. */
  lemma {:induction false} MatchedExactly(home: Home, storage: seq<Storage>, r: Request)
    ensures (forall t | t in Matched(home, storage, r) :: t.RunTool?)
            <==> forall s | s in storage :: !BlockOrIsoNamed(s, r.id)
    ensures Matched(home, storage, r) != [] <==> exists s :: s in storage && GroupNames(home, s, r.id)
  {
    if storage != [] {
      GroupMatchesExactly(home, storage[0], r);
      MatchedExactly(home, storage[1..], r);
      AllInConcat(GroupTasks(home, storage[0], r), Matched(home, storage[1..], r));
      assert storage == [storage[0]] + storage[1..];
    }
  }

  /** One more task: a run that fails and a refusal each add one error at the end. */
  lemma PerformSnoc(faults: Faults, log: Log, tasks: seq<Task>, t: Task)
    ensures var before, after := PerformAll(faults, log, tasks), PerformAll(faults, log, tasks + [t]);
            (t.RunTool? ==>
               after.runs == before.runs + [t.args]
               && after.errors == before.errors + if faults(|before.runs|) == Fine then [] else [CommandRan])
            && (t.Unsupported? ==> after == Log(before.runs, before.errors + [UnsupportedStorage(t.why)]))
            && (t.NotFound? ==> after == Log(before.runs, before.errors + [FileNotFound(t.path)]))
  {
    PerformConcat(faults, log, tasks, [t]);
    assert [t][1..] == [];
  }

  lemma {:induction false} RunsAreToolRuns(faults: Faults, log: Log, tasks: seq<Task>)
    ensures PerformAll(faults, log, tasks).runs == log.runs + ToolRuns(tasks)
    decreases |tasks|
  {
    if tasks != [] {
      RunsAreToolRuns(faults, Perform(faults, log, tasks[0]), tasks[1..]);
    }
  }

  /** No error exactly when every request matched something and only resizable entries, and
      every one of those resizes succeeded. */
  lemma ResizeOkExactly(home: Home, storage: seq<Storage>, faults: Faults, requests: seq<Request>)
    ensures var log := PerformAll(faults, Log([], []), Tasks(home, storage, requests));
            log.errors == []
            <==> (forall r | r in requests ::
                    ImageNamed(home, storage, r.id) && forall s | s in storage :: !BlockOrIsoNamed(s, r.id))
                 && forall k | 0 <= k < |log.runs| :: faults(k) == Fine
  {
    var tasks := Tasks(home, storage, requests);
    NoErrorExactly(faults, Log([], []), tasks);
    AllSucceedByIndex(faults, 0, tasks);
    AllRunTool(home, storage, requests);
    RunsAreToolRuns(faults, Log([], []), tasks);
    forall r | r in requests
      ensures OnlyResizable(home, storage, r)
              <==> ImageNamed(home, storage, r.id) && forall s | s in storage :: !BlockOrIsoNamed(s, r.id)
    {
      OnlyResizableExactly(home, storage, r);
    }
    if forall t | t in tasks :: t.RunTool? {
      RunsOfImages(tasks);
      assert [] + ToolRuns(tasks) == ToolRuns(tasks);
    }
  }
}
