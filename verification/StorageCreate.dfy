/** Creating storage (`sys_storage_create`) over a modelled filesystem.

    `faults(k)` is what befalls the k-th filesystem operation or tool run.  A tool that runs
    is taken to write its file, because its exit status is not looked at
    (`becky-utils/src/lib.rs`). */
module StorageCreate {
  import opened Wrappers
  import opened StorageLayout

  datatype File = BlockDevice | Plain(content: string) | Image(args: seq<string>)

  /** `PartWay`: the operation reports an error after it has touched its target. */
  datatype Fault = Fine | Fails | PartWay | FindsCorrupt

  type Faults = nat -> Fault

  datatype StorageError =
    | IO
    | CorruptImage(path: string)
    | CommandRan
    | FileNotFound(path: string)
    | UnsupportedStorage(why: string)

  datatype Fs = Fs(files: map<string, File>, dirs: set<string>, clock: nat)

  predicate Exists(fs: Fs, p: string) { p in fs.files || p in fs.dirs }

  // Single operations.

  function Tick(fs: Fs): Fs { fs.(clock := fs.clock + 1) }

  function MakeDir(faults: Faults, fs: Fs, dir: string): (Fs, seq<StorageError>) {
    if faults(fs.clock).Fine? then (Tick(fs).(dirs := fs.dirs + {dir}), []) else (Tick(fs), [IO])
  }

  function CheckImage(faults: Faults, fs: Fs, path: string): (Fs, seq<StorageError>) {
    match faults(fs.clock)
    case Fine => (Tick(fs), [])
    case FindsCorrupt => (Tick(fs), [CorruptImage(path)])
    case _ => (Tick(fs), [CommandRan])
  }

  function RunCreate(faults: Faults, fs: Fs, path: string, args: seq<string>): (Fs, seq<StorageError>) {
    match faults(fs.clock)
    case Fine => (Tick(fs).(files := fs.files[path := Image(args)]), [])
    case PartWay => (Tick(fs).(files := fs.files[path := Image(args)]), [CommandRan])
    case _ => (Tick(fs), [CommandRan])
  }

  /** Copying a file onto itself truncates it. */
  function Copy(faults: Faults, fs: Fs, src: string, dest: string): (Fs, seq<StorageError>) {
    if src !in fs.files || dest in fs.dirs then (Tick(fs), [IO])
    else
      match faults(fs.clock)
      case Fine => (Tick(fs).(files := fs.files[dest := if src == dest then Plain("") else fs.files[src]]), [])
      case PartWay => (Tick(fs).(files := fs.files[dest := Plain("")]), [IO])
      case _ => (Tick(fs), [IO])
  }

  function CheckBlockDevice(faults: Faults, fs: Fs, path: string): (Fs, seq<StorageError>) {
    if !faults(fs.clock).Fine? then (Tick(fs), [IO])
    else if !Exists(fs, path) then (Tick(fs), [FileNotFound(path)])
    else if path in fs.files && fs.files[path].BlockDevice? then (Tick(fs), [])
    else (Tick(fs), [UnsupportedStorage("host block storage path is not a block device")])
  }

  /** An existing image is checked, a missing one created. */
  function CheckOrCreate(faults: Faults, fs: Fs, path: string, args: seq<string>): (Fs, seq<StorageError>) {
    if !faults(fs.clock).Fine? then (Tick(fs), [IO])
    else if Exists(fs, path) then CheckImage(faults, Tick(fs), path)
    else RunCreate(faults, Tick(fs), path, args)
  }

  // The storage entries one by one.

  datatype Item =
    | DiskItem(path: string, args: seq<string>)
    | BlockItem(path: string)
    | IsoItem(src: string, path: string)
    | CloudItem(writable: bool, src: string, path: string, args: seq<string>)

  function ItemOf(home: Home, s: Storage, i: nat): Item
    requires i < GroupSize(s)
  {
    match s
    case DiskFiles(files) =>
      var path := DiskPath(home, files[i]);
      DiskItem(path, CreateArgs(FormatArg(files[i].format), path, Some(files[i].disk.size), files[i].opts))
    case HostBlock(devices) => BlockItem(devices[i].path)
    case Isos(isos) => IsoItem(isos[i].path, IsoDest(home, isos[i]))
    case CloudImages(images) =>
      var image := images[i].image;
      var format := BackingFormat(image.osType);
      var path := OverlayPath(home, image);
      CloudItem(format.Some?, image.path, path,
                if format.None? then []
                else CreateArgs("qcow2", path, None, OverlayOptions(image, format.value, images[i].opts)))
  }

  function GroupItems(home: Home, s: Storage): seq<Item> {
    seq(GroupSize(s), i requires 0 <= i < GroupSize(s) => ItemOf(home, s, i))
  }

  function Items(home: Home, storage: seq<Storage>): seq<Item> {
    if storage == [] then [] else GroupItems(home, storage[0]) + Items(home, storage[1..])
  }

  lemma NextItem(home: Home, s: Storage, i: nat, later: seq<Item>)
    requires i < GroupSize(s)
    ensures var rest := GroupItems(home, s)[i..] + later;
            rest[0] == ItemOf(home, s, i) && rest[1..] == GroupItems(home, s)[i + 1..] + later
  {
  }

  function CreateItem(faults: Faults, dir: string, fs: Fs, item: Item): (Fs, seq<StorageError>) {
    match item
    case DiskItem(path, args) =>
      var (fs1, e1) := MakeDir(faults, fs, dir);
      if e1 != [] then (fs1, e1) else CheckOrCreate(faults, fs1, path, args)
    case BlockItem(path) => CheckBlockDevice(faults, fs, path)
    case IsoItem(src, path) =>
      var (fs1, e1) := MakeDir(faults, fs, dir);
      if e1 != [] then (fs1, e1) else Copy(faults, fs1, src, path)
    case CloudItem(writable, src, path, args) =>
      if !writable then (fs, [UnsupportedStorage("ISO cloud images cannot be used as writable disks")])
      else if !faults(fs.clock).Fine? then (Tick(fs), [IO])
      else if !Exists(fs, src) then (Tick(fs), [FileNotFound(src)])
      else
        var (fs1, e1) := MakeDir(faults, Tick(fs), dir);
        if e1 != [] then (fs1, e1) else CheckOrCreate(faults, fs1, path, args)
  }

  /** All items in order; errors accumulate. */
  function CreateItems(faults: Faults, dir: string, fs: Fs, errors: seq<StorageError>, items: seq<Item>)
    : (Fs, seq<StorageError>)
    decreases |items|
  {
    if items == [] then (fs, errors)
    else
      var (fs1, e1) := CreateItem(faults, dir, fs, items[0]);
      CreateItems(faults, dir, fs1, errors + e1, items[1..])
  }

  function Create(faults: Faults, home: Home, fs: Fs, storage: seq<Storage>): (Fs, seq<StorageError>) {
    CreateItems(faults, home.DataDir(), fs, [], Items(home, storage))
  }

  // What the errors are, and what is created.

  /** What the check of an existing image reports. */
  function CheckError(f: Fault, path: string): seq<StorageError> {
    if f == Fine then [] else if f == FindsCorrupt then [CorruptImage(path)] else [CommandRan]
  }

  /** An image that is there is checked, one that is not is created; first it is looked for. */
  lemma CheckOrCreateExactly(faults: Faults, fs: Fs, path: string, args: seq<string>)
    ensures var (fs', errors) := CheckOrCreate(faults, fs, path, args);
            var c, there := fs.clock, path in fs.files || path in fs.dirs;
            errors == (if faults(c) != Fine then [IO] else if there then CheckError(faults(c + 1), path)
                       else if faults(c + 1) == Fine then [] else [CommandRan])
            && fs'.files == (if faults(c) == Fine && !there && (faults(c + 1) == Fine || faults(c + 1) == PartWay)
                             then fs.files[path := Image(args)] else fs.files)
            && fs'.dirs == fs.dirs
  {
  }

  /** From operation `c` on: errors if the data directory cannot be made, the file cannot be looked
      for, or the tool fails; a file that is missing is created with these arguments. */
  predicate DiskLike(faults: Faults, dir: string, fs: Fs, c: nat, path: string, args: seq<string>,
                     fs': Fs, errors: seq<StorageError>) {
    var made := faults(c) == Fine && faults(c + 1) == Fine;
    var there := path in fs.files || path in fs.dirs || path == dir;
    errors == (if !made then [IO] else if there then CheckError(faults(c + 2), path)
               else if faults(c + 2) == Fine then [] else [CommandRan])
    && fs'.files == (if made && !there && (faults(c + 2) == Fine || faults(c + 2) == PartWay)
                     then fs.files[path := Image(args)] else fs.files)
    && fs'.dirs == fs.dirs + if faults(c) == Fine then {dir} else {}
  }

  /** A disk is created with its format, options and size. */
  lemma DiskExactly(faults: Faults, home: Home, fs: Fs, f: DiskFile)
    ensures var (fs', errors) := CreateItem(faults, home.DataDir(), fs, ItemOf(home, DiskFiles([f]), 0));
            var path, format := DiskPath(home, f), if f.format == Raw then "raw" else "qcow2";
            var args := CreateArgs(format, path, Some(f.disk.size), f.opts);
            DiskLike(faults, home.DataDir(), fs, fs.clock, path, args, fs', errors)
  {
    var item := ItemOf(home, DiskFiles([f]), 0);
    CheckOrCreateExactly(faults, MakeDir(faults, fs, home.DataDir()).0, item.path, item.args);
  }

  /** An overlay of an ISO is refused, and so is one whose image cannot be found; nothing is touched. */
  lemma OverlayRefused(faults: Faults, home: Home, fs: Fs, f: CloudFile)
    ensures var (fs', errors) := CreateItem(faults, home.DataDir(), fs, ItemOf(home, CloudImages([f]), 0));
            var image := f.image;
            var found := image.path in fs.files || image.path in fs.dirs;
            (image.osType == IsoImage || faults(fs.clock) != Fine || !found ==>
               fs'.files == fs.files && fs'.dirs == fs.dirs
               && errors == if image.osType == IsoImage
                            then [UnsupportedStorage("ISO cloud images cannot be used as writable disks")]
                            else if faults(fs.clock) != Fine then [IO] else [FileNotFound(image.path)])
  {
    BackingFormatExactly(f.image.osType);
  }

  /** The overlay of any other image is like a disk, except that it is qcow2, has no size and is
      backed by the image. */
  lemma OverlayExactly(faults: Faults, home: Home, fs: Fs, f: CloudFile)
    requires f.image.osType != IsoImage && faults(fs.clock) == Fine
    requires f.image.path in fs.files || f.image.path in fs.dirs
    ensures var (fs', errors) := CreateItem(faults, home.DataDir(), fs, ItemOf(home, CloudImages([f]), 0));
            var path, c := OverlayPath(home, f.image), fs.clock + 1;
            var format := if f.image.osType == RawImage then "raw" else "qcow2";
            var args := CreateArgs("qcow2", path, None, OverlayOptions(f.image, format, f.opts));
            DiskLike(faults, home.DataDir(), fs, c, path, args, fs', errors)
  {
    BackingFormatExactly(f.image.osType);
    var item := ItemOf(home, CloudImages([f]), 0);
    CheckOrCreateExactly(faults, MakeDir(faults, Tick(fs), home.DataDir()).0, item.path, item.args);
  }

  /** An ISO is copied onto its destination in the data directory. */
  lemma IsoExactly(faults: Faults, home: Home, fs: Fs, iso: Iso)
    ensures var (fs', errors) := CreateItem(faults, home.DataDir(), fs, ItemOf(home, Isos([iso]), 0));
            var path, c := IsoDest(home, iso), fs.clock;
            var can := faults(c) == Fine && iso.path in fs.files && path !in fs.dirs && path != home.DataDir();
            errors == (if can && faults(c + 1) == Fine then [] else [IO])
            && fs'.files == (if can && faults(c + 1) == Fine
                             then fs.files[path := if iso.path == path then Plain("") else fs.files[iso.path]]
                             else if can && faults(c + 1) == PartWay then fs.files[path := Plain("")] else fs.files)
  {
  }

  /** A host device is only looked at. */
  lemma BlockExactly(faults: Faults, home: Home, fs: Fs, device: Disk)
    ensures var (fs', errors) := CreateItem(faults, home.DataDir(), fs, ItemOf(home, HostBlock([device]), 0));
            var path := device.path;
            fs'.files == fs.files && fs'.dirs == fs.dirs
            && errors == if faults(fs.clock) != Fine then [IO]
                         else if path !in fs.files && path !in fs.dirs then [FileNotFound(path)]
                         else if path in fs.files && fs.files[path] == BlockDevice then []
                         else [UnsupportedStorage("host block storage path is not a block device")]
  {
  }

  /** Each entry of a group is created like a group of its own. */
  lemma EntryIsItsOwnGroup(home: Home, s: Storage, i: nat)
    requires i < GroupSize(s)
    ensures ItemOf(home, s, i)
            == if s.DiskFiles? then ItemOf(home, DiskFiles([s.files[i]]), 0)
               else if s.HostBlock? then ItemOf(home, HostBlock([s.devices[i]]), 0)
               else if s.Isos? then ItemOf(home, Isos([s.isos[i]]), 0)
               else ItemOf(home, CloudImages([s.images[i]]), 0)
  {
  }

  /** Entries are created in order, and their errors follow each other. */
  lemma EntriesOneByOne(faults: Faults, dir: string, fs: Fs, items: seq<Item>, last: Item)
    ensures var (fs1, errors) := CreateItems(faults, dir, fs, [], items);
            var (fs2, more) := CreateItem(faults, dir, fs1, last);
            CreateItems(faults, dir, fs, [], items + [last]) == (fs2, errors + more)
  {
    CreateItemsSnoc(faults, dir, fs, [], items, last);
  }

  lemma {:induction false} CreateItemsSnoc(faults: Faults, dir: string, fs: Fs, before: seq<StorageError>,
                                           items: seq<Item>, last: Item)
    ensures var (fs1, errors) := CreateItems(faults, dir, fs, before, items);
            var (fs2, more) := CreateItem(faults, dir, fs1, last);
            CreateItems(faults, dir, fs, before, items + [last]) == (fs2, errors + more)
    decreases |items|
  {
    var all := items + [last];
    if items == [] {
      assert all[1..] == [];
    } else {
      var (fs1, e1) := CreateItem(faults, dir, fs, items[0]);
      CreateItemsSnoc(faults, dir, fs1, before + e1, items[1..], last);
      assert all[1..] == items[1..] + [last];
    }
  }

  // The filesystem and the configuration as objects.

  class FileSystem {
    var files: map<string, File>
    var dirs: set<string>
    var clock: nat

    constructor (fs: Fs)
      ensures View() == fs
    {
      files, dirs, clock := fs.files, fs.dirs, fs.clock;
    }

    ghost function View(): Fs
      reads this
    {
      Fs(files, dirs, clock)
    }

    method CreateDirAll(faults: Faults, dir: string) returns (errors: seq<StorageError>)
      modifies this
      ensures (View(), errors) == MakeDir(faults, old(View()), dir)
    {
      var fault := faults(clock);
      clock := clock + 1;
      if !fault.Fine? {
        return [IO];
      }
      dirs := dirs + {dir};
      errors := [];
    }

    method CopyFile(faults: Faults, src: string, dest: string) returns (errors: seq<StorageError>)
      modifies this
      ensures (View(), errors) == Copy(faults, old(View()), src, dest)
    {
      var fault := faults(clock);
      clock := clock + 1;
      if src !in files || dest in dirs {
        return [IO];
      }
      match fault {
        case Fine =>
          files := files[dest := if src == dest then Plain("") else files[src]];
          errors := [];
        case PartWay =>
          files := files[dest := Plain("")];
          errors := [IO];
        case _ =>
          errors := [IO];
      }
    }

    method ValidateHostBlockDevice(faults: Faults, path: string) returns (errors: seq<StorageError>)
      modifies this`clock
      ensures (View(), errors) == CheckBlockDevice(faults, old(View()), path)
    {
      var fault := faults(clock);
      clock := clock + 1;
      if !fault.Fine? {
        return [IO];
      }
      if path !in files && path !in dirs {
        return [FileNotFound(path)];
      }
      errors := if path in files && files[path].BlockDevice? then []
                else [UnsupportedStorage("host block storage path is not a block device")];
    }

    method CheckOrCreateImage(faults: Faults, path: string, args: seq<string>) returns (errors: seq<StorageError>)
      modifies this
      ensures (View(), errors) == CheckOrCreate(faults, old(View()), path, args)
    {
      var found := faults(clock);
      clock := clock + 1;
      if !found.Fine? {
        return [IO];
      }
      var fault := faults(clock);
      clock := clock + 1;
      if path in files || path in dirs {
        errors := match fault { case Fine => [] case FindsCorrupt => [CorruptImage(path)] case _ => [CommandRan] };
      } else {
        if fault.Fine? || fault.PartWay? {
          files := files[path := Image(args)];
        }
        errors := if fault.Fine? then [] else [CommandRan];
      }
    }
  }

  class QemuMachineConfiguration {
    const home: Home
    const storage: seq<Storage>

    constructor (home: Home, storage: seq<Storage>)
      ensures this.home == home && this.storage == storage
    {
      this.home, this.storage := home, storage;
    }

    method CreateDisk(fs: FileSystem, faults: Faults, f: DiskFile) returns (errors: seq<StorageError>)
      modifies fs
      ensures (fs.View(), errors) == CreateItem(faults, home.DataDir(), old(fs.View()), ItemOf(home, DiskFiles([f]), 0))
    {
      errors := fs.CreateDirAll(faults, home.DataDir());
      if errors != [] {
        return;
      }
      var path := DiskPath(home, f);
      errors := fs.CheckOrCreateImage(faults, path, CreateArgs(FormatArg(f.format), path, Some(f.disk.size), f.opts));
    }

    method CreateIso(fs: FileSystem, faults: Faults, iso: Iso) returns (errors: seq<StorageError>)
      modifies fs
      ensures (fs.View(), errors) == CreateItem(faults, home.DataDir(), old(fs.View()), ItemOf(home, Isos([iso]), 0))
    {
      errors := fs.CreateDirAll(faults, home.DataDir());
      if errors != [] {
        return;
      }
      errors := fs.CopyFile(faults, iso.path, IsoDest(home, iso));
    }

    method CreateOverlay(fs: FileSystem, faults: Faults, f: CloudFile) returns (errors: seq<StorageError>)
      modifies fs
      ensures (fs.View(), errors)
          == CreateItem(faults, home.DataDir(), old(fs.View()), ItemOf(home, CloudImages([f]), 0))
    {
      var format := BackingFormat(f.image.osType);
      if format.None? {
        return [UnsupportedStorage("ISO cloud images cannot be used as writable disks")];
      }
      var found := faults(fs.clock);
      fs.clock := fs.clock + 1;
      if !found.Fine? {
        return [IO];
      }
      if f.image.path !in fs.files && f.image.path !in fs.dirs {
        return [FileNotFound(f.image.path)];
      }
      errors := fs.CreateDirAll(faults, home.DataDir());
      if errors != [] {
        return;
      }
      var path := OverlayPath(home, f.image);
      var opts := f.opts;
      if opts.backingFile.None? {
        opts := opts.(backingFile := Some(f.image.path));
      }
      if opts.backingFormat.None? {
        opts := opts.(backingFormat := format);
      }
      errors := fs.CheckOrCreateImage(faults, path, CreateArgs("qcow2", path, None, opts));
    }

    method CreateEntry(fs: FileSystem, faults: Faults, s: Storage, i: nat) returns (errors: seq<StorageError>)
      requires i < GroupSize(s)
      modifies fs
      ensures (fs.View(), errors) == CreateItem(faults, home.DataDir(), old(fs.View()), ItemOf(home, s, i))
    {
      match s {
        case DiskFiles(files) => errors := CreateDisk(fs, faults, files[i]);
        case HostBlock(devices) => errors := fs.ValidateHostBlockDevice(faults, devices[i].path);
        case Isos(isos) => errors := CreateIso(fs, faults, isos[i]);
        case CloudImages(images) => errors := CreateOverlay(fs, faults, images[i]);
      }
    }

    /** The nested loops over groups and entries do what the flat list of items says. */
    method SysStorageCreate(fs: FileSystem, faults: Faults) returns (errors: seq<StorageError>)
      modifies fs
      ensures (fs.View(), errors) == Create(faults, home, old(fs.View()), storage)
    {
      errors := [];
      ghost var all := Create(faults, home, fs.View(), storage);
      for g := 0 to |storage|
        invariant all == CreateItems(faults, home.DataDir(), fs.View(), errors, Items(home, storage[g..]))
      {
        var s := storage[g];
        assert storage[g..][0] == s && storage[g..][1..] == storage[g + 1..];
        ghost var later := Items(home, storage[g + 1..]);
        assert GroupItems(home, s)[0..] == GroupItems(home, s);
        assert Items(home, storage[g..]) == GroupItems(home, s) + later;
        for i := 0 to GroupSize(s)
          invariant all == CreateItems(faults, home.DataDir(), fs.View(), errors, GroupItems(home, s)[i..] + later)
        {
          NextItem(home, s, i, later);
          var more := CreateEntry(fs, faults, s, i);
          errors := errors + more;
        }
        assert GroupItems(home, s)[GroupSize(s)..] + later == later;
      }
    }
  }

  // What a create promises.

  predicate IsCopyTo(item: Item, p: string) { item.IsoItem? && item.path == p }

  /** Errors that were reported stay reported. */
  lemma {:induction false} ErrorsGrow(faults: Faults, dir: string, fs: Fs, errors: seq<StorageError>, items: seq<Item>)
    ensures errors <= CreateItems(faults, dir, fs, errors, items).1
    decreases |items|
  {
    if items != [] {
      var (fs1, e1) := CreateItem(faults, dir, fs, items[0]);
      ErrorsGrow(faults, dir, fs1, errors + e1, items[1..]);
    }
  }

  lemma CheckOrCreateTouches(faults: Faults, fs: Fs, path: string, args: seq<string>)
    ensures var (fs', errors) := CheckOrCreate(faults, fs, path, args);
            fs'.dirs == fs.dirs && fs.files.Keys <= fs'.files.Keys <= fs.files.Keys + {path}
            && (forall p :: p in fs.files ==> fs'.files[p] == fs.files[p])
            && (errors == [] ==> Exists(fs', path))
            && (errors == [] && Exists(fs, path) ==> fs'.files == fs.files)
  {
  }

  /** At most the item's own file is created, and what is there stays unless the item is a copy;
      without errors the item's file exists. */
  predicate Touches(dir: string, fs: Fs, item: Item, fs': Fs, errors: seq<StorageError>) {
    fs.dirs <= fs'.dirs <= fs.dirs + {dir}
    && fs.files.Keys <= fs'.files.Keys <= fs.files.Keys + {item.path}
    && (forall p | p in fs.files && !IsCopyTo(item, p) :: fs'.files[p] == fs.files[p])
    && (item.BlockItem? ==> fs'.files == fs.files)
    && (errors == [] ==> Exists(fs', item.path))
    && (errors == [] && item.IsoItem? && item.src != item.path ==>
          item.src in fs.files && item.path in fs'.files && fs'.files[item.path] == fs.files[item.src])
    && (errors == [] && Exists(fs, item.path) && !item.IsoItem? ==> fs'.files == fs.files)
  }

  lemma DiskTouches(faults: Faults, dir: string, fs: Fs, item: Item)
    requires item.DiskItem?
    ensures var (fs', errors) := CreateItem(faults, dir, fs, item); Touches(dir, fs, item, fs', errors)
  {
    CheckOrCreateTouches(faults, MakeDir(faults, fs, dir).0, item.path, item.args);
  }

  lemma CopyTouches(faults: Faults, dir: string, fs: Fs, item: Item)
    requires item.IsoItem?
    ensures var (fs', errors) := CreateItem(faults, dir, fs, item); Touches(dir, fs, item, fs', errors)
  {
  }

  lemma OverlayTouches(faults: Faults, dir: string, fs: Fs, item: Item)
    requires item.CloudItem?
    ensures var (fs', errors) := CreateItem(faults, dir, fs, item); Touches(dir, fs, item, fs', errors)
  {
    CheckOrCreateTouches(faults, MakeDir(faults, Tick(fs), dir).0, item.path, item.args);
  }

  lemma ItemTouchesItsFile(faults: Faults, dir: string, fs: Fs, item: Item)
    ensures var (fs', errors) := CreateItem(faults, dir, fs, item); Touches(dir, fs, item, fs', errors)
  {
    match item
    case DiskItem(_, _) => DiskTouches(faults, dir, fs, item);
    case IsoItem(_, _) => CopyTouches(faults, dir, fs, item);
    case CloudItem(_, _, _, _) => OverlayTouches(faults, dir, fs, item);
    case BlockItem(_) =>
  }

  /** Files are never removed, and whatever the outcome a file that is no copy's destination
      keeps its contents. */
  lemma {:induction false} CreatePreserves(faults: Faults, dir: string, fs: Fs, errors: seq<StorageError>,
                                           items: seq<Item>)
    ensures var (fs', _) := CreateItems(faults, dir, fs, errors, items);
            fs.dirs <= fs'.dirs && fs.files.Keys <= fs'.files.Keys
            && forall p :: p in fs.files && (forall item | item in items :: !IsCopyTo(item, p)) ==>
                 fs'.files[p] == fs.files[p]
    decreases |items|
  {
    if items != [] {
      ItemTouchesItsFile(faults, dir, fs, items[0]);
      var (fs1, e1) := CreateItem(faults, dir, fs, items[0]);
      CreatePreserves(faults, dir, fs1, errors + e1, items[1..]);
      assert forall item | item in items[1..] :: item in items;
    }
  }

  lemma {:induction false} ItemsExist(faults: Faults, dir: string, fs: Fs, items: seq<Item>)
    requires CreateItems(faults, dir, fs, [], items).1 == []
    ensures forall item | item in items :: Exists(CreateItems(faults, dir, fs, [], items).0, item.path)
    decreases |items|
  {
    if items != [] {
      var (fs1, e1) := CreateItem(faults, dir, fs, items[0]);
      ItemTouchesItsFile(faults, dir, fs, items[0]);
      ErrorsGrow(faults, dir, fs1, [] + e1, items[1..]);
      assert [] + e1 == e1;
      ItemsExist(faults, dir, fs1, items[1..]);
      CreatePreserves(faults, dir, fs1, [], items[1..]);
    }
  }

  lemma {:induction false} DrivesAreItems(home: Home, storage: seq<Storage>)
    ensures |Drives(home, storage)| == |Items(home, storage)|
    ensures forall k | 0 <= k < |Drives(home, storage)| :: Drives(home, storage)[k].file == Items(home, storage)[k].path
  {
    if storage != [] {
      DrivesAreItems(home, storage[1..]);
    }
  }

  /** After a create without errors every file on the generated command line exists. */
  lemma CreatedDrivesExist(faults: Faults, home: Home, fs: Fs, storage: seq<Storage>)
    requires Create(faults, home, fs, storage).1 == []
    ensures forall d | d in Drives(home, storage) :: Exists(Create(faults, home, fs, storage).0, d.file)
  {
    ItemsExist(faults, home.DataDir(), fs, Items(home, storage));
    DrivesAreItems(home, storage);
    forall d | d in Drives(home, storage) ensures Exists(Create(faults, home, fs, storage).0, d.file) {
      var k :| 0 <= k < |Drives(home, storage)| && Drives(home, storage)[k] == d;
      assert Items(home, storage)[k] in Items(home, storage);
    }
  }

  // ISO copies.

  /** The source of the last copy onto `p`. */
  function LastSource(items: seq<Item>, p: string): Option<string> {
    if items == [] then None
    else
      match LastSource(items[1..], p)
      case Some(src) => Some(src)
      case None => if IsCopyTo(items[0], p) then Some(items[0].src) else None
  }

  lemma {:induction false} LastSourceOfNone(items: seq<Item>, p: string)
    ensures LastSource(items, p) == None <==> forall item | item in items :: !IsCopyTo(item, p)
  {
    if items != [] {
      LastSourceOfNone(items[1..], p);
      assert forall item | item in items :: item == items[0] || item in items[1..];
      assert forall item | item in items[1..] :: item in items;
      assert items[0] in items;
    }
  }

  /** No copy reads a file that creating writes. */
  predicate SourcesOutside(items: seq<Item>) {
    forall a, b | a in items && b in items :: a.IsoItem? && !b.BlockItem? ==> a.src != b.path
  }

  /** A create without errors leaves at each copy's destination what its last source held at
      the start. */
  lemma {:induction false} CopiesLand(faults: Faults, dir: string, fs: Fs, items: seq<Item>, outside: seq<Item>,
                                      p: string)
    requires CreateItems(faults, dir, fs, [], items).1 == []
    requires SourcesOutside(outside) && forall item | item in items :: item in outside
    requires LastSource(items, p).Some?
    ensures var fs' := CreateItems(faults, dir, fs, [], items).0;
            LastSource(items, p).value in fs.files && p in fs'.files
            && fs'.files[p] == fs.files[LastSource(items, p).value]
    decreases |items|
  {
    var item := items[0];
    var (fs1, e1) := CreateItem(faults, dir, fs, item);
    ItemTouchesItsFile(faults, dir, fs, item);
    ErrorsGrow(faults, dir, fs1, [] + e1, items[1..]);
    assert [] + e1 == e1;
    assert item in outside;
    if LastSource(items[1..], p).Some? {
      CopiesLand(faults, dir, fs1, items[1..], outside, p);
      if !item.BlockItem? {
        SourceIsOutside(items[1..], outside, p, item);
      }
    } else {
      LastSourceOfNone(items[1..], p);
      CreatePreserves(faults, dir, fs1, [], items[1..]);
    }
  }

  lemma {:induction false} SourceIsOutside(items: seq<Item>, outside: seq<Item>, p: string, other: Item)
    requires LastSource(items, p).Some?
    requires SourcesOutside(outside) && other in outside && !other.BlockItem?
    requires forall item | item in items :: item in outside
    ensures LastSource(items, p).value != other.path
  {
    if LastSource(items[1..], p).Some? {
      SourceIsOutside(items[1..], outside, p, other);
    } else {
      assert items[0] in outside;
    }
  }

  /** When every destination exists already, only a copy's destination can be added to the
      files. */
  lemma {:induction false} NothingIsCreated(faults: Faults, dir: string, fs: Fs, items: seq<Item>, p: string)
    requires CreateItems(faults, dir, fs, [], items).1 == []
    requires forall item | item in items :: Exists(fs, item.path)
    requires p !in fs.files && LastSource(items, p) == None
    ensures p !in CreateItems(faults, dir, fs, [], items).0.files
    decreases |items|
  {
    if items != [] {
      ItemTouchesItsFile(faults, dir, fs, items[0]);
      var (fs1, e1) := CreateItem(faults, dir, fs, items[0]);
      ErrorsGrow(faults, dir, fs1, [] + e1, items[1..]);
      assert [] + e1 == e1;
      NothingIsCreated(faults, dir, fs1, items[1..], p);
    }
  }

  predicate NeedsDir(items: seq<Item>) {
    exists item :: item in items && !item.BlockItem?
  }

  lemma NeedsDirFirst(items: seq<Item>)
    requires items != []
    ensures NeedsDir(items) <==> !items[0].BlockItem? || NeedsDir(items[1..])
  {
    assert forall item | item in items :: item == items[0] || item in items[1..];
    assert items[0] in items && forall item | item in items[1..] :: item in items;
  }

  lemma {:induction false} DirsAfter(faults: Faults, dir: string, fs: Fs, items: seq<Item>)
    requires CreateItems(faults, dir, fs, [], items).1 == []
    ensures CreateItems(faults, dir, fs, [], items).0.dirs
            == fs.dirs + if NeedsDir(items) then {dir} else {}
    decreases |items|
  {
    if items != [] {
      NeedsDirFirst(items);
      var (fs1, e1) := CreateItem(faults, dir, fs, items[0]);
      ErrorsGrow(faults, dir, fs1, [] + e1, items[1..]);
      assert [] + e1 == e1;
      DirsAfter(faults, dir, fs1, items[1..]);
      assert fs1.dirs == fs.dirs + if items[0].BlockItem? then {} else {dir};
    }
  }

  /** Creating is idempotent: when both runs report no error and no ISO is read from a path that
      creating writes, the second run leaves files and directories as the first did. */
  lemma CreateTwice(faults: Faults, again: Faults, home: Home, fs: Fs, storage: seq<Storage>, clock: nat)
    requires SourcesOutside(Items(home, storage))
    requires Create(faults, home, fs, storage).1 == []
    requires Create(again, home, Create(faults, home, fs, storage).0.(clock := clock), storage).1 == []
    ensures var fs1 := Create(faults, home, fs, storage).0;
            var fs2 := Create(again, home, fs1.(clock := clock), storage).0;
            fs2.files == fs1.files && fs2.dirs == fs1.dirs
  {
    var dir, items := home.DataDir(), Items(home, storage);
    var fs1 := CreateItems(faults, dir, fs, [], items).0;
    var start := fs1.(clock := clock);
    var fs2 := CreateItems(again, dir, start, [], items).0;
    ItemsExist(faults, dir, fs, items);
    CreatePreserves(faults, dir, fs, [], items);
    CreatePreserves(again, dir, start, [], items);
    DirsAfter(faults, dir, fs, items);
    DirsAfter(again, dir, start, items);
    forall p ensures p in fs2.files <==> p in fs1.files
             ensures p in fs1.files ==> fs2.files[p] == fs1.files[p] {
      SecondRunKeeps(faults, again, dir, fs, start, items, p);
    }
  }

  /** Every item's own file is there, and so is what it reads. */
  predicate Ready(fs: Fs, dir: string, item: Item) {
    match item
    case DiskItem(path, _) => Exists(fs, path)
    case BlockItem(path) => path in fs.files && fs.files[path].BlockDevice?
    case IsoItem(src, path) => src in fs.files && path !in fs.dirs && path != dir
    case CloudItem(writable, src, path, _) => writable && Exists(fs, src) && Exists(fs, path)
  }

  lemma ReadyItemSucceeds(faults: Faults, dir: string, fs: Fs, item: Item)
    requires (forall k :: faults(k) == Fine) && Ready(fs, dir, item)
    ensures CreateItem(faults, dir, fs, item).1 == []
  {
  }

  /** An item leaves others ready, unless it copies onto one's block device. */
  lemma ItemKeepsReady(faults: Faults, dir: string, fs: Fs, item: Item, other: Item)
    requires Ready(fs, dir, other)
    requires other.BlockItem? ==> !IsCopyTo(item, other.path)
    ensures Ready(CreateItem(faults, dir, fs, item).0, dir, other)
  {
    ItemTouchesItsFile(faults, dir, fs, item);
  }

  /** An item that has been created without error is ready to be created again. */
  lemma CreatedIsReady(faults: Faults, dir: string, fs: Fs, item: Item)
    requires CreateItem(faults, dir, fs, item).1 == []
    ensures Ready(CreateItem(faults, dir, fs, item).0, dir, item)
  {
    ItemTouchesItsFile(faults, dir, fs, item);
  }

  /** No ISO is copied onto a configured block device. */
  predicate BlocksUntouched(items: seq<Item>) {
    forall a, b | a in items && b in items && b.BlockItem? :: !IsCopyTo(a, b.path)
  }

  lemma {:induction false} RunKeepsReady(faults: Faults, dir: string, fs: Fs, items: seq<Item>, other: Item)
    requires Ready(fs, dir, other)
    requires forall item | item in items && other.BlockItem? :: !IsCopyTo(item, other.path)
    ensures forall errors :: Ready(CreateItems(faults, dir, fs, errors, items).0, dir, other)
    decreases |items|
  {
    if items != [] {
      assert items[0] in items && forall i | i in items[1..] :: i in items;
      ItemKeepsReady(faults, dir, fs, items[0], other);
      RunKeepsReady(faults, dir, CreateItem(faults, dir, fs, items[0]).0, items[1..], other);
    }
  }

  lemma {:induction false} CreatedAreReady(faults: Faults, dir: string, fs: Fs, items: seq<Item>, all: seq<Item>)
    requires CreateItems(faults, dir, fs, [], items).1 == []
    requires BlocksUntouched(all) && forall item | item in items :: item in all
    ensures forall item | item in items :: Ready(CreateItems(faults, dir, fs, [], items).0, dir, item)
    decreases |items|
  {
    if items != [] {
      var (fs1, e1) := CreateItem(faults, dir, fs, items[0]);
      ErrorsGrow(faults, dir, fs1, [] + e1, items[1..]);
      assert [] + e1 == e1;
      assert items[0] in items && forall i | i in items[1..] :: i in items;
      CreatedIsReady(faults, dir, fs, items[0]);
      RunKeepsReady(faults, dir, fs1, items[1..], items[0]);
      CreatedAreReady(faults, dir, fs1, items[1..], all);
      assert forall item | item in items :: item == items[0] || item in items[1..];
    }
  }

  lemma {:induction false} ReadySucceed(faults: Faults, dir: string, fs: Fs, items: seq<Item>, all: seq<Item>)
    requires (forall k :: faults(k) == Fine) && BlocksUntouched(all)
    requires forall item | item in items :: item in all && Ready(fs, dir, item)
    ensures CreateItems(faults, dir, fs, [], items).1 == []
    decreases |items|
  {
    if items != [] {
      assert items[0] in items && forall i | i in items[1..] :: i in items;
      ReadyItemSucceeds(faults, dir, fs, items[0]);
      var none: seq<StorageError> := [];
      assert none + none == none;
      forall other | other in items[1..] ensures Ready(CreateItem(faults, dir, fs, items[0]).0, dir, other) {
        ItemKeepsReady(faults, dir, fs, items[0], other);
      }
      ReadySucceed(faults, dir, CreateItem(faults, dir, fs, items[0]).0, items[1..], all);
    }
  }

  /** After a create without errors, a second one in which no operation fails reports none either,
      as long as no ISO is copied onto a configured block device. */
  lemma CreateAgainSucceeds(faults: Faults, again: Faults, home: Home, fs: Fs, storage: seq<Storage>, clock: nat)
    requires BlocksUntouched(Items(home, storage)) && forall k :: again(k) == Fine
    requires Create(faults, home, fs, storage).1 == []
    ensures Create(again, home, Create(faults, home, fs, storage).0.(clock := clock), storage).1 == []
  {
    var dir, items := home.DataDir(), Items(home, storage);
    CreatedAreReady(faults, dir, fs, items, items);
    var start := Create(faults, home, fs, storage).0.(clock := clock);
    assert forall item | item in items :: Ready(start, dir, item);
    ReadySucceed(again, dir, start, items, items);
  }

  lemma SecondRunKeeps(faults: Faults, again: Faults, dir: string, fs: Fs, start: Fs, items: seq<Item>, p: string)
    requires SourcesOutside(items)
    requires CreateItems(faults, dir, fs, [], items).1 == [] && CreateItems(again, dir, start, [], items).1 == []
    requires start.files == CreateItems(faults, dir, fs, [], items).0.files
    requires forall item | item in items :: Exists(start, item.path)
    ensures var fs2 := CreateItems(again, dir, start, [], items).0;
            (p in fs2.files <==> p in start.files) && (p in start.files ==> fs2.files[p] == start.files[p])
  {
    CreatePreserves(again, dir, start, [], items);
    LastSourceOfNone(items, p);
    match LastSource(items, p)
    case None =>
      if p !in start.files {
        NothingIsCreated(again, dir, start, items, p);
      }
    case Some(src) =>
      CopiesLand(faults, dir, fs, items, items, p);
      CopiesLand(again, dir, start, items, items, p);
      forall item | item in items ensures !IsCopyTo(item, src) {
        if item.IsoItem? {
          SourceIsOutside(items, items, p, item);
        }
      }
      CreatePreserves(faults, dir, fs, [], items);
  }

  // Which files are safe.

  /** One good operation, then a copy that breaks off, nothing else. */
  function BreakingAt(c: nat): Faults {
    t => if t == c then Fine else if t == c + 1 then PartWay else Fails
  }

  /** Operations an item performs when its first one fails. */
  function FailedOperations(item: Item): nat {
    if item.CloudItem? && !item.writable then 0 else 1
  }

  /** When the first copy onto `p` is reached if everything before it fails. */
  function FirstCopyAt(items: seq<Item>, p: string, clock: nat): (c: nat)
    ensures c >= clock
  {
    if items == [] || IsCopyTo(items[0], p) then clock
    else FirstCopyAt(items[1..], p, clock + FailedOperations(items[0]))
  }

  lemma {:induction false} FailingKeepsFiles(faults: Faults, dir: string, fs: Fs, errors: seq<StorageError>,
                                             items: seq<Item>)
    requires forall t | t >= fs.clock :: faults(t) == Fails
    ensures CreateItems(faults, dir, fs, errors, items).0.files == fs.files
    decreases |items|
  {
    if items != [] {
      var (fs1, e1) := CreateItem(faults, dir, fs, items[0]);
      FailingKeepsFiles(faults, dir, fs1, errors + e1, items[1..]);
    }
  }

  lemma {:induction false} BrokenCopyEmpties(dir: string, fs: Fs, errors: seq<StorageError>, items: seq<Item>,
                                             p: string)
    requires p !in fs.dirs && p != dir && LastSource(items, p).Some?
    requires forall item | item in items :: item.IsoItem? ==> item.src in fs.files
    ensures var fs' := CreateItems(BreakingAt(FirstCopyAt(items, p, fs.clock)), dir, fs, errors, items).0;
            p in fs'.files && fs'.files[p] == Plain("")
    decreases |items|
  {
    var item, faults := items[0], BreakingAt(FirstCopyAt(items, p, fs.clock));
    var (fs1, e1) := CreateItem(faults, dir, fs, item);
    assert item in items && forall i | i in items[1..] :: i in items;
    if IsCopyTo(item, p) {
      assert fs1.clock == fs.clock + 2 && fs1.files == fs.files[p := Plain("")];
      FailingKeepsFiles(faults, dir, fs1, errors + e1, items[1..]);
    } else {
      assert faults(fs.clock) == Fails || FailedOperations(item) == 0;
      assert fs1 == fs.(clock := fs.clock + FailedOperations(item));
      BrokenCopyEmpties(dir, fs1, errors + e1, items[1..], p);
    }
  }

  predicate KeepsFile(faults: Faults, home: Home, fs: Fs, storage: seq<Storage>, p: string) {
    var fs' := Create(faults, home, fs, storage).0;
    p in fs.files && p in fs'.files && fs'.files[p] == fs.files[p]
  }

  /** A non-empty file, such as an existing disk or overlay image, survives every create if and
      only if no ISO is to be copied onto it. */
  lemma KeptExactly(home: Home, fs: Fs, storage: seq<Storage>, p: string)
    requires p in fs.files && p !in fs.dirs && p != home.DataDir() && fs.files[p] != Plain("")
    requires forall item | item in Items(home, storage) :: item.IsoItem? ==> item.src in fs.files
    ensures (forall faults: Faults :: KeepsFile(faults, home, fs, storage, p))
            <==> forall item | item in Items(home, storage) :: !IsCopyTo(item, p)
  {
    var dir, items := home.DataDir(), Items(home, storage);
    LastSourceOfNone(items, p);
    if LastSource(items, p) == None {
      forall faults: Faults ensures KeepsFile(faults, home, fs, storage, p) {
        CreatePreserves(faults, dir, fs, [], items);
      }
    } else {
      BrokenCopyEmpties(dir, fs, [], items, p);
      assert !KeepsFile(BreakingAt(FirstCopyAt(items, p, fs.clock)), home, fs, storage, p);
    }
  }

  /** Such a copy can be configured for every named disk: an ISO may be given the disk's file
      name. */
  lemma IsoCanBeNamedLikeDisk(home: Home, disk: DiskFile, source: string)
    requires disk.disk.id != ""
    ensures IsoDest(home, Iso(disk.disk.id + "." + Extension(disk.format), source)) == DiskPath(home, disk)
  {
    var id, ext := disk.disk.id, "." + Extension(disk.format);
    assert id + "." + Extension(disk.format) == id + ext;
    assert Sanitize(ext) == ext;
    assert Sanitize(id + ext) == Sanitize(id) + Sanitize(ext);
    assert Sanitize(id) + ext == DiskStem(disk.disk) + "." + Extension(disk.format);
  }
}
